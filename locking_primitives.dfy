/**
 * Single-value holders. The source guards each with a read-write lock; here
 * every call is one atomic step on `valueInternal`.
 */
module LockingPrimitives {

  /** A value that reads back what was last stored. */
  class LockingValue<T> {
    var valueInternal: T

    constructor (initialValue: T)
      ensures Value() == initialValue
    {
      valueInternal := initialValue;
    }

    function Value(): T
      reads this
    {
      valueInternal
    }

    method Set(value: T)
      modifies this
      ensures Value() == value
    {
      valueInternal := value;
    }
  }

  /**
   * A number with read-modify-write steps that return the stored result. The
   * source is generic over `Numeric`; the model uses unbounded integers.
   */
  class LockingNumeric {
    var valueInternal: int

    /** The source's default argument is 0. */
    constructor (value: int := 0)
      ensures Value() == value
    {
      valueInternal := value;
    }

    function Value(): int
      reads this
    {
      valueInternal
    }

    method Set(value: int) returns (stored: int)
      modifies this
      ensures Value() == value && stored == value
    {
      valueInternal := value;
      stored := valueInternal;
    }

    method Add(value: int) returns (stored: int)
      modifies this
      ensures Value() == old(Value()) + value && stored == Value()
    {
      valueInternal := valueInternal + value;
      stored := valueInternal;
    }

    method Subtract(value: int) returns (stored: int)
      modifies this
      ensures Value() == old(Value()) - value && stored == Value()
    {
      valueInternal := valueInternal - value;
      stored := valueInternal;
    }
  }

  /** Calls `add(1)` n times on a counter that starts at zero, collecting what each call returns. */
  method AddOnes(counter: LockingNumeric, n: nat) returns (results: seq<int>)
    requires counter.Value() == 0
    modifies counter
    ensures results == AddResults(0, Ones(n))
    ensures counter.Value() == n
  {
    results := [];
    while |results| < n
      invariant |results| <= n
      invariant results == AddResults(0, Ones(|results|))
      invariant counter.Value() == |results|
      decreases n - |results|
    {
      var stored := counter.Add(1);
      UnitAddStep(|results|);
      results := results + [stored];
    }
  }

  /** What successive `add` calls return, starting from `start`, for the given increments. */
  function AddResults(start: int, increments: seq<int>): (results: seq<int>)
    ensures |results| == |increments|
  {
    if |increments| == 0 then []
    else AddResults(start, increments[..|increments| - 1])
         + [start + Sum(increments)]
  }

  function Sum(s: seq<int>): int
  {
    if |s| == 0 then 0 else Sum(s[..|s| - 1]) + s[|s| - 1]
  }

  function Ones(n: nat): (s: seq<int>)
    ensures |s| == n && forall k :: 0 <= k < n ==> s[k] == 1
  {
    if n == 0 then [] else Ones(n - 1) + [1]
  }

  /** One more `add(1)` from zero returns the number of calls so far. */
  lemma UnitAddStep(n: nat)
    ensures AddResults(0, Ones(n + 1)) == AddResults(0, Ones(n)) + [n + 1]
  {
    assert Ones(n + 1)[..n] == Ones(n);
    SumOnes(n + 1);
  }

  /** From zero, the k-th `add(1)` (counting from one) returns k. */
  lemma {:induction false} UnitAddsCount(n: nat)
    ensures forall k :: 0 <= k < n ==> AddResults(0, Ones(n))[k] == k + 1
    decreases n
  {
    if n > 0 {
      UnitAddsCount(n - 1);
      assert Ones(n)[..n - 1] == Ones(n - 1);
      SumOnes(n);
    }
  }

  lemma {:induction false} SumOnes(n: nat)
    ensures Sum(Ones(n)) == n
    decreases n
  {
    if n > 0 {
      assert Ones(n)[..n - 1] == Ones(n - 1);
      SumOnes(n - 1);
    }
  }

  /** Hence among n calls of `add(1)` from zero, exactly one sees a total N with 1 <= N <= n, and no call sees any other total. */
  lemma UnitAddsHitTotalOnce(n: nat, total: int)
    ensures forall i, j ::
              0 <= i < n && 0 <= j < n && AddResults(0, Ones(n))[i] == total && AddResults(0, Ones(n))[j] == total
              ==> i == j
    ensures (exists i :: 0 <= i < n && AddResults(0, Ones(n))[i] == total) <==> 1 <= total <= n
  {
    UnitAddsCount(n);
    if 1 <= total <= n {
      assert AddResults(0, Ones(n))[total - 1] == total;
    }
  }
}
