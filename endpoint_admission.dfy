/**
 * The specification of one admission pass of the client's scheduler, as a
 * function of the active and queued lists and of which requests are finished
 * and which are cancelled when the pass starts, with the properties it keeps.
 */
module EndpointAdmission {
  import opened EndpointRequest
  import opened LockingArrays

  /** Admission priority; the raw value orders the queue (lower first). */
  datatype Priority = Normal | Background
  {
    function RawValue(): (raw: int)
      ensures raw == 0 <==> this == Normal
      ensures raw == 1 <==> this == Background
    {
      match this
      case Normal => 0
      case Background => 1
    }
  }

  /** One entry of the queued or active list: the request, its group identifier and its priority. */
  datatype Info = Info(request: Request, identifier: string, priority: Priority)

  /** The sort key of the queued list. */
  function PriorityKey(info: Info): int {
    info.priority.RawValue()
  }

  /** The purge predicate: the entry's request is among `finished`. */
  function FinishedIn(finished: set<Request>): Info -> bool {
    (info: Info) => info.request in finished
  }

  /** The cancel predicate: the entry has the given group identifier. */
  function HasIdentifier(identifier: string): Info -> bool {
    (info: Info) => info.identifier == identifier
  }

  function RequestsOf(s: seq<Info>): set<Request> {
    set i | i in s :: i.request
  }

  /** The requests of `s` whose state is finished. */
  function FinishedOf(s: seq<Info>): set<Request>
    reads RequestsOf(s)
  {
    set i | i in s && i.request.state == Finished :: i.request
  }

  /** The requests of `s` that are cancelled. */
  function CancelledOf(s: seq<Info>): set<Request>
    reads RequestsOf(s)
  {
    set i | i in s && i.request.isCancelled :: i.request
  }

  /** The requests of the entries of `s` with the given identifier. */
  function MatchingOf(s: seq<Info>, identifier: string): set<Request> {
    set i | i in s && i.identifier == identifier :: i.request
  }

  /** The active list after the purge: the entries whose request is not finished, in order. */
  function Purged(active: seq<Info>, finished: set<Request>): seq<Info> {
    Without(active, FinishedIn(finished))
  }

  /**
   * The admission loop on a sorted queue with `room` free slots: pop the head
   * while the queue is not empty and slots remain; a cancelled entry is dropped
   * without taking a slot, a live one is admitted. Returns the admitted entries
   * in pop order and what is left of the queue.
   */
  function Admit(queue: seq<Info>, cancelled: set<Request>, room: int): (seq<Info>, seq<Info>)
    decreases |queue|
  {
    if |queue| == 0 || room <= 0 then ([], queue)
    else if queue[0].request in cancelled then Admit(queue[1..], cancelled, room)
    else
      var rest := Admit(queue[1..], cancelled, room - 1);
      ([queue[0]] + rest.0, rest.1)
  }

  datatype PassResult = PassResult(active: seq<Info>, queued: seq<Info>, admitted: seq<Info>)

  /**
   * One admission pass: purge finished entries from the active list; stop if
   * it is still at the ceiling; otherwise sort the queue by priority and admit
   * from its head into the remaining slots.
   */
  function Pass(active: seq<Info>, queued: seq<Info>, finished: set<Request>, cancelled: set<Request>,
                maximum: int): PassResult
  {
    var purged := Purged(active, finished);
    if |purged| >= maximum then PassResult(purged, queued, [])
    else
      var admission := Admit(SortedByKey(queued, PriorityKey), cancelled, maximum - |purged|);
      PassResult(purged + admission.0, admission.1, admission.0)
  }

  /** A pass that finds a free slot, spelled out. */
  lemma PassWithRoom(active: seq<Info>, queued: seq<Info>, finished: set<Request>, cancelled: set<Request>,
                     maximum: int, purged: seq<Info>, sorted: seq<Info>, admitted: seq<Info>, rest: seq<Info>)
    requires purged == Purged(active, finished) && |purged| < maximum
    requires sorted == SortedByKey(queued, PriorityKey)
    requires (admitted, rest) == Admit(sorted, cancelled, maximum - |purged|)
    ensures Pass(active, queued, finished, cancelled, maximum) == PassResult(purged + admitted, rest, admitted)
  {
  }

  // ---------------------------------------------------------------------------
  // Properties of the admission loop.

  /**
   * The loop pops a prefix of the queue and leaves the rest; it admits exactly
   * the entries of that prefix whose request is not cancelled, in order, and
   * no more than `room` of them; it stops only on an empty queue or with every
   * slot taken.
   */
  lemma {:induction false} AdmitShape(queue: seq<Info>, cancelled: set<Request>, room: int)
    ensures var r := Admit(queue, cancelled, room);
            var popped := |queue| - |r.1|;
            0 <= popped <= |queue| && r.1 == queue[popped..]
            && r.0 == Without(queue[..popped], FinishedIn(cancelled))
            && |r.0| <= (if room < 0 then 0 else room)
            && (r.1 == [] || |r.0| >= room)
  {
    AdmitLeavesSuffix(queue, cancelled, room);
    AdmitTakesLiveOfPrefix(queue, cancelled, room);
    AdmitBounds(queue, cancelled, room);
  }

  /** What the loop leaves queued is a suffix of the queue. */
  lemma {:induction false} AdmitLeavesSuffix(queue: seq<Info>, cancelled: set<Request>, room: int)
    ensures var r := Admit(queue, cancelled, room);
            |r.1| <= |queue| && r.1 == queue[|queue| - |r.1|..]
    decreases |queue|
  {
    if |queue| > 0 && room > 0 {
      var next := if queue[0].request in cancelled then room else room - 1;
      var sub := Admit(queue[1..], cancelled, next);
      AdmitLeavesSuffix(queue[1..], cancelled, next);
      assert queue[1..][|queue| - 1 - |sub.1|..] == queue[|queue| - |sub.1|..];
    }
  }

  /** What the loop admits is the live part of what it popped, in order. */
  lemma {:induction false} AdmitTakesLiveOfPrefix(queue: seq<Info>, cancelled: set<Request>, room: int)
    ensures var r := Admit(queue, cancelled, room);
            |r.1| <= |queue| && r.0 == Without(queue[..|queue| - |r.1|], FinishedIn(cancelled))
    decreases |queue|
  {
    if |queue| > 0 && room > 0 {
      var next := if queue[0].request in cancelled then room else room - 1;
      var sub := Admit(queue[1..], cancelled, next);
      AdmitTakesLiveOfPrefix(queue[1..], cancelled, next);
      var popped := |queue| - |sub.1|;
      assert queue[..popped][1..] == queue[1..][..popped - 1];
    } else {
      assert queue[..0] == [];
    }
  }

  /** The loop admits at most `room` entries, and leaves entries queued only when it admitted `room`. */
  lemma {:induction false} AdmitBounds(queue: seq<Info>, cancelled: set<Request>, room: int)
    ensures var r := Admit(queue, cancelled, room);
            |r.0| <= (if room < 0 then 0 else room) && (r.1 == [] || |r.0| >= room)
    decreases |queue|
  {
    if |queue| > 0 && room > 0 {
      AdmitBounds(queue[1..], cancelled, if queue[0].request in cancelled then room else room - 1);
    }
  }

  /** Every entry that the loop admits is live. */
  lemma {:induction false} AdmitOnlyLive(queue: seq<Info>, cancelled: set<Request>, room: int)
    ensures forall i :: i in Admit(queue, cancelled, room).0 ==> i.request !in cancelled
    decreases |queue|
  {
    if |queue| > 0 && room > 0 {
      AdmitOnlyLive(queue[1..], cancelled, if queue[0].request in cancelled then room else room - 1);
    }
  }

  // ---------------------------------------------------------------------------
  // Properties of a whole pass.

  /** The purge removes exactly the entries whose request is finished and keeps the others in order. */
  lemma PurgeRemovesFinished(active: seq<Info>, finished: set<Request>)
    ensures forall i :: i in Purged(active, finished) <==> i in active && i.request !in finished
    ensures |Purged(active, finished)| <= |active|
  {
    WithoutMembers(active, FinishedIn(finished));
  }

  /**
   * The ceiling: after a pass the active list is within the maximum, or it is
   * the purged list untouched (it was already over before the pass). Hence a
   * pass keeps "within the maximum, or empty".
   */
  lemma PassRespectsCeiling(active: seq<Info>, queued: seq<Info>, finished: set<Request>,
                            cancelled: set<Request>, maximum: int)
    ensures var r := Pass(active, queued, finished, cancelled, maximum);
            |r.active| <= maximum || (r.active == Purged(active, finished) && r.admitted == [])
    ensures var r := Pass(active, queued, finished, cancelled, maximum);
            (|active| <= maximum || active == []) ==> (|r.active| <= maximum || r.active == [])
  {
    var purged := Purged(active, finished);
    PurgeRemovesFinished(active, finished);
    if |purged| < maximum {
      AdmitShape(SortedByKey(queued, PriorityKey), cancelled, maximum - |purged|);
    } else if active == [] {
      assert purged == [];
    }
  }

  /**
   * What a pass that finds a free slot does with the queue: it sorts it, pops
   * a prefix of the sorted queue and leaves exactly the rest queued, and
   * admits the live entries of the prefix in pop order.
   */
  lemma PassAdmitsFromSortedQueue(active: seq<Info>, queued: seq<Info>, finished: set<Request>,
                                  cancelled: set<Request>, maximum: int)
    requires |Purged(active, finished)| < maximum
    ensures var r := Pass(active, queued, finished, cancelled, maximum);
            var sorted := SortedByKey(queued, PriorityKey);
            var popped := |sorted| - |r.queued|;
            0 <= popped <= |sorted| && r.queued == sorted[popped..]
            && r.admitted == Without(sorted[..popped], FinishedIn(cancelled))
            && r.active == Purged(active, finished) + r.admitted
  {
    var purged := Purged(active, finished);
    var sorted := SortedByKey(queued, PriorityKey);
    var admission := Admit(sorted, cancelled, maximum - |purged|);
    PassWithRoom(active, queued, finished, cancelled, maximum, purged, sorted, admission.0, admission.1);
    AdmitShape(sorted, cancelled, maximum - |purged|);
  }

  /** A pass never admits a cancelled entry. */
  lemma PassAdmitsOnlyLive(active: seq<Info>, queued: seq<Info>, finished: set<Request>,
                           cancelled: set<Request>, maximum: int)
    ensures var r := Pass(active, queued, finished, cancelled, maximum);
            forall i :: i in r.admitted ==> i.request !in cancelled
  {
    var purged := Purged(active, finished);
    if |purged| < maximum {
      var sorted := SortedByKey(queued, PriorityKey);
      var admission := Admit(sorted, cancelled, maximum - |purged|);
      PassWithRoom(active, queued, finished, cancelled, maximum, purged, sorted, admission.0, admission.1);
      AdmitOnlyLive(sorted, cancelled, maximum - |purged|);
    }
  }

  /** A pass that finds a free slot stops only with an empty queue or every slot taken. */
  lemma PassFillsFreeSlots(active: seq<Info>, queued: seq<Info>, finished: set<Request>,
                           cancelled: set<Request>, maximum: int)
    requires |Purged(active, finished)| < maximum
    ensures var r := Pass(active, queued, finished, cancelled, maximum);
            r.queued == [] || |r.active| == maximum
  {
    var purged := Purged(active, finished);
    var sorted := SortedByKey(queued, PriorityKey);
    var admission := Admit(sorted, cancelled, maximum - |purged|);
    PassWithRoom(active, queued, finished, cancelled, maximum, purged, sorted, admission.0, admission.1);
    AdmitBounds(sorted, cancelled, maximum - |purged|);
  }

  /**
   * Priority: no entry left queued has a lower priority value than an entry
   * admitted in the same pass, so a background entry is never admitted while
   * a normal one stays queued.
   */
  lemma PassAdmitsInPriorityOrder(active: seq<Info>, queued: seq<Info>, finished: set<Request>,
                                  cancelled: set<Request>, maximum: int)
    ensures var r := Pass(active, queued, finished, cancelled, maximum);
            forall a, b :: a in r.admitted && b in r.queued ==> PriorityKey(a) <= PriorityKey(b)
    ensures var r := Pass(active, queued, finished, cancelled, maximum);
            forall a, b :: a in r.admitted && b in r.queued && a.priority == Background ==> b.priority == Background
  {
    var r := Pass(active, queued, finished, cancelled, maximum);
    if |Purged(active, finished)| < maximum {
      var sorted := SortedByKey(queued, PriorityKey);
      PassAdmitsFromSortedQueue(active, queued, finished, cancelled, maximum);
      SortedByKeyIsSortedPermutation(queued, PriorityKey);
      AdmittedBeforeRest(sorted, |sorted| - |r.queued|, FinishedIn(cancelled), r.admitted, r.queued);
    }
  }

  /** Entries kept from a prefix of a priority-sorted queue come before the rest, and so do their priorities. */
  lemma AdmittedBeforeRest(sorted: seq<Info>, popped: int, p: Info -> bool, admitted: seq<Info>, rest: seq<Info>)
    requires IsSortedByKey(sorted, PriorityKey) && 0 <= popped <= |sorted|
    requires admitted == Without(sorted[..popped], p) && rest == sorted[popped..]
    ensures forall a, b :: a in admitted && b in rest ==> PriorityKey(a) <= PriorityKey(b)
    ensures forall a, b :: a in admitted && b in rest && a.priority == Background ==> b.priority == Background
  {
    SortedSplit(sorted, popped, p, PriorityKey);
    forall a, b | a in admitted && b in rest && a.priority == Background
      ensures b.priority == Background
    {
      assert PriorityKey(a) <= PriorityKey(b);
    }
  }

  /** In a sorted sequence, what survives a filter of a prefix sorts before the rest. */
  lemma SortedSplit(s: seq<Info>, popped: int, p: Info -> bool, key: Info -> int)
    requires IsSortedByKey(s, key) && 0 <= popped <= |s|
    ensures forall a, b :: a in Without(s[..popped], p) && b in s[popped..] ==> key(a) <= key(b)
  {
    var prefix, rest := s[..popped], s[popped..];
    forall a, b | a in Without(prefix, p) && b in rest
      ensures key(a) <= key(b)
    {
      WithoutMember(prefix, p, a);
      var x :| 0 <= x < |prefix| && prefix[x] == a;
      var y :| 0 <= y < |rest| && rest[y] == b;
      assert s[x] == a && s[popped + y] == b;
    }
  }

  /**
   * A second pass with no arrival and no completion in between changes
   * nothing: the first left no finished entry active, and it stopped with an
   * empty queue or a full active list.
   */
  lemma PassIsIdempotent(active: seq<Info>, queued: seq<Info>, finished: set<Request>, cancelled: set<Request>,
                         finishedLater: set<Request>, cancelledLater: set<Request>, maximum: int)
    requires var r := Pass(active, queued, finished, cancelled, maximum);
             forall i :: i in r.active ==> i.request !in finishedLater
    ensures var r := Pass(active, queued, finished, cancelled, maximum);
            Pass(r.active, r.queued, finishedLater, cancelledLater, maximum) == PassResult(r.active, r.queued, [])
  {
    var r := Pass(active, queued, finished, cancelled, maximum);
    WithoutNothing(r.active, FinishedIn(finishedLater));
    if |Purged(active, finished)| < maximum {
      PassFillsFreeSlots(active, queued, finished, cancelled, maximum);
    }
  }

  lemma {:induction false} WithoutNothing(s: seq<Info>, p: Info -> bool)
    requires forall i :: i in s ==> !p(i)
    ensures Without(s, p) == s
    decreases |s|
  {
    if |s| > 0 {
      WithoutNothing(s[1..], p);
      assert s == [s[0]] + s[1..];
    }
  }

  /** The purge depends only on which of the active entries' requests are finished. */
  lemma {:induction false} PurgeDependsOnActiveOnly(active: seq<Info>, finished: set<Request>, other: set<Request>)
    requires forall i :: i in active ==> (i.request in finished <==> i.request in other)
    ensures Purged(active, finished) == Purged(active, other)
    decreases |active|
  {
    if |active| > 0 {
      PurgeDependsOnActiveOnly(active[1..], finished, other);
    }
  }

  /**
   * A pass depends only on which of the active entries' requests are
   * finished: finished requests that are not in flight make no difference.
   */
  lemma PassDependsOnActiveOnly(active: seq<Info>, queued: seq<Info>, finished: set<Request>, other: set<Request>,
                                cancelled: set<Request>, maximum: int)
    requires forall i :: i in active ==> (i.request in finished <==> i.request in other)
    ensures Pass(active, queued, finished, cancelled, maximum) == Pass(active, queued, other, cancelled, maximum)
  {
    PurgeDependsOnActiveOnly(active, finished, other);
  }

  /** The entries admitted by one pass leave the queue in ascending priority order. */
  lemma PassAdmittedAreSorted(active: seq<Info>, queued: seq<Info>, finished: set<Request>,
                              cancelled: set<Request>, maximum: int)
    ensures IsSortedByKey(Pass(active, queued, finished, cancelled, maximum).admitted, PriorityKey)
  {
    var r := Pass(active, queued, finished, cancelled, maximum);
    if |Purged(active, finished)| < maximum {
      var sorted := SortedByKey(queued, PriorityKey);
      PassAdmitsFromSortedQueue(active, queued, finished, cancelled, maximum);
      SortedByKeyIsSortedPermutation(queued, PriorityKey);
      var popped := |sorted| - |r.queued|;
      assert IsSortedByKey(sorted[..popped], PriorityKey);
      WithoutKeepsOrder(sorted[..popped], FinishedIn(cancelled), PriorityKey);
    }
  }

  lemma {:induction false} WithoutKeepsOrder(s: seq<Info>, p: Info -> bool, key: Info -> int)
    requires IsSortedByKey(s, key)
    ensures IsSortedByKey(Without(s, p), key)
    decreases |s|
  {
    if |s| > 0 {
      WithoutKeepsOrder(s[1..], p, key);
      var tail := s[1..];
      var w := Without(tail, p);
      forall j | 0 <= j < |w| ensures key(s[0]) <= key(w[j]) {
        WithoutMember(tail, p, w[j]);
        var k :| 0 <= k < |tail| && tail[k] == w[j];
        assert s[k + 1] == w[j];
      }
    }
  }
}
