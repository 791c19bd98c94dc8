/**
 * String helpers shared by the URL and SQL builders: joining with a separator
 * (Foundation's `String(combining:with:)`), splitting at a one-character
 * separator (the inverse used to state round trips), prefix tests and counting.
 */
module Strings {

  /** `parts` joined with `sep` between neighbours; defined from the end, as a loop appending one part at a time builds it. */
  function Join(parts: seq<string>, sep: string): string
  {
    if |parts| == 0 then ""
    else if |parts| == 1 then parts[0]
    else Join(parts[..|parts| - 1], sep) + sep + parts[|parts| - 1]
  }

  /** `s` cut at every occurrence of `sep`. */
  function Split(s: string, sep: char): (r: seq<string>)
    ensures |r| > 0
  {
    if |s| == 0 then [""]
    else if s[|s| - 1] == sep then Split(s[..|s| - 1], sep) + [""]
    else
      var r := Split(s[..|s| - 1], sep);
      r[..|r| - 1] + [r[|r| - 1] + [s[|s| - 1]]]
  }

  predicate HasPrefix(s: string, prefix: string) {
    |prefix| <= |s| && s[..|prefix|] == prefix
  }

  predicate HasSuffix(s: string, suffix: string) {
    |suffix| <= |s| && s[|s| - |suffix|..] == suffix
  }

  /** Concatenation regrouped; stated once so that proofs about long concatenations can cite it. */
  lemma ConcatAssociates<T>(a: seq<T>, b: seq<T>, c: seq<T>)
    ensures (a + b) + c == a + (b + c)
  {
  }

  lemma SuffixOfAppend(a: string, b: string)
    ensures HasSuffix(a + b, b)
  {
    assert (a + b)[|a + b| - |b|..] == b;
  }

  lemma SuffixTransitive(s: string, t: string, u: string)
    requires HasSuffix(s, t) && HasSuffix(t, u)
    ensures HasSuffix(s, u)
  {
    assert s[|s| - |u|..] == t[|t| - |u|..];
  }

  lemma PrefixOfAppend(a: string, b: string, prefix: string)
    requires HasPrefix(a, prefix)
    ensures HasPrefix(a + b, prefix)
  {
    assert (a + b)[..|prefix|] == a[..|prefix|];
  }

  lemma PrefixAfterCommonHead(head: string, b: string, prefix: string)
    requires HasPrefix(b, prefix)
    ensures HasPrefix(head + b, head + prefix)
  {
    assert (head + b)[..|head + prefix|] == head + b[..|prefix|];
  }

  lemma SuffixBeforeCommonTail(a: string, tail: string, suffix: string)
    requires HasSuffix(a, suffix)
    ensures HasSuffix(a + tail, suffix + tail)
  {
    assert (a + tail)[|a + tail| - |suffix + tail|..] == a[|a| - |suffix|..] + tail;
  }

  /** Number of occurrences of `c` in `s`. */
  function Count(s: string, c: char): nat
  {
    if |s| == 0 then 0
    else Count(s[..|s| - 1], c) + (if s[|s| - 1] == c then 1 else 0)
  }

  /** `n` copies of `item` (Swift's `Array(repeating:count:)`). */
  function Repeat(item: string, n: nat): (r: seq<string>)
    ensures |r| == n
  {
    if n == 0 then [] else Repeat(item, n - 1) + [item]
  }

  lemma {:induction false} CountConcat(a: string, b: string, c: char)
    ensures Count(a + b, c) == Count(a, c) + Count(b, c)
    decreases |b|
  {
    if |b| == 0 {
      assert a + b == a;
    } else {
      assert (a + b)[..|a + b| - 1] == a + b[..|b| - 1];
      CountConcat(a, b[..|b| - 1], c);
    }
  }

  lemma {:induction false} CountAbsent(s: string, c: char)
    requires c !in s
    ensures Count(s, c) == 0
    decreases |s|
  {
    if |s| > 0 {
      CountAbsent(s[..|s| - 1], c);
    }
  }

  /** Joining with a separator and splitting at it are inverse when no part holds the separator. */
  lemma {:induction false} SplitJoin(parts: seq<string>, sep: char)
    requires |parts| > 0
    requires forall k :: 0 <= k < |parts| ==> sep !in parts[k]
    ensures Split(Join(parts, [sep]), sep) == parts
    decreases |parts|
  {
    if |parts| == 1 {
      SplitNoSeparator(parts[0], sep);
    } else {
      var init := parts[..|parts| - 1];
      SplitJoin(init, sep);
      SplitAppend(Join(init, [sep]), parts[|parts| - 1], sep);
      assert init + [parts[|parts| - 1]] == parts;
    }
  }

  lemma {:induction false} SplitNoSeparator(s: string, sep: char)
    requires sep !in s
    ensures Split(s, sep) == [s]
    decreases |s|
  {
    if |s| > 0 {
      SplitNoSeparator(s[..|s| - 1], sep);
      assert s[..|s| - 1] + [s[|s| - 1]] == s;
    }
  }

  lemma {:induction false} SplitAppend(s: string, part: string, sep: char)
    requires sep !in part
    ensures Split(s + [sep] + part, sep) == Split(s, sep) + [part]
    decreases |part|
  {
    if |part| == 0 {
      assert (s + [sep] + part)[..|s + [sep] + part| - 1] == s;
    } else {
      var t := s + [sep] + part;
      assert t[..|t| - 1] == s + [sep] + part[..|part| - 1];
      SplitAppend(s, part[..|part| - 1], sep);
      assert part[..|part| - 1] + [part[|part| - 1]] == part;
    }
  }

  /** Each part is counted once and each separator once. */
  lemma {:induction false} CountJoin(parts: seq<string>, sep: string, c: char)
    requires |parts| > 0
    ensures Count(Join(parts, sep), c) == CountAll(parts, c) + (|parts| - 1) * Count(sep, c)
    decreases |parts|
  {
    if |parts| > 1 {
      var init := parts[..|parts| - 1];
      CountJoin(init, sep, c);
      CountConcat(Join(init, sep) + sep, parts[|parts| - 1], c);
      CountConcat(Join(init, sep), sep, c);
      assert CountAll(parts, c) == CountAll(init, c) + Count(parts[|parts| - 1], c);
    }
  }

  /** With a separator free of `c`, only the parts count. */
  lemma CountJoinPlainSeparator(parts: seq<string>, sep: string, c: char)
    requires c !in sep
    ensures Count(Join(parts, sep), c) == CountAll(parts, c)
  {
    CountAbsent(sep, c);
    if |parts| > 0 {
      CountJoin(parts, sep, c);
    }
  }

  /** Total occurrences of `c` over all `parts`. */
  function CountAll(parts: seq<string>, c: char): nat
  {
    if |parts| == 0 then 0 else CountAll(parts[..|parts| - 1], c) + Count(parts[|parts| - 1], c)
  }

  lemma CountAllAppend(parts: seq<string>, part: string, c: char)
    ensures CountAll(parts + [part], c) == CountAll(parts, c) + Count(part, c)
  {
    assert (parts + [part])[..|parts|] == parts;
  }

  /** Each copy of an item holding `c` once contributes one `c`. */
  lemma {:induction false} CountAllRepeat(item: string, n: nat, c: char)
    requires Count(item, c) == 1
    ensures CountAll(Repeat(item, n), c) == n
    decreases n
  {
    if n > 0 {
      CountAllRepeat(item, n - 1, c);
      CountAllAppend(Repeat(item, n - 1), item, c);
    }
  }

  /** Parts none of which holds `c` hold no `c` together. */
  lemma {:induction false} CountAllAbsent(parts: seq<string>, c: char)
    requires forall k :: 0 <= k < |parts| ==> c !in parts[k]
    ensures CountAll(parts, c) == 0
    decreases |parts|
  {
    if |parts| > 0 {
      CountAllAbsent(parts[..|parts| - 1], c);
      CountAbsent(parts[|parts| - 1], c);
    }
  }

  /** Parts each holding `c` once hold as many `c` as there are parts. */
  lemma {:induction false} CountAllOnes(parts: seq<string>, c: char)
    requires forall k :: 0 <= k < |parts| ==> Count(parts[k], c) == 1
    ensures CountAll(parts, c) == |parts|
    decreases |parts|
  {
    if |parts| > 0 {
      CountAllOnes(parts[..|parts| - 1], c);
    }
  }

}
