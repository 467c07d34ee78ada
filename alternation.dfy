/**
 * The generic in-place `alternate` rearrangement of data.hpp: it reorders an
 * array so that a boolean predicate is true at even positions and false at odd
 * ones, as far as the contents allow, using swaps only.
 */
module Alternation {
  import opened Common

  /** The value the predicate should take at position k: true at even positions. */
  function Wanted(k: nat): bool { k % 2 == 0 }

  /** The first p elements alternate, starting with true at index 0. */
  predicate AlternatesUpTo<T>(s: seq<T>, f: T -> bool, p: nat)
    requires p <= |s|
  {
    forall k :: 0 <= k < p ==> f(s[k]) == Wanted(k)
  }

  predicate Alternates<T>(s: seq<T>, f: T -> bool)
  {
    AlternatesUpTo(s, f, |s|)
  }

  /** Every element from position p on has the value position p does not want. */
  predicate TailAgainst<T>(s: seq<T>, f: T -> bool, p: nat)
    requires p <= |s|
  {
    forall k :: p <= k < |s| ==> f(s[k]) != Wanted(p)
  }

  /**
   * What `alternate` promises about its result: a permutation of the input,
   * the input itself when that already alternates, and a prefix that
   * alternates followed by a tail in which no element has the value the
   * first unfilled position wants (the scan gave up there).
   */
  ghost predicate Alternated<T>(before: seq<T>, after: seq<T>, f: T -> bool)
  {
    && |after| == |before|
    && multiset(after) == multiset(before)
    && (Alternates(before, f) ==> after == before)
    && exists p: nat :: p <= |after| && AlternatesUpTo(after, f, p) && TailAgainst(after, f, p)
  }

  /** Number of elements on which the predicate holds. */
  function Count<T>(s: seq<T>, f: T -> bool): (n: nat)
    ensures n <= |s|
  {
    if s == [] then 0 else (if f(s[0]) then 1 else 0) + Count(s[1..], f)
  }

  /**
   * The scan of data.hpp:27-30 as written: starting at j, it stops when j > n
   * and otherwise inspects element j, so with j == n it reads one element
   * past the end. `past` stands for whatever lies just beyond the array.
   * The result is the index the source would swap with, if any.
   */
  function ScanAsWritten(s: seq<bool>, past: bool, want: bool, j: nat): (r: Option<nat>)
    requires j <= |s| + 1
    decreases |s| + 1 - j
  {
    if j > |s| then None
    else if (if j < |s| then s[j] else past) == want then Some(j)
    else ScanAsWritten(s, past, want, j + 1)
  }

  /** The scan with the guard `j >= n` the loop needs: it never leaves the array. */
  function Scan(s: seq<bool>, want: bool, j: nat): (r: Option<nat>)
    requires j <= |s|
    ensures r.Some? ==> j <= r.value < |s| && s[r.value] == want
    ensures r.None? ==> forall k :: j <= k < |s| ==> s[k] != want
    decreases |s| - j
  {
    if j >= |s| then None
    else if s[j] == want then Some(j)
    else Scan(s, want, j + 1)
  }

  /**
   * Counterexample for the guard as written: for the one-element array
   * [false] at position 0 (which wants true), when the value beyond the
   * end happens to satisfy the predicate, the scan picks index 1, outside
   * the array, and the source would swap arr[0] with arr[1].
   */
  lemma ScanAsWrittenLeavesArray()
    ensures ScanAsWritten([false], true, Wanted(0), 0) == Some(1)
    ensures Scan([false], Wanted(0), 0) == None
  {
  }

  /** The state of the outer loop of `alternate` before position i. */
  ghost predicate AlternatedBefore<T>(before: seq<T>, now: seq<T>, f: T -> bool, i: nat)
  {
    && i <= |now| == |before|
    && multiset(now) == multiset(before)
    && AlternatesUpTo(now, f, i)
    && (Alternates(before, f) ==> now == before)
  }

  /**
   * The scan of data.hpp:27-30, with the guard corrected to `j >= n`: the
   * first position from i on whose element has the value want, or n when
   * there is none.
   */
  method FindFrom<T>(arr: array<T>, f: T -> bool, want: bool, i: nat) returns (j: nat)
    requires i <= arr.Length
    ensures i <= j <= arr.Length
    ensures j < arr.Length ==> f(arr[j]) == want
    ensures forall k :: i <= k < j ==> f(arr[k]) != want
  {
    j := i;
    while j < arr.Length && f(arr[j]) != want
      invariant i <= j <= arr.Length
      invariant forall k :: i <= k < j ==> f(arr[k]) != want
    {
      j := j + 1;
    }
  }

  /** Swapping two elements keeps the multiset of the array. */
  method SwapIn<T>(arr: array<T>, i: nat, j: nat)
    requires i < arr.Length && j < arr.Length
    modifies arr
    ensures arr[..] == old(arr[..])[i := old(arr[j])][j := old(arr[i])]
    ensures multiset(arr[..]) == multiset(old(arr[..]))
  {
    arr[i], arr[j] := arr[j], arr[i];
  }

  /**
   * One step of the outer loop at a position i whose element has the wrong
   * value: the element found at j > i is swapped in, and the prefix up to
   * and including i alternates.
   */
  lemma SwappedIn<T>(before: seq<T>, now: seq<T>, next: seq<T>, f: T -> bool, i: nat, j: nat)
    requires AlternatedBefore(before, now, f, i) && i < j < |now|
    requires f(now[i]) != Wanted(i) && f(now[j]) == Wanted(i)
    requires next == now[i := now[j]][j := now[i]] && multiset(next) == multiset(now)
    ensures AlternatedBefore(before, next, f, i + 1)
  {
    assert forall k :: 0 <= k < i ==> next[k] == now[k];
  }

  /**
   * The rearrangement of data.hpp:20-40, with the scan guard corrected to
   * `j >= n`. Only swaps are performed, and a swap at position i uses a
   * partner j > i, so the already-alternating prefix is never touched.
   */
  method Alternate<T>(arr: array<T>, f: T -> bool)
    modifies arr
    ensures Alternated(old(arr[..]), arr[..], f)
  {
    var n := arr.Length;
    var i := 0;
    while i < n
      invariant AlternatedBefore(old(arr[..]), arr[..], f, i)
    {
      if f(arr[i]) != Wanted(i) {
        var j := FindFrom(arr, f, Wanted(i), i);
        if j >= n {
          // no element further on has the wanted value: stop here
          assert TailAgainst(arr[..], f, i);
          return;
        }
        ghost var now := arr[..];
        SwapIn(arr, i, j);
        SwappedIn(old(arr[..]), now, arr[..], f, i, j);
      }
      i := i + 1;
    }
    assert TailAgainst(arr[..], f, n);
  }

  lemma {:induction false} CountAppend<T>(a: seq<T>, b: seq<T>, f: T -> bool)
    ensures Count(a + b, f) == Count(a, f) + Count(b, f)
  {
    if a != [] {
      assert (a + b)[0] == a[0];
      assert (a + b)[1..] == a[1..] + b;
      CountAppend(a[1..], b, f);
    } else {
      assert a + b == b;
    }
  }

  /** Taking element q out of t removes it from the multiset. */
  lemma RemoveAtMultiset<T>(t: seq<T>, q: nat)
    requires q < |t|
    ensures multiset(t[..q] + t[q + 1..]) == multiset(t) - multiset{t[q]}
  {
    var a, c := t[..q], t[q + 1..];
    assert t == a + ([t[q]] + c);
  }

  /** Taking element q out of t removes it from the count. */
  lemma RemoveAtCount<T>(t: seq<T>, q: nat, f: T -> bool)
    requires q < |t|
    ensures Count(t, f) == Count(t[..q] + t[q + 1..], f) + (if f(t[q]) then 1 else 0)
  {
    var a, vc := t[..q], t[q..];
    assert t == a + vc;
    CountAppend(a, vc, f);
    CountAppend(a, vc[1..], f);
    assert vc[1..] == t[q + 1..];
  }

  /** Counting is invariant under permutation: it depends on the multiset only. */
  lemma {:induction false} CountPermutation<T>(s: seq<T>, t: seq<T>, f: T -> bool)
    requires multiset(s) == multiset(t)
    ensures Count(s, f) == Count(t, f)
    decreases |s|
  {
    if s == [] {
      assert |t| == |multiset(t)| == 0;
    } else {
      var v := s[0];
      assert s == [v] + s[1..];
      assert v in multiset(t);
      var q :| 0 <= q < |t| && t[q] == v;
      RemoveAtMultiset(t, q);
      RemoveAtCount(t, q, f);
      assert multiset(s[1..]) == multiset(s) - multiset{v};
      CountPermutation(s[1..], t[..q] + t[q + 1..], f);
    }
  }

  /** An alternating prefix of length p holds ceil(p/2) elements satisfying f. */
  lemma {:induction false} CountAlternating<T>(s: seq<T>, f: T -> bool, p: nat)
    requires p <= |s| && AlternatesUpTo(s, f, p)
    ensures Count(s[..p], f) == (p + 1) / 2
  {
    if p > 0 {
      CountAlternating(s, f, p - 1);
      assert s[..p] == s[..p - 1] + [s[p - 1]];
      CountAppend(s[..p - 1], [s[p - 1]], f);
    }
  }

  lemma {:induction false} CountUniform<T>(s: seq<T>, f: T -> bool, b: bool)
    requires forall k :: 0 <= k < |s| ==> f(s[k]) == b
    ensures Count(s, f) == if b then |s| else 0
  {
    if s != [] {
      CountUniform(s[1..], f, b);
    }
  }

  /**
   * An array on which the scan gave up at p holds ceil(p/2) elements
   * satisfying f in the prefix, and its tail satisfies f everywhere or
   * nowhere, as position p wants false or true.
   */
  lemma CountStalled<T>(s: seq<T>, f: T -> bool, p: nat)
    requires p <= |s| && AlternatesUpTo(s, f, p) && TailAgainst(s, f, p)
    ensures Count(s, f) == (p + 1) / 2 + (if Wanted(p) then 0 else |s| - p)
  {
    assert s == s[..p] + s[p..];
    CountAppend(s[..p], s[p..], f);
    CountAlternating(s, f, p);
    var tail := s[p..];
    assert forall k :: 0 <= k < |tail| ==> f(tail[k]) == !Wanted(p);
    CountUniform(tail, f, !Wanted(p));
  }

  /**
   * With as many elements satisfying the predicate as not, `alternate`
   * leaves the whole array alternating, starting with true at index 0.
   */
  lemma BalancedAlternates<T>(before: seq<T>, after: seq<T>, f: T -> bool)
    requires Alternated(before, after, f)
    requires 2 * Count(before, f) == |before|
    ensures Alternates(after, f)
  {
    var p: nat :| p <= |after| && AlternatesUpTo(after, f, p) && TailAgainst(after, f, p);
    CountPermutation(before, after, f);
    CountStalled(after, f, p);
    if p < |after| {
      assert false;
    }
  }
}
