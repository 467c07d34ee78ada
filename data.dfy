/**
 * Example storage of data.hpp: one flat buffer of reals holding, per example,
 * its inputs, its outputs and its modulator h, addressed through an array of
 * per-example offset handles. Shuffling permutes the handles only.
 */
module Data {
  import opened Alternation

  /** Largest value of the source's uint32_t offsets, plus one. */
  const U32: nat := 0x1_0000_0000

  /** Offsets of one example's inputs, outputs and modulator in the data buffer. */
  datatype Example = Example(ins: nat, outs: nat, h: nat)

  /** Width of one example: inputs, outputs and one modulator. */
  function ExampleSize(nin: nat, nout: nat): nat { nin + nout + 1 }

  /** The handle the constructor gives to example i. */
  function Handle(nin: nat, nout: nat, i: nat): Example
  {
    var ins := ExampleSize(nin, nout) * i;
    Example(ins, ins + nin, ins + nin + nout)
  }

  /** The handle array as the constructor leaves it. */
  function Layout(nin: nat, nout: nat, ct: nat): (s: seq<Example>)
    ensures |s| == ct
    ensures forall i :: 0 <= i < ct ==> s[i] == Handle(nin, nout, i)
  {
    seq(ct, i requires 0 <= i => Handle(nin, nout, i))
  }

  /** Buffer position p is one of the slots (inputs, outputs, h) of handle e. */
  predicate Owns(e: Example, p: nat)
  {
    e.ins <= p <= e.h
  }

  /**
   * Every slot of example i lies in [w*i, w*(i+1)), inside the buffer of
   * w*ct values, with outputs right after inputs and h right after outputs.
   */
  lemma HandleInBuffer(nin: nat, nout: nat, ct: nat, i: nat)
    requires i < ct
    ensures var e := Handle(nin, nout, i);
      && e.outs == e.ins + nin && e.h == e.outs + nout
      && ExampleSize(nin, nout) * i == e.ins
      && e.h < ExampleSize(nin, nout) * (i + 1) <= ExampleSize(nin, nout) * ct
  {
    var w := ExampleSize(nin, nout);
    MulSucc(w, i);
    MulMonotone(w, i + 1, ct);
  }

  lemma MulSucc(w: nat, i: nat)
    ensures w * (i + 1) == w * i + w
  {
  }

  lemma MulMonotone(w: nat, a: nat, b: nat)
    requires a <= b
    ensures w * a <= w * b
  {
    assert w * b == w * a + w * (b - a);
  }

  /** Two different examples own no common buffer position. */
  lemma HandlesDisjoint(nin: nat, nout: nat, i: nat, j: nat, p: nat)
    requires i != j
    ensures !(Owns(Handle(nin, nout, i), p) && Owns(Handle(nin, nout, j), p))
  {
    var lo, hi := if i < j then i else j, if i < j then j else i;
    HandleInBuffer(nin, nout, hi + 1, lo);
    MulMonotone(ExampleSize(nin, nout), lo + 1, hi);
  }

  lemma {:induction false} MultiplicityOfDistinct<T>(s: seq<T>, v: T)
    requires forall a, b :: 0 <= a < b < |s| ==> s[a] != s[b]
    ensures multiset(s)[v] <= 1
  {
    if s != [] {
      var t := s[..|s| - 1];
      assert s == t + [s[|s| - 1]];
      MultiplicityOfDistinct(t, v);
      if v == s[|s| - 1] {
        assert v !in t;
      }
    }
  }

  /** A permutation of a duplicate-free sequence is duplicate-free. */
  lemma PermutationOfDistinct<T>(s: seq<T>, t: seq<T>, a: nat, b: nat)
    requires multiset(s) == multiset(t)
    requires forall i, j :: 0 <= i < j < |t| ==> t[i] != t[j]
    requires a < b < |s|
    ensures s[a] != s[b]
  {
    if s[a] == s[b] {
      assert s == s[..a] + [s[a]] + s[a + 1..b] + [s[b]] + s[b + 1..];
      assert multiset(s)[s[a]] >= 2;
      MultiplicityOfDistinct(t, s[a]);
      assert false;
    }
  }

  /** The constructor's handles are pairwise different. */
  lemma LayoutDistinct(nin: nat, nout: nat, ct: nat)
    ensures var l := Layout(nin, nout, ct);
      forall i, j :: 0 <= i < j < |l| ==> l[i] != l[j]
  {
    var l := Layout(nin, nout, ct);
    forall i, j | 0 <= i < j < |l| ensures l[i] != l[j] {
      HandlesDisjoint(nin, nout, i, j, l[i].ins);
    }
  }

  /** A handle array as constructors and shuffles keep it: a permutation of Layout. */
  ghost predicate ValidHandles(xs: seq<Example>, nin: nat, nout: nat, ct: nat)
  {
    |xs| == ct && multiset(xs) == multiset(Layout(nin, nout, ct))
  }

  /** Every handle of a valid handle array is one of the constructor's handles. */
  lemma HandleOf(xs: seq<Example>, nin: nat, nout: nat, ct: nat, k: nat) returns (i: nat)
    requires ValidHandles(xs, nin, nout, ct) && k < ct
    ensures i < ct && xs[k] == Handle(nin, nout, i)
  {
    assert xs[k] in multiset(Layout(nin, nout, ct));
    i :| i < ct && Layout(nin, nout, ct)[i] == xs[k];
  }

  /** The slots of handle k lie inside the buffer of ExampleSize*ct values. */
  lemma SlotsInBuffer(xs: seq<Example>, nin: nat, nout: nat, ct: nat, k: nat)
    requires ValidHandles(xs, nin, nout, ct) && k < ct
    ensures SlotIn(xs[k], nin, nout, ExampleSize(nin, nout) * ct)
  {
    var i := HandleOf(xs, nin, nout, ct, k);
    HandleInBuffer(nin, nout, ct, i);
  }

  /** Slot e has nin inputs, then nout outputs, then h, inside a buffer of the given size. */
  predicate SlotIn(e: Example, nin: nat, nout: nat, size: nat)
  {
    e.outs == e.ins + nin && e.h == e.outs + nout && e.h < size
  }

  /** Every handle's slot lies inside a buffer of the given size. */
  predicate SlotsFit(xs: seq<Example>, nin: nat, nout: nat, size: nat)
  {
    forall k :: 0 <= k < |xs| ==> SlotIn(xs[k], nin, nout, size)
  }

  lemma HandlesFit(xs: seq<Example>, nin: nat, nout: nat, ct: nat)
    requires ValidHandles(xs, nin, nout, ct)
    ensures SlotsFit(xs, nin, nout, ExampleSize(nin, nout) * ct)
  {
    forall k | 0 <= k < |xs|
      ensures SlotIn(xs[k], nin, nout, ExampleSize(nin, nout) * ct)
    {
      SlotsInBuffer(xs, nin, nout, ct, k);
    }
  }

  /** The contents of one example: what its slot in the buffer holds. */
  datatype Row = Row(inputs: seq<real>, outputs: seq<real>, h: real)

  function RowAt(d: seq<real>, e: Example, nin: nat, nout: nat): (r: Row)
    requires SlotIn(e, nin, nout, |d|)
    ensures |r.inputs| == nin && |r.outputs| == nout
  {
    Row(d[e.ins .. e.outs], d[e.outs .. e.h], d[e.h])
  }

  /**
   * A write of v at position p changes the row of slot e at that position
   * when e owns it, and not at all when it does not.
   */
  lemma WriteInSlot(d: seq<real>, p: nat, v: real, e: Example, nin: nat, nout: nat)
    requires SlotIn(e, nin, nout, |d|) && p < |d|
    ensures !Owns(e, p) ==> RowAt(d[p := v], e, nin, nout) == RowAt(d, e, nin, nout)
    ensures e.ins <= p < e.outs ==>
      RowAt(d[p := v], e, nin, nout) == RowAt(d, e, nin, nout).(inputs := RowAt(d, e, nin, nout).inputs[p - e.ins := v])
    ensures e.outs <= p < e.h ==>
      RowAt(d[p := v], e, nin, nout) == RowAt(d, e, nin, nout).(outputs := RowAt(d, e, nin, nout).outputs[p - e.outs := v])
    ensures p == e.h ==> RowAt(d[p := v], e, nin, nout) == RowAt(d, e, nin, nout).(h := v)
  {
    var d2 := d[p := v];
    if e.ins <= p < e.outs {
      assert d2[e.ins .. e.outs] == d[e.ins .. e.outs][p - e.ins := v];
    } else {
      assert d2[e.ins .. e.outs] == d[e.ins .. e.outs];
    }
    if e.outs <= p < e.h {
      assert d2[e.outs .. e.h] == d[e.outs .. e.h][p - e.outs := v];
    } else {
      assert d2[e.outs .. e.h] == d[e.outs .. e.h];
    }
  }

  /** A write to a position owned by example k leaves every other example's row as it was. */
  lemma WriteKeepsOthers(xs: seq<Example>, nin: nat, nout: nat, ct: nat, k: nat, p: nat, d: seq<real>, v: real)
    requires ValidHandles(xs, nin, nout, ct) && SlotsFit(xs, nin, nout, |d|) && k < ct && Owns(xs[k], p) && p < |d|
    ensures forall k2 :: 0 <= k2 < ct && k2 != k ==> RowAt(d[p := v], xs[k2], nin, nout) == RowAt(d, xs[k2], nin, nout)
  {
    forall k2 | 0 <= k2 < ct && k2 != k
      ensures RowAt(d[p := v], xs[k2], nin, nout) == RowAt(d, xs[k2], nin, nout)
    {
      SlotsDisjoint(xs, nin, nout, ct, k, k2, p);
      WriteInSlot(d, p, v, xs[k2], nin, nout);
    }
  }

  /** Different entries of a valid handle array own disjoint slots. */
  lemma SlotsDisjoint(xs: seq<Example>, nin: nat, nout: nat, ct: nat, k1: nat, k2: nat, p: nat)
    requires ValidHandles(xs, nin, nout, ct) && k1 < ct && k2 < ct && k1 != k2
    ensures !(Owns(xs[k1], p) && Owns(xs[k2], p))
  {
    var i1 := HandleOf(xs, nin, nout, ct, k1);
    var i2 := HandleOf(xs, nin, nout, ct, k2);
    LayoutDistinct(nin, nout, ct);
    if k1 < k2 {
      PermutationOfDistinct(xs, Layout(nin, nout, ct), k1, k2);
    } else {
      PermutationOfDistinct(xs, Layout(nin, nout, ct), k2, k1);
    }
    HandlesDisjoint(nin, nout, i1, i2, p);
  }

  /** The Fisher-Yates swap partner `lr % (i+1)`, which lies in [0, i]. */
  function SwapPartner(lr: nat, i: nat): (j: nat)
    ensures j <= i
  {
    lr % (i + 1)
  }

  function Swap<T>(s: seq<T>, i: nat, j: nat): (r: seq<T>)
    requires i < |s| && j < |s|
  {
    s[i := s[j]][j := s[i]]
  }

  /**
   * Steps i, i-1, ..., 1 of the Fisher-Yates loop of data.hpp:124-131 over a
   * sequence of length n: step i swaps positions i and rs[n-1-i] % (i+1), the
   * draws being taken from the random stream rs in order.
   */
  function ShuffleSteps<T>(s: seq<T>, rs: seq<nat>, i: int): seq<T>
    requires i < |s| <= |rs| + 1
    decreases i
  {
    if i < 1 then s
    else ShuffleSteps(Swap(s, i, SwapPartner(rs[|s| - 1 - i], i)), rs, i - 1)
  }

  /** The whole shuffle: from the last position down to position 1. */
  function FisherYates<T>(s: seq<T>, rs: seq<nat>): seq<T>
    requires |s| <= |rs| + 1
  {
    ShuffleSteps(s, rs, |s| - 1)
  }

  /** A swap keeps the length and the multiset of elements. */
  lemma SwapPermutes<T>(s: seq<T>, i: nat, j: nat)
    requires i < |s| && j < |s|
    ensures |Swap(s, i, j)| == |s| && multiset(Swap(s, i, j)) == multiset(s)
  {
    var u := s[i := s[j]];
    assert multiset(u) == multiset(s) - multiset{s[i]} + multiset{s[j]};
    assert multiset(u[j := s[i]]) == multiset(u) - multiset{u[j]} + multiset{s[i]};
  }

  lemma {:induction false} ShuffleStepsPermutes<T>(s: seq<T>, rs: seq<nat>, i: int)
    requires i < |s| <= |rs| + 1
    ensures |ShuffleSteps(s, rs, i)| == |s|
    ensures multiset(ShuffleSteps(s, rs, i)) == multiset(s)
    decreases i
  {
    if i >= 1 {
      var j := SwapPartner(rs[|s| - 1 - i], i);
      var t := Swap(s, i, j);
      SwapPermutes(s, i, j);
      ShuffleStepsPermutes(t, rs, i - 1);
    }
  }

  /** The shuffle is a permutation: no element is lost or duplicated. */
  lemma FisherYatesPermutes<T>(s: seq<T>, rs: seq<nat>)
    requires |s| <= |rs| + 1
    ensures |FisherYates(s, rs)| == |s|
    ensures multiset(FisherYates(s, rs)) == multiset(s)
  {
    ShuffleStepsPermutes(s, rs, |s| - 1);
  }

  /** With at most one element the loop body never runs and the order stays. */
  lemma FisherYatesShort<T>(s: seq<T>, rs: seq<nat>)
    requires |s| <= 1
    ensures FisherYates(s, rs) == s
  {
  }

  /** Fisher-Yates over an array in place (data.hpp:124-131, data.h:88-95). */
  method ShuffleHandles<T>(a: array<T>, rs: seq<nat>)
    requires a.Length <= |rs| + 1
    modifies a
    ensures a[..] == FisherYates(old(a[..]), rs)
    ensures multiset(a[..]) == multiset(old(a[..]))
  {
    var n := a.Length;
    var i := n - 1;
    while i >= 1
      invariant i < n
      invariant ShuffleSteps(a[..], rs, i) == FisherYates(old(a[..]), rs)
    {
      var j := SwapPartner(rs[n - 1 - i], i);
      ghost var before := a[..];
      a[i], a[j] := a[j], a[i];
      assert a[..] == Swap(before, i, j);
      i := i - 1;
    }
    FisherYatesPermutes(old(a[..]), rs);
  }

  /**
   * The predicate data.hpp:135 hands to `alternate`: `e->h < 0.5` compares
   * the handle's h OFFSET, not the stored modulator value.
   */
  predicate HOffsetBelowHalf(e: Example)
  {
    (e.h as real) < 0.5
  }

  /**
   * On constructor handles that predicate holds only for example 0 of a set
   * whose examples have no inputs and no outputs: it does not separate the
   * examples by modulator value.
   */
  lemma HOffsetPredicateOnHandles(nin: nat, nout: nat, i: nat)
    ensures HOffsetBelowHalf(Handle(nin, nout, i)) <==> (i == 0 && nin + nout == 0)
  {
    var w := ExampleSize(nin, nout);
    if i > 0 {
      assert w * i >= w * 1 by {
        assert w * i == w * 1 + w * (i - 1);
      }
    }
  }

  /** A set of examples (data.hpp:49-207). */
  class ExampleSet {
    var x: array<Example>
    var data: array<real>
    var ninputs: nat
    var noutputs: nat
    var ct: nat

    /** The handles are always a permutation of the constructor's handles. */
    ghost predicate Valid()
      reads this, x
    {
      && x.Length == ct
      && data.Length == ExampleSize(ninputs, noutputs) * ct
      && ValidHandles(x[..], ninputs, noutputs, ct)
    }

    /**
     * data.hpp:80-102. The data buffer's contents are left as allocated and
     * nothing is promised about them; the source does not initialise them.
     */
    constructor (n: nat, nin: nat, nout: nat)
      requires ExampleSize(nin, nout) * n < U32
      ensures Valid() && fresh(x) && fresh(data)
      ensures ct == n && ninputs == nin && noutputs == nout
      ensures x[..] == Layout(nin, nout, n)
    {
      ninputs, noutputs, ct := nin, nout, n;
      var size := ExampleSize(nin, nout);
      var handles := new Example[n];
      var i := 0;
      while i < n
        invariant 0 <= i <= n
        invariant forall k :: 0 <= k < i ==> handles[k] == Handle(nin, nout, k)
      {
        var ins := size * i;
        handles[i] := Example(ins, ins + nin, ins + nin + nout);
        i := i + 1;
      }
      assert handles[..] == Layout(nin, nout, n);
      data := new real[size * n];
      x := handles;
    }

    /** getInputCount (data.hpp:143-145): the length of every example's input row. */
    function GetInputCount(): (r: nat)
      reads this, x, data
      ensures Valid() ==> forall k :: 0 <= k < ct ==> |GetInputs(k)| == r
    {
      ninputs
    }

    /** getOutputCount (data.hpp:151-153): the length of every example's output row. */
    function GetOutputCount(): (r: nat)
      reads this, x, data
      ensures Valid() ==> forall k :: 0 <= k < ct ==> |GetOutputs(k)| == r
    {
      noutputs
    }

    /** getCount (data.hpp:159-161): the number of handles. */
    function GetCount(): (r: nat)
      reads this, x
      ensures Valid() ==> r == x.Length
    {
      ct
    }

    /** The inputs of example k (data.hpp:170-173); the source asserts k < ct. */
    function GetInputs(k: nat): (r: seq<real>)
      requires Valid() && k < ct
      reads this, x, data
      ensures |r| == ninputs
    {
      SlotsInBuffer(x[..], ninputs, noutputs, ct, k);
      RowAt(data[..], x[k], ninputs, noutputs).inputs
    }

    /** The outputs of example k (data.hpp:181-184). */
    function GetOutputs(k: nat): (r: seq<real>)
      requires Valid() && k < ct
      reads this, x, data
      ensures |r| == noutputs
    {
      SlotsInBuffer(x[..], ninputs, noutputs, ct, k);
      RowAt(data[..], x[k], ninputs, noutputs).outputs
    }

    /** The modulator of example k (data.hpp:191-194). */
    function GetH(k: nat): (r: real)
      requires Valid() && k < ct
      reads this, x, data
      ensures x[k].h == x[k].outs + noutputs < data.Length && r == data[x[k].h]
    {
      SlotsInBuffer(x[..], ninputs, noutputs, ct, k);
      RowAt(data[..], x[k], ninputs, noutputs).h
    }

    /**
     * data.hpp:202-205: afterwards example k's modulator is v, its inputs and
     * outputs are as before, and so is every other example.
     */
    method SetH(k: nat, v: real)
      requires Valid() && k < ct
      modifies data
      ensures Valid()
      ensures GetH(k) == v
      ensures GetInputs(k) == old(GetInputs(k)) && GetOutputs(k) == old(GetOutputs(k))
      ensures forall k2 :: 0 <= k2 < ct && k2 != k ==>
        GetInputs(k2) == old(GetInputs(k2)) && GetOutputs(k2) == old(GetOutputs(k2)) && GetH(k2) == old(GetH(k2))
    {
      SlotsInBuffer(x[..], ninputs, noutputs, ct, k);
      ghost var d := data[..];
      data[x[k].h] := v;
      assert data[..] == d[x[k].h := v];
      WriteInSlot(d, x[k].h, v, x[k], ninputs, noutputs);
      HandlesFit(x[..], ninputs, noutputs, ct);
      WriteKeepsOthers(x[..], ninputs, noutputs, ct, k, x[k].h, d, v);
    }

    /**
     * A write through the address GetInputs returns (data.hpp:166-173):
     * input j of example k becomes v, nothing else changes.
     */
    method SetInput(k: nat, j: nat, v: real)
      requires Valid() && k < ct && j < ninputs
      modifies data
      ensures Valid()
      ensures GetInputs(k) == old(GetInputs(k))[j := v]
      ensures GetOutputs(k) == old(GetOutputs(k)) && GetH(k) == old(GetH(k))
      ensures forall k2 :: 0 <= k2 < ct && k2 != k ==>
        GetInputs(k2) == old(GetInputs(k2)) && GetOutputs(k2) == old(GetOutputs(k2)) && GetH(k2) == old(GetH(k2))
    {
      SlotsInBuffer(x[..], ninputs, noutputs, ct, k);
      ghost var d := data[..];
      data[x[k].ins + j] := v;
      assert data[..] == d[x[k].ins + j := v];
      WriteInSlot(d, x[k].ins + j, v, x[k], ninputs, noutputs);
      HandlesFit(x[..], ninputs, noutputs, ct);
      WriteKeepsOthers(x[..], ninputs, noutputs, ct, k, x[k].ins + j, d, v);
    }

    /** A write through the address GetOutputs returns (data.hpp:177-184). */
    method SetOutput(k: nat, j: nat, v: real)
      requires Valid() && k < ct && j < noutputs
      modifies data
      ensures Valid()
      ensures GetOutputs(k) == old(GetOutputs(k))[j := v]
      ensures GetInputs(k) == old(GetInputs(k)) && GetH(k) == old(GetH(k))
      ensures forall k2 :: 0 <= k2 < ct && k2 != k ==>
        GetInputs(k2) == old(GetInputs(k2)) && GetOutputs(k2) == old(GetOutputs(k2)) && GetH(k2) == old(GetH(k2))
    {
      SlotsInBuffer(x[..], ninputs, noutputs, ct, k);
      ghost var d := data[..];
      data[x[k].outs + j] := v;
      assert data[..] == d[x[k].outs + j := v];
      WriteInSlot(d, x[k].outs + j, v, x[k], ninputs, noutputs);
      HandlesFit(x[..], ninputs, noutputs, ct);
      WriteKeepsOthers(x[..], ninputs, noutputs, ct, k, x[k].outs + j, d, v);
    }

    /**
     * data.hpp:122-137: a Fisher-Yates shuffle of the handles driven by the
     * lrand48 stream rs, then, if asked, `alternate` with the offset test of
     * HOffsetBelowHalf. The data buffer is never written.
     */
    method Shuffle(rs: seq<nat>, preserveHAlternation: bool)
      requires Valid() && ct <= |rs| + 1
      modifies x
      ensures Valid()
      ensures data[..] == old(data[..])
      ensures !preserveHAlternation ==> x[..] == FisherYates(old(x[..]), rs)
      ensures preserveHAlternation ==>
        Alternated(FisherYates(old(x[..]), rs), x[..], HOffsetBelowHalf)
    {
      ShuffleHandles(x, rs);
      if preserveHAlternation {
        Alternate(x, HOffsetBelowHalf);
      }
    }
  }
}
