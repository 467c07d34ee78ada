/**
 * The test helpers of test.hpp: the index of the largest output, and the
 * sixteen-example boolean set whose even examples are one function at h=0
 * and odd examples another at h=1, repeated in a second half.
 */
module TestFixtures {
  import opened Data
  import DataLegacy

  /**
   * getHighest (test.hpp:22-32): the first index holding the strictly
   * largest value, counting only values above -10; 0 when there is none.
   */
  method GetHighest(o: seq<real>) returns (h: nat)
    ensures |o| > 0 ==> h < |o|
    ensures (forall i :: 0 <= i < |o| ==> o[i] <= -10.0) ==> h == 0
    ensures (exists i :: 0 <= i < |o| && o[i] > -10.0) ==>
      o[h] > -10.0 && (forall i :: 0 <= i < |o| ==> o[i] <= o[h]) && (forall i :: 0 <= i < h ==> o[i] < o[h])
  {
    h := 0;
    var maxval := -10.0;
    for i := 0 to |o|
      invariant maxval >= -10.0
      invariant h == 0 || h < i
      invariant forall k :: 0 <= k < i ==> o[k] <= maxval
      invariant maxval == -10.0 ==> h == 0
      invariant maxval > -10.0 ==> h < i && o[h] == maxval && forall k :: 0 <= k < h ==> o[k] < maxval
    {
      if o[i] > maxval {
        maxval := o[i];
        h := i;
      }
    }
  }

  /**
   * Example k of the boolean set: the block of four it is in gives its
   * inputs (0,0), (0,1), (1,0), (1,1) in turn, and outs, indexed the same
   * way, its output; even examples have h=0 and odd ones h=1.
   */
  function FixtureRow(k: nat, outs: seq<real>): (r: Row)
    requires |outs| == 4
    ensures |r.inputs| == 2 && |r.outputs| == 1
  {
    var j := k / 2 % 4;
    Row([(j / 2) as real, (j % 2) as real], [outs[j]], (k % 2) as real)
  }

  /** The second eight examples are the first eight again (test.hpp:35-39). */
  lemma {:induction false} SecondHalfRepeatsFirst(outs0: seq<real>, outs1: seq<real>, k: nat)
    requires |outs0| == 4 && |outs1| == 4 && k < 8
    ensures FixtureRow(k, if k % 2 == 0 then outs0 else outs1) == FixtureRow(k + 8, if (k + 8) % 2 == 0 then outs0 else outs1)
  {
    assert (k + 8) / 2 % 4 == k / 2 % 4;
  }

  /**
   * The first n examples of parity p in rows are the boolean set's for outs,
   * and every other example is as in orig.
   */
  ghost predicate AddedUpTo(rows: seq<Row>, orig: seq<Row>, outs: seq<real>, p: nat, n: nat)
    requires |outs| == 4
  {
    && |rows| == |orig| == 16
    && forall k :: 0 <= k < 16 ==> rows[k] == if k % 2 == p && k / 2 < n then FixtureRow(k, outs) else orig[k]
  }

  /** One setExample call of add0 or add1 writes the next example of its parity. */
  lemma AddedStep(before: seq<Row>, after: seq<Row>, orig: seq<Row>, outs: seq<real>, p: nat, j: nat,
                  h: real, in0: real, in1: real, out: real)
    requires |outs| == 4 && p < 2 && j < 8 && AddedUpTo(before, orig, outs, p, j)
    requires h == p as real && in0 == (j % 4 / 2) as real && in1 == (j % 2) as real && out == outs[j % 4]
    requires after == before[2 * j + p := Row([in0, in1], [out], h)]
    ensures AddedUpTo(after, orig, outs, p, j + 1)
  {
    assert after[2 * j + p] == FixtureRow(2 * j + p, outs);
  }

  /** The boolean example set of test.hpp:41-96. */
  class BooleanExampleSet {
    const examples: DataLegacy.ExampleSet

    ghost predicate Valid()
      reads this, examples, examples.x
    {
      examples.Valid() && examples.ct == 16 && examples.ninputs == 2 && examples.noutputs == 1
    }

    /** test.hpp:60: 16 examples of 2 inputs and 1 output. */
    constructor ()
      ensures Valid() && fresh(examples) && fresh(examples.data)
    {
      examples := new DataLegacy.ExampleSet(16, 2, 1);
    }

    /** setExample (test.hpp:51-57): example i becomes (in0, in1) -> out at h; nothing else changes. */
    method SetExample(i: nat, h: real, in0: real, in1: real, out: real)
      requires Valid() && i < 16
      modifies examples.data
      ensures Valid()
      ensures examples.Rows() == old(examples.Rows())[i := Row([in0, in1], [out], h)]
    {
      examples.SetInput(i, 0, in0);
      examples.SetInput(i, 1, in1);
      examples.SetOutput(i, 0, out);
      examples.SetH(i, h);
      assert old(examples.GetInputs(i))[0 := in0][1 := in1] == [in0, in1];
      assert old(examples.GetOutputs(i))[0 := out] == [out];
    }

    /**
     * add0 (test.hpp:69-78): the even examples become the h=0 function
     * with outputs o00, o01, o10, o11, in both halves; the odd ones stay.
     */
    method Add0(o00: real, o01: real, o10: real, o11: real)
      requires Valid()
      modifies examples.data
      ensures Valid()
      ensures forall k :: 0 <= k < 16 ==>
        examples.Rows()[k] == if k % 2 == 0 then FixtureRow(k, [o00, o01, o10, o11]) else old(examples.Rows())[k]
    {
      ghost var outs := [o00, o01, o10, o11];
      ghost var orig := examples.Rows();
      ghost var r := orig;
      SetExample(0, 0.0, 0.0, 0.0, o00);
      AddedStep(r, examples.Rows(), orig, outs, 0, 0, 0.0, 0.0, 0.0, o00);
      r := examples.Rows();
      SetExample(2, 0.0, 0.0, 1.0, o01);
      AddedStep(r, examples.Rows(), orig, outs, 0, 1, 0.0, 0.0, 1.0, o01);
      r := examples.Rows();
      SetExample(4, 0.0, 1.0, 0.0, o10);
      AddedStep(r, examples.Rows(), orig, outs, 0, 2, 0.0, 1.0, 0.0, o10);
      r := examples.Rows();
      SetExample(6, 0.0, 1.0, 1.0, o11);
      AddedStep(r, examples.Rows(), orig, outs, 0, 3, 0.0, 1.0, 1.0, o11);
      r := examples.Rows();
      SetExample(8, 0.0, 0.0, 0.0, o00);
      AddedStep(r, examples.Rows(), orig, outs, 0, 4, 0.0, 0.0, 0.0, o00);
      r := examples.Rows();
      SetExample(10, 0.0, 0.0, 1.0, o01);
      AddedStep(r, examples.Rows(), orig, outs, 0, 5, 0.0, 0.0, 1.0, o01);
      r := examples.Rows();
      SetExample(12, 0.0, 1.0, 0.0, o10);
      AddedStep(r, examples.Rows(), orig, outs, 0, 6, 0.0, 1.0, 0.0, o10);
      r := examples.Rows();
      SetExample(14, 0.0, 1.0, 1.0, o11);
      AddedStep(r, examples.Rows(), orig, outs, 0, 7, 0.0, 1.0, 1.0, o11);
    }

    /** add1 (test.hpp:86-95): the odd examples become the h=1 function; the even ones stay. */
    method Add1(o00: real, o01: real, o10: real, o11: real)
      requires Valid()
      modifies examples.data
      ensures Valid()
      ensures forall k :: 0 <= k < 16 ==>
        examples.Rows()[k] == if k % 2 == 1 then FixtureRow(k, [o00, o01, o10, o11]) else old(examples.Rows())[k]
    {
      ghost var outs := [o00, o01, o10, o11];
      ghost var orig := examples.Rows();
      ghost var r := orig;
      SetExample(1, 1.0, 0.0, 0.0, o00);
      AddedStep(r, examples.Rows(), orig, outs, 1, 0, 1.0, 0.0, 0.0, o00);
      r := examples.Rows();
      SetExample(3, 1.0, 0.0, 1.0, o01);
      AddedStep(r, examples.Rows(), orig, outs, 1, 1, 1.0, 0.0, 1.0, o01);
      r := examples.Rows();
      SetExample(5, 1.0, 1.0, 0.0, o10);
      AddedStep(r, examples.Rows(), orig, outs, 1, 2, 1.0, 1.0, 0.0, o10);
      r := examples.Rows();
      SetExample(7, 1.0, 1.0, 1.0, o11);
      AddedStep(r, examples.Rows(), orig, outs, 1, 3, 1.0, 1.0, 1.0, o11);
      r := examples.Rows();
      SetExample(9, 1.0, 0.0, 0.0, o00);
      AddedStep(r, examples.Rows(), orig, outs, 1, 4, 1.0, 0.0, 0.0, o00);
      r := examples.Rows();
      SetExample(11, 1.0, 0.0, 1.0, o01);
      AddedStep(r, examples.Rows(), orig, outs, 1, 5, 1.0, 0.0, 1.0, o01);
      r := examples.Rows();
      SetExample(13, 1.0, 1.0, 0.0, o10);
      AddedStep(r, examples.Rows(), orig, outs, 1, 6, 1.0, 1.0, 0.0, o10);
      r := examples.Rows();
      SetExample(15, 1.0, 1.0, 1.0, o11);
      AddedStep(r, examples.Rows(), orig, outs, 1, 7, 1.0, 1.0, 1.0, o11);
    }
  }
}
