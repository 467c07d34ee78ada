/**
 * The older snapshot of the example set, data.h: the same flat buffer and
 * offset handles as data.hpp, with a shuffle that has no alternation pass.
 */
module DataLegacy {
  import opened Data

  /** A set of examples (data.h:18-159). */
  class ExampleSet {
    var x: array<Example>
    var data: array<real>
    var ninputs: nat
    var noutputs: nat
    var ct: nat

    ghost predicate Valid()
      reads this, x
    {
      && x.Length == ct
      && data.Length == ExampleSize(ninputs, noutputs) * ct
      && ValidHandles(x[..], ninputs, noutputs, ct)
    }

    /**
     * data.h:48-70: example i gets inputs at (nin+nout+1)*i, outputs right
     * after them and h right after the outputs. The data buffer is left as
     * allocated.
     */
    constructor (n: nat, nin: nat, nout: nat)
      requires ExampleSize(nin, nout) * n < U32
      ensures Valid() && fresh(x) && fresh(data)
      ensures GetCount() == n && GetInputCount() == nin && GetOutputCount() == nout
      ensures forall i :: 0 <= i < n ==>
        x[i].ins == ExampleSize(nin, nout) * i && x[i].outs == x[i].ins + nin && x[i].h == x[i].outs + nout
    {
      ninputs, noutputs, ct := nin, nout, n;
      var size := ExampleSize(nin, nout);
      var handles := new Example[n];
      var i := 0;
      while i < n
        invariant 0 <= i <= n
        invariant forall k :: 0 <= k < i ==> handles[k] == Handle(nin, nout, k)
      {
        var ins := size * i;
        handles[i] := Example(ins, ins + nin, ins + nin + nout);
        i := i + 1;
      }
      assert handles[..] == Layout(nin, nout, n);
      data := new real[size * n];
      x := handles;
    }

    /** getInputCount (data.h:101-103): the length of every example's input row. */
    function GetInputCount(): (r: nat)
      reads this, x, data
      ensures Valid() ==> forall k :: 0 <= k < ct ==> |GetInputs(k)| == r
    {
      ninputs
    }

    /** getOutputCount (data.h:108-110): the length of every example's output row. */
    function GetOutputCount(): (r: nat)
      reads this, x, data
      ensures Valid() ==> forall k :: 0 <= k < ct ==> |GetOutputs(k)| == r
    {
      noutputs
    }

    /** getCount (data.h:115-117): the number of handles. */
    function GetCount(): (r: nat)
      reads this, x
      ensures Valid() ==> r == x.Length
    {
      ct
    }

    /** data.h:125-128; the source asserts k < ct. */
    function GetInputs(k: nat): (r: seq<real>)
      requires Valid() && k < ct
      reads this, x, data
      ensures |r| == ninputs
    {
      SlotsInBuffer(x[..], ninputs, noutputs, ct, k);
      RowAt(data[..], x[k], ninputs, noutputs).inputs
    }

    /** data.h:135-138. */
    function GetOutputs(k: nat): (r: seq<real>)
      requires Valid() && k < ct
      reads this, x, data
      ensures |r| == noutputs
    {
      SlotsInBuffer(x[..], ninputs, noutputs, ct, k);
      RowAt(data[..], x[k], ninputs, noutputs).outputs
    }

    /** data.h:144-147. */
    function GetH(k: nat): (r: real)
      requires Valid() && k < ct
      reads this, x, data
      ensures x[k].h == x[k].outs + noutputs < data.Length && r == data[x[k].h]
    {
      SlotsInBuffer(x[..], ninputs, noutputs, ct, k);
      RowAt(data[..], x[k], ninputs, noutputs).h
    }

    /** The inputs of examples start..start+n-1, in order. */
    function InputRows(start: nat, n: nat): (r: seq<seq<real>>)
      requires Valid() && start + n <= ct
      reads this, x, data
      ensures |r| == n && forall e :: 0 <= e < n ==> r[e] == GetInputs(start + e)
    {
      if n == 0 then [] else InputRows(start, n - 1) + [GetInputs(start + n - 1)]
    }

    /** The outputs of examples start..start+n-1, in order. */
    function OutputRows(start: nat, n: nat): (r: seq<seq<real>>)
      requires Valid() && start + n <= ct
      reads this, x, data
      ensures |r| == n && forall e :: 0 <= e < n ==> r[e] == GetOutputs(start + e)
    {
      if n == 0 then [] else OutputRows(start, n - 1) + [GetOutputs(start + n - 1)]
    }

    /** Every example's inputs, outputs and modulator, in index order. */
    ghost function Rows(): (r: seq<Row>)
      requires Valid()
      reads this, x, data
      ensures |r| == ct
      ensures forall k :: 0 <= k < ct ==> r[k] == Row(GetInputs(k), GetOutputs(k), GetH(k))
    {
      seq(ct, k requires 0 <= k < ct && Valid() reads this, x, data => Row(GetInputs(k), GetOutputs(k), GetH(k)))
    }

    /**
     * A write through the address getInputs returns (data.h:125-128):
     * input j of example k becomes v and no other value of any example changes.
     */
    method SetInput(k: nat, j: nat, v: real)
      requires Valid() && k < ct && j < ninputs
      modifies data
      ensures Valid()
      ensures Rows() == old(Rows())[k := old(Rows())[k].(inputs := old(GetInputs(k))[j := v])]
    {
      SlotsInBuffer(x[..], ninputs, noutputs, ct, k);
      ghost var d := data[..];
      ghost var before := Rows();
      data[x[k].ins + j] := v;
      assert data[..] == d[x[k].ins + j := v];
      WriteInSlot(d, x[k].ins + j, v, x[k], ninputs, noutputs);
      HandlesFit(x[..], ninputs, noutputs, ct);
      WriteKeepsOthers(x[..], ninputs, noutputs, ct, k, x[k].ins + j, d, v);
      assert forall k2 :: 0 <= k2 < ct ==> Rows()[k2] == before[k := before[k].(inputs := before[k].inputs[j := v])][k2];
    }

    /** A write through the address getOutputs returns (data.h:135-138). */
    method SetOutput(k: nat, j: nat, v: real)
      requires Valid() && k < ct && j < noutputs
      modifies data
      ensures Valid()
      ensures Rows() == old(Rows())[k := old(Rows())[k].(outputs := old(GetOutputs(k))[j := v])]
    {
      SlotsInBuffer(x[..], ninputs, noutputs, ct, k);
      ghost var d := data[..];
      ghost var before := Rows();
      data[x[k].outs + j] := v;
      assert data[..] == d[x[k].outs + j := v];
      WriteInSlot(d, x[k].outs + j, v, x[k], ninputs, noutputs);
      HandlesFit(x[..], ninputs, noutputs, ct);
      WriteKeepsOthers(x[..], ninputs, noutputs, ct, k, x[k].outs + j, d, v);
      assert forall k2 :: 0 <= k2 < ct ==> Rows()[k2] == before[k := before[k].(outputs := before[k].outputs[j := v])][k2];
    }

    /** data.h:154-157: only example k's modulator changes. */
    method SetH(k: nat, v: real)
      requires Valid() && k < ct
      modifies data
      ensures Valid()
      ensures GetH(k) == v
      ensures GetInputs(k) == old(GetInputs(k)) && GetOutputs(k) == old(GetOutputs(k))
      ensures forall k2 :: 0 <= k2 < ct && k2 != k ==>
        GetInputs(k2) == old(GetInputs(k2)) && GetOutputs(k2) == old(GetOutputs(k2)) && GetH(k2) == old(GetH(k2))
      ensures Rows() == old(Rows())[k := old(Rows())[k].(h := v)]
    {
      SlotsInBuffer(x[..], ninputs, noutputs, ct, k);
      ghost var d := data[..];
      ghost var before := Rows();
      data[x[k].h] := v;
      assert data[..] == d[x[k].h := v];
      WriteInSlot(d, x[k].h, v, x[k], ninputs, noutputs);
      HandlesFit(x[..], ninputs, noutputs, ct);
      WriteKeepsOthers(x[..], ninputs, noutputs, ct, k, x[k].h, d, v);
      assert forall k2 :: 0 <= k2 < ct ==> Rows()[k2] == before[k := before[k].(h := v)][k2];
    }

    /**
     * data.h:86-96: Fisher-Yates over the handles with the lrand48 stream rs;
     * the data buffer is not touched, and with ct <= 1 nothing moves.
     */
    method Shuffle(rs: seq<nat>)
      requires Valid() && ct <= |rs| + 1
      modifies x
      ensures Valid()
      ensures data[..] == old(data[..])
      ensures x[..] == FisherYates(old(x[..]), rs)
      ensures ct <= 1 ==> x[..] == old(x[..])
    {
      ShuffleHandles(x, rs);
    }
  }
}
