/**
 * The h-as-input network of hinet.hpp: a plain network with one input more
 * than requested, whose last input node is fed the modulator h instead of
 * a value from the caller.
 */
module HInput {
  import opened Backprop
  import DataLegacy

  /** The layer sizes the underlying network is built with (hinet.hpp:37-43). */
  function Widened(counts: seq<nat>): (r: seq<nat>)
    requires |counts| >= 1
    ensures |r| == |counts| && r[0] == counts[0] + 1
    ensures forall i :: 1 <= i < |counts| ==> r[i] == counts[i]
  {
    counts[0 := counts[0] + 1]
  }

  /** getLayerSize as written (hinet.hpp:52-57): every layer but the input one reports the input layer's size. */
  function VisibleSizeAsWritten(sizes: seq<nat>, n: nat): int
    requires 1 <= |sizes| && n < |sizes|
  {
    var ct: int := sizes[0];
    if n == 0 then ct - 1 else ct
  }

  /** getLayerSize as intended: the hidden input is subtracted, the other layers are reported as they are. */
  function VisibleSize(sizes: seq<nat>, n: nat): int
    requires 1 <= |sizes| && n < |sizes|
  {
    if n == 0 then sizes[0] as int - 1 else sizes[n]
  }

  /** The intended getLayerSize gives back every requested layer size. */
  lemma VisibleSizeRecovers(counts: seq<nat>, n: nat)
    requires 1 <= |counts| && n < |counts|
    ensures VisibleSize(Widened(counts), n) == counts[n]
  {
  }

  /** As written, a 2-3-1 network reports 3 output nodes: the size of its widened input layer. */
  lemma VisibleSizeAsWrittenWrong()
    ensures VisibleSizeAsWritten(Widened([2, 3, 1]), 2) == 3 != [2, 3, 1][2]
  {
  }

  /** For requested sizes (a, b, c) the inherited data size counts the hidden input's biases and weights. */
  lemma {:induction false} WidenedDataSize(a: nat, b: nat, c: nat)
    ensures DataSize(Widened([a, b, c])) == (a + 1) + b * (a + 2) + c * (b + 1)
  {
    assert Widened([a, b, c]) == [a + 1, b, c];
    DataSizeThreeLayers(a + 1, b, c);
  }

  /**
   * The rows the underlying network is trained on for examples
   * start..start+num-1: the first nins inputs of each example with its h
   * appended, which is what setH followed by setInputs puts in the input
   * layer (bpnet.hpp:343-346, 294-296; hinet.hpp:67-76).
   */
  function ModulatedRows(ex: DataLegacy.ExampleSet, start: nat, num: nat, nins: nat): (r: seq<seq<real>>)
    requires ex.Valid() && start + num <= ex.ct && nins <= ex.ninputs
    reads ex, ex.x, ex.data
    ensures |r| == num
    ensures forall e :: 0 <= e < num ==> |r[e]| == nins + 1 && r[e][nins] == ex.GetH(start + e)
    ensures forall e :: 0 <= e < num ==> r[e][..nins] == ex.GetInputs(start + e)[..nins]
  {
    if num == 0 then []
    else ModulatedRows(ex, start, num - 1, nins) + [ex.GetInputs(start + num - 1)[..nins] + [ex.GetH(start + num - 1)]]
  }

  /**
   * The input loop of setInputs (hinet.hpp:70-75) on the underlying network:
   * nins values from d, then h in the last input node.
   */
  method FeedInputs(net: BPNet, d: seq<real>, nins: nat, h: real)
    requires net.Valid() && net.numLayers >= 1 && net.layerSizes[0] == nins + 1 && |d| >= nins
    modifies net
    ensures net.Valid()
    ensures net.outputs == old(net.outputs)[0 := d[..nins] + [h]]
    ensures net.Parameters() == old(net.Parameters()) && net.Gradients() == old(net.Gradients())
    ensures net.errors == old(net.errors) && net.drawn == old(net.drawn)
  {
    ghost var o := net.outputs;
    assert [] + o[0][0..] == o[0];
    assert o[0 := o[0]] == o;
    for i := 0 to nins
      invariant net.Valid()
      invariant net.outputs == o[0 := d[..i] + o[0][i..]]
      invariant net.Parameters() == old(net.Parameters()) && net.Gradients() == old(net.Gradients())
      invariant net.errors == old(net.errors) && net.drawn == old(net.drawn)
    {
      net.SetInput(i, d[i]);
      assert (d[..i] + o[0][i..])[i := d[i]] == d[..i + 1] + o[0][i + 1..];
    }
    net.SetInput(nins, h);
    assert (d[..nins] + o[0][nins..])[nins := h] == d[..nins] + [h];
  }

  /** The underlying network trained on the batch's modulated rows (bpnet.hpp:333-387). */
  method TrainModulated(net: BPNet, ex: DataLegacy.ExampleSet, start: nat, num: nat, nins: nat, rate: real) returns (r: real)
    requires net.Valid() && net.numLayers >= 1 && net.layerSizes[0] == nins + 1
    requires ex.Valid() && num >= 1 && start + num <= ex.ct
    requires ex.ninputs >= nins && ex.noutputs >= net.layerSizes[net.numLayers - 1]
    modifies net
    ensures net.Valid() && net.drawn == old(net.drawn)
    ensures BatchTrained(net.layerSizes, net.largestLayerSize, net.sigmoid, old(net.Parameters()),
                         old(ModulatedRows(ex, start, num, nins)), old(ex.OutputRows(start, num)),
                         rate, net.Gradients(), net.Parameters(), net.outputs, r)
  {
    var xs, ys := ModulatedRows(ex, start, num, nins), ex.OutputRows(start, num);
    r := net.TrainRows(xs, ys, rate);
  }

  class HInputNet {
    /** The underlying plain network, one input wider than requested. */
    const net: BPNet
    /** The layer sizes the caller asked for. */
    ghost const requested: seq<nat>
    var modulator: real

    ghost predicate Valid()
      reads this, net
    {
      net.Valid() && net.numLayers >= 1 && |requested| >= 1 && net.layerSizes == Widened(requested)
    }

    /** hinet.hpp:32-44; the modulator is left unset, as in the source. */
    constructor (counts: seq<nat>, rate: real, stream: nat -> real, activation: real -> real)
      requires |counts| >= 1
      ensures Valid() && fresh(net)
      ensures requested == counts && net.layerSizes == Widened(counts)
      ensures net.eta == rate && net.draws == stream && net.drawn == 0 && net.sigmoid == activation
      ensures forall i :: 0 <= i < |counts| ==> net.outputs[i] == Zeros(Widened(counts)[i])
    {
      requested := counts;
      net := new BPNet(counts[0 := counts[0] + 1], rate, stream, activation);
    }

    /** hinet.hpp:52-57, corrected: each layer's size as requested. */
    function GetLayerSize(n: nat): (r: int)
      requires Valid() && n < net.numLayers
      reads this, net
      ensures r == requested[n]
    {
      VisibleSizeRecovers(requested, n);
      VisibleSize(net.layerSizes, n)
    }

    /** hinet.hpp:59-61. */
    method SetH(h: real)
      modifies this
      ensures modulator == h
    {
      modulator := h;
    }

    /** getH (hinet.hpp:63-65): the modulator the last setH stored. */
    function GetH(): (r: real)
      reads this
      ensures r == modulator
    {
      modulator
    }

    /**
     * setInputs (hinet.hpp:67-76): the caller's first values fill every
     * input but the last, which takes the modulator; nothing else changes.
     */
    method SetInputs(d: seq<real>)
      requires Valid() && |d| >= requested[0]
      modifies net
      ensures Valid()
      ensures net.outputs == old(net.outputs)[0 := d[..requested[0]] + [modulator]]
      ensures net.Parameters() == old(net.Parameters()) && net.Gradients() == old(net.Gradients())
      ensures net.errors == old(net.errors) && net.drawn == old(net.drawn)
    {
      var nins := net.GetLayerSize(0) - 1;
      FeedInputs(net, d, nins, modulator);
    }

    /** run (net.hpp:73-77) through this network's setInputs. */
    method Run(input: seq<real>) returns (r: seq<real>)
      requires Valid() && |input| >= requested[0]
      modifies net
      ensures Valid()
      ensures net.outputs == Forward(net.layerSizes, net.largestLayerSize, net.sigmoid, net.Parameters(),
                                     old(net.outputs)[0 := input[..requested[0]] + [modulator]], net.numLayers)
      ensures r == net.outputs[net.numLayers - 1]
      ensures net.Parameters() == old(net.Parameters()) && net.Gradients() == old(net.Gradients())
      ensures net.errors == old(net.errors) && net.drawn == old(net.drawn)
    {
      SetInputs(input);
      net.Update();
      r := net.GetOutputs();
    }

    /**
     * The inherited trainBatch (bpnet.hpp:333-387) with this network's setH
     * and setInputs: each example is run with h as its last input, and the
     * modulator is left at the batch's last h.
     */
    method TrainBatch(ex: DataLegacy.ExampleSet, start: nat, num: nat, rate: real) returns (r: real)
      requires Valid() && ex.Valid() && num >= 1 && start + num <= ex.ct
      requires ex.ninputs >= requested[0] && ex.noutputs >= net.layerSizes[net.numLayers - 1]
      modifies this, net
      ensures Valid() && net.drawn == old(net.drawn)
      ensures modulator == old(ex.GetH(start + num - 1))
      ensures BatchTrained(net.layerSizes, net.largestLayerSize, net.sigmoid, old(net.Parameters()),
                           old(ModulatedRows(ex, start, num, requested[0])), old(ex.OutputRows(start, num)),
                           rate, net.Gradients(), net.Parameters(), net.outputs, r)
    {
      var nins := net.GetLayerSize(0) - 1;
      var h := ex.GetH(start + num - 1);
      r := TrainModulated(net, ex, start, num, nins, rate);
      modulator := h;
    }
  }
}
