/**
 * The output-blending network of obnet.hpp: two plain networks of the same
 * shape, net0 trained on h=0 examples and net1 on h=1 examples, whose
 * outputs are blended by the modulator h; their parameters are saved one
 * block after the other.
 */
module OutputBlending {
  import opened Backprop
  import DataLegacy

  /** The blend of update (obnet.hpp:108-114): h*o1 + (1-h)*o0, output by output. */
  function Blend(h: real, o0: seq<real>, o1: seq<real>): (r: seq<real>)
    requires |o0| == |o1|
    ensures |r| == |o0|
    ensures forall i :: 0 <= i < |o0| && o0[i] == o1[i] ==> r[i] == o0[i]
  {
    seq(|o0|, i requires 0 <= i < |o0| => h * o1[i] + (1.0 - h) * o0[i])
  }

  /** At h=0 the blend is net0's output and at h=1 net1's. */
  lemma BlendEndpoints(o0: seq<real>, o1: seq<real>)
    requires |o0| == |o1|
    ensures Blend(0.0, o0, o1) == o0 && Blend(1.0, o0, o1) == o1
  {
    assert forall i :: 0 <= i < |o0| ==> Blend(0.0, o0, o1)[i] == o0[i];
    assert forall i :: 0 <= i < |o0| ==> Blend(1.0, o0, o1)[i] == o1[i];
  }

  /** For h in [0,1] every blended output lies between the two networks' outputs. */
  lemma BlendBetween(h: real, o0: seq<real>, o1: seq<real>, i: nat)
    requires |o0| == |o1| && i < |o0| && 0.0 <= h <= 1.0
    ensures var v := Blend(h, o0, o1)[i];
      (o0[i] <= o1[i] ==> o0[i] <= v <= o1[i]) && (o1[i] <= o0[i] ==> o1[i] <= v <= o0[i])
  {
    var v := Blend(h, o0, o1)[i];
    assert v - o0[i] == h * (o1[i] - o0[i]);
    assert o1[i] - v == (1.0 - h) * (o1[i] - o0[i]);
    if o0[i] <= o1[i] {
      Net.MulNonneg(h, o1[i] - o0[i]);
      Net.MulNonneg(1.0 - h, o1[i] - o0[i]);
    } else {
      Net.MulNonneg(h, o0[i] - o1[i]);
      Net.MulNonneg(1.0 - h, o0[i] - o1[i]);
    }
  }

  /** What one training call returns and the new value of lastError. */
  datatype Smoothed = Smoothed(rv: real, last: real)

  /**
   * The error smoothing of trainBatch (obnet.hpp:131-146), from the stored
   * value last and the error e of the example just trained, hzero telling
   * whether that example had h < 0.5.
   */
  function Smooth(last: real, e: real, hzero: bool): (r: Smoothed)
    ensures r.rv == r.last
    ensures last < 0.0 ==> r.rv == e
    ensures last >= 0.0 && hzero ==> r.rv == last
  {
    if last < 0.0 then Smoothed(e, e)
    else if hzero then Smoothed(last, last)
    else Smoothed((e + last) * 0.5, (e + last) * 0.5)
  }

  /**
   * With non-negative errors the stored value is non-negative after the
   * first call, so only the very first call takes the first branch, and the
   * returned value is always non-negative.
   */
  lemma SmoothStaysSet(last: real, e: real, hzero: bool)
    requires e >= 0.0
    ensures Smooth(last, e, hzero).last >= 0.0 && Smooth(last, e, hzero).rv >= 0.0
    ensures last >= 0.0 ==> Smooth(last, e, hzero).last >= 0.0
  {
  }

  /**
   * Once a value is stored, an h=0 call changes nothing and returns the
   * stored value, whatever its own error was; an h=1 call returns and stores
   * the mean of its error and the stored value.
   */
  lemma SmoothAfterFirst(last: real, e: real)
    requires last >= 0.0
    ensures Smooth(last, e, true) == Smoothed(last, last)
    ensures Smooth(last, e, false).rv == Smooth(last, e, false).last
    ensures 2.0 * Smooth(last, e, false).rv == e + last
  {
  }

  /**
   * Over an h=0/h=1 pair of calls after the first, the h=0 error e0 does not
   * enter the result: the pair returns the stored value and then the mean of
   * the h=1 error and the stored value.
   */
  lemma {:induction false} SmoothPairIgnoresHZeroError(last: real, e0: real, e0': real, e1: real)
    requires last >= 0.0
    ensures var a := Smooth(last, e0, true); var a' := Smooth(last, e0', true);
      a == a' && Smooth(a.last, e1, false) == Smooth(a'.last, e1, false)
      && Smooth(a.last, e1, false).rv == (e1 + last) * 0.5
  {
    SmoothAfterFirst(last, e0);
    SmoothAfterFirst(last, e0');
  }

  /**
   * Loading the two images save wrote, one after the other, restores both
   * networks (obnet.hpp:80-91).
   */
  lemma {:induction false} BlendedSaveLoadRoundTrip(sizes: seq<nat>, L: nat, p0: Params, p1: Params, q0: Params, q1: Params)
    requires Shaped(sizes, L, p0) && Shaped(sizes, L, p1) && Shaped(sizes, L, q0) && Shaped(sizes, L, q1)
    requires Serialised(sizes, L, q0) + Serialised(sizes, L, q1) == Serialised(sizes, L, p0) + Serialised(sizes, L, p1)
    requires SamePadding(sizes, L, p0, q0) && SamePadding(sizes, L, p1, q1)
    ensures q0 == p0 && q1 == p1
  {
    SerialisedLength(sizes, L, p0);
    SerialisedLength(sizes, L, q0);
    SplitAppend(Serialised(sizes, L, q0), Serialised(sizes, L, q1), Serialised(sizes, L, p0), Serialised(sizes, L, p1));
    SaveLoadRoundTrip(sizes, L, p0, q0);
    SaveLoadRoundTrip(sizes, L, p1, q1);
  }

  lemma SplitAppend<T>(a: seq<T>, b: seq<T>, c: seq<T>, d: seq<T>)
    requires a + b == c + d && |a| == |c|
    ensures a == c && b == d
  {
    assert a == (a + b)[..|a|] && c == (c + d)[..|c|];
    assert b == (a + b)[|a|..] && d == (c + d)[|c|..];
  }

  /** Where save and load put net1's image: right after net0's, which starts at base. */
  function SecondAt(base: nat, sizes: seq<nat>): nat
  {
    base + DataSize(sizes)
  }

  /** The loop of update that fills the blended outputs (obnet.hpp:108-114). */
  method BlendOutputs(h: real, o0: seq<real>, o1: seq<real>) returns (blended: seq<real>)
    requires |o0| == |o1|
    ensures blended == Blend(h, o0, o1)
  {
    blended := o0;
    for i := 0 to |o0|
      invariant |blended| == |o0|
      invariant forall k :: 0 <= k < i ==> blended[k] == h * o1[k] + (1.0 - h) * o0[k]
    {
      blended := blended[i := h * o1[i] + (1.0 - h) * o0[i]];
    }
    assert forall k :: 0 <= k < |o0| ==> blended[k] == Blend(h, o0, o1)[k];
  }

  /** OutputBlendingNet (obnet.hpp:14-148). */
  class OutputBlendingNet {
    /** The network trained by h=0 examples. */
    const net0: BPNet
    /** The network trained by h=1 examples. */
    const net1: BPNet
    var modulator: real
    var lastError: real
    var interpolatedOutputs: seq<real>

    ghost predicate Valid()
      reads this, net0, net1
    {
      && net0 != net1 && net0.Valid() && net1.Valid()
      && net0.numLayers >= 1
      && net1.layerSizes == net0.layerSizes && net1.largestLayerSize == net0.largestLayerSize
      && |interpolatedOutputs| == net0.layerSizes[net0.numLayers - 1]
    }

    /**
     * The constructor (obnet.hpp:29-34): two plain networks of the given
     * shape, each with its own random stream, and an output buffer of the
     * output layer's size. The source leaves the modulator and the blended
     * outputs uninitialised; the contract promises nothing about them.
     * lastError starts at -1 (obnet.hpp:117).
     */
    constructor (counts: seq<nat>, rate: real, stream0: nat -> real, stream1: nat -> real, activation: real -> real)
      requires |counts| >= 1
      ensures Valid() && fresh(net0) && fresh(net1)
      ensures net0.layerSizes == counts && net1.layerSizes == counts && lastError == -1.0
      ensures net0.draws == stream0 && net1.draws == stream1 && net0.drawn == 0 && net1.drawn == 0
      ensures net0.eta == rate && net1.eta == rate && net0.sigmoid == activation && net1.sigmoid == activation
      ensures forall i :: 0 <= i < |counts| ==> net0.outputs[i] == Zeros(counts[i]) && net1.outputs[i] == Zeros(counts[i])
    {
      net0 := new BPNet(counts, rate, stream0, activation);
      net1 := new BPNet(counts, rate, stream1, activation);
      interpolatedOutputs := Zeros(counts[|counts| - 1]);
      modulator := 0.0;
      lastError := -1.0;
    }

    /** getLayerSize (obnet.hpp:45-47): net0's, which is also net1's. */
    function GetLayerSize(n: nat): (r: nat)
      requires Valid() && n < net0.numLayers
      reads this, net0, net1
      ensures r == net0.layerSizes[n] && r == net1.layerSizes[n]
    {
      net0.GetLayerSize(n)
    }

    /** getLayerCount (obnet.hpp:49-51): net0's, which is also net1's. */
    function GetLayerCount(): (r: nat)
      requires Valid()
      reads this, net0, net1
      ensures r == |net0.layerSizes| && r == |net1.layerSizes|
    {
      net0.GetLayerCount()
    }

    /** setH (obnet.hpp:53-55). */
    method SetH(h: real)
      modifies this
      ensures modulator == h && GetH() == h
      ensures lastError == old(lastError) && interpolatedOutputs == old(interpolatedOutputs)
    {
      modulator := h;
    }

    /** getH (obnet.hpp:57-59): the modulator the last setH stored. */
    function GetH(): (r: real)
      reads this
      ensures r == modulator
    {
      modulator
    }

    /** setInputs (obnet.hpp:63-68): the same inputs go to both networks. */
    method SetInputs(d: seq<real>)
      requires Valid() && |d| >= net0.layerSizes[0]
      modifies net0, net1
      ensures Valid()
      ensures net0.outputs == old(net0.outputs)[0 := d[..net0.layerSizes[0]]]
      ensures net1.outputs == old(net1.outputs)[0 := d[..net0.layerSizes[0]]]
      ensures net0.Parameters() == old(net0.Parameters()) && net1.Parameters() == old(net1.Parameters())
      ensures net0.drawn == old(net0.drawn) && net1.drawn == old(net1.drawn)
      ensures net0.Gradients() == old(net0.Gradients()) && net1.Gradients() == old(net1.Gradients())
      ensures net0.errors == old(net0.errors) && net1.errors == old(net1.errors)
    {
      net0.SetInputs(d);
      net1.SetInputs(d);
    }

    /** getOutputs (obnet.hpp:70-73): the blended outputs of the last update. */
    function GetOutputs(): (r: seq<real>)
      reads this, net0, net1
      ensures Valid() ==> |r| == net0.layerSizes[net0.numLayers - 1] == net1.layerSizes[net1.numLayers - 1]
    {
      interpolatedOutputs
    }

    /** Where save puts the two networks: net0's image, then net1's. */
    ghost function Image(): seq<real>
      requires Valid()
      reads this, net0, net1
    {
      Serialised(net0.layerSizes, net0.largestLayerSize, net0.Parameters()) + Serialised(net1.layerSizes, net1.largestLayerSize, net1.Parameters())
    }

    /** getDataSize (obnet.hpp:75-78): room for the two equally-sized networks. */
    method GetDataSize() returns (size: nat)
      requires Valid()
      ensures size == 2 * DataSize(net0.layerSizes)
    {
      var s0 := net0.GetDataSize();
      size := s0 * 2;
    }

    /**
     * save (obnet.hpp:80-85): net0's image at base and net1's right after
     * it; nothing else in buf changes.
     */
    method Save(buf: array<real>, base: nat)
      requires Valid() && base + 2 * DataSize(net0.layerSizes) <= buf.Length
      modifies buf
      ensures Spliced(old(buf[..]), buf[..], base, Image())
    {
      var ds := net0.GetDataSize();
      ghost var s0, s1 := Serialised(net0.layerSizes, net0.largestLayerSize, net0.Parameters()), Serialised(net1.layerSizes, net1.largestLayerSize, net1.Parameters());
      SerialisedLength(net0.layerSizes, net0.largestLayerSize, net0.Parameters());
      ghost var b0 := buf[..];
      net0.Save(buf, base);
      ghost var b1 := buf[..];
      net1.Save(buf, base + ds);
      SplicedThen(b0, b1, buf[..], base, base + ds, s0, s1);
    }

    /**
     * load (obnet.hpp:87-91): net0 from the image at base and net1 from the
     * one right after it.
     */
    method Load(buf: seq<real>, base: nat)
      requires Valid() && base + 2 * DataSize(net0.layerSizes) <= |buf|
      modifies net0, net1
      ensures Valid()
      ensures Serialised(net0.layerSizes, net0.largestLayerSize, net0.Parameters()) == buf[base .. base + DataSize(net0.layerSizes)]
      ensures Serialised(net1.layerSizes, net1.largestLayerSize, net1.Parameters())
        == buf[SecondAt(base, net0.layerSizes) .. SecondAt(base, net0.layerSizes) + DataSize(net1.layerSizes)]
      ensures SamePadding(net0.layerSizes, net0.largestLayerSize, old(net0.Parameters()), net0.Parameters())
      ensures SamePadding(net1.layerSizes, net1.largestLayerSize, old(net1.Parameters()), net1.Parameters())
      ensures net0.drawn == old(net0.drawn) && net1.drawn == old(net1.drawn)
      ensures net0.outputs == old(net0.outputs) && net1.outputs == old(net1.outputs)
      ensures net0.errors == old(net0.errors) && net1.errors == old(net1.errors)
      ensures net0.Gradients() == old(net0.Gradients()) && net1.Gradients() == old(net1.Gradients())
    {
      net0.Load(buf, base);
      var ds := net0.GetDataSize();
      var at := base + ds;
      assert at == SecondAt(base, net0.layerSizes);
      net1.Load(buf, at);
    }

    /** initWeights (obnet.hpp:99-102): both networks, each from its own stream. */
    method InitWeights(initr: real, bishop: nat -> real)
      requires Valid()
      modifies net0, net1
      ensures Valid()
      ensures net0.Parameters() == Initialised(net0.layerSizes, net0.largestLayerSize, net0.draws, old(net0.drawn), initr, bishop)
      ensures net1.Parameters() == Initialised(net1.layerSizes, net1.largestLayerSize, net1.draws, old(net1.drawn), initr, bishop)
      ensures net0.drawn == old(net0.drawn) + DrawsBefore(net0.layerSizes, net0.largestLayerSize, net0.numLayers)
      ensures net1.drawn == old(net1.drawn) + DrawsBefore(net1.layerSizes, net1.largestLayerSize, net1.numLayers)
      ensures net0.outputs == old(net0.outputs) && net0.errors == old(net0.errors) && net0.Gradients() == old(net0.Gradients())
      ensures net1.outputs == old(net1.outputs) && net1.errors == old(net1.errors) && net1.Gradients() == old(net1.Gradients())
    {
      net0.InitWeights(initr, bishop);
      net1.InitWeights(initr, bishop);
    }

    /**
     * update (obnet.hpp:104-115): both networks run forward, then the
     * outputs are blended by the modulator.
     */
    method Update()
      requires Valid()
      modifies this, net0, net1
      ensures Valid()
      ensures net0.outputs == Forward(net0.layerSizes, net0.largestLayerSize, net0.sigmoid, net0.Parameters(), old(net0.outputs), net0.numLayers)
      ensures net1.outputs == Forward(net1.layerSizes, net1.largestLayerSize, net1.sigmoid, net1.Parameters(), old(net1.outputs), net1.numLayers)
      ensures interpolatedOutputs == Blend(modulator, net0.GetOutputs(), net1.GetOutputs())
      ensures modulator == old(modulator) && lastError == old(lastError)
      ensures net0.Parameters() == old(net0.Parameters()) && net1.Parameters() == old(net1.Parameters())
      ensures net0.Gradients() == old(net0.Gradients()) && net1.Gradients() == old(net1.Gradients())
      ensures net0.errors == old(net0.errors) && net1.errors == old(net1.errors)
      ensures net0.drawn == old(net0.drawn) && net1.drawn == old(net1.drawn)
    {
      net0.Update();
      net1.Update();
      interpolatedOutputs := BlendOutputs(modulator, net0.GetOutputs(), net1.GetOutputs());
    }

    /**
     * The dispatch of trainBatch (obnet.hpp:123-129): low tells whether the
     * start example's modulator is below 0.5; that network is trained on the
     * one example and the other is untouched.
     */
    method TrainChosen(ex: DataLegacy.ExampleSet, start: nat, rate: real, low: bool) returns (err: real)
      requires Valid() && ex.Valid() && start < ex.ct
      requires ex.ninputs >= net0.layerSizes[0] && ex.noutputs >= net0.layerSizes[net0.numLayers - 1]
      modifies net0, net1
      ensures Valid()
      ensures low ==>
        BatchTrained(net0.layerSizes, net0.largestLayerSize, net0.sigmoid, old(net0.Parameters()),
                     old(ex.InputRows(start, 1)), old(ex.OutputRows(start, 1)), rate, net0.Gradients(), net0.Parameters(), net0.outputs, err)
      ensures !low ==>
        BatchTrained(net1.layerSizes, net1.largestLayerSize, net1.sigmoid, old(net1.Parameters()),
                     old(ex.InputRows(start, 1)), old(ex.OutputRows(start, 1)), rate, net1.Gradients(), net1.Parameters(), net1.outputs, err)
      ensures low ==> net1.Parameters() == old(net1.Parameters()) && net1.outputs == old(net1.outputs)
      ensures low ==> net1.Gradients() == old(net1.Gradients()) && net1.errors == old(net1.errors)
      ensures !low ==> net0.Parameters() == old(net0.Parameters()) && net0.outputs == old(net0.outputs)
      ensures !low ==> net0.Gradients() == old(net0.Gradients()) && net0.errors == old(net0.errors)
      ensures net0.drawn == old(net0.drawn) && net1.drawn == old(net1.drawn)
    {
      if low {
        err := net0.TrainBatch(ex, start, 1, rate);
      } else {
        err := net1.TrainBatch(ex, start, 1, rate);
      }
    }

    /**
     * trainBatch (obnet.hpp:119-147): the network chosen by the start
     * example's modulator (net0 when it is below 0.5) is trained on that one
     * example, whatever num is (the error for num != 1 is built but never
     * thrown); the other network is untouched. The result e of that training
     * goes through the lastError smoothing.
     */
    method TrainBatch(ex: DataLegacy.ExampleSet, start: nat, num: nat, rate: real) returns (rv: real, ghost e: real, ghost hzero: bool)
      requires Valid() && ex.Valid() && start < ex.ct
      requires ex.ninputs >= net0.layerSizes[0] && ex.noutputs >= net0.layerSizes[net0.numLayers - 1]
      modifies this, net0, net1
      ensures Valid()
      ensures hzero == (old(ex.GetH(start)) < 0.5)
      ensures hzero ==>
        BatchTrained(net0.layerSizes, net0.largestLayerSize, net0.sigmoid, old(net0.Parameters()),
                     old(ex.InputRows(start, 1)), old(ex.OutputRows(start, 1)), rate, net0.Gradients(), net0.Parameters(), net0.outputs, e)
      ensures !hzero ==>
        BatchTrained(net1.layerSizes, net1.largestLayerSize, net1.sigmoid, old(net1.Parameters()),
                     old(ex.InputRows(start, 1)), old(ex.OutputRows(start, 1)), rate, net1.Gradients(), net1.Parameters(), net1.outputs, e)
      ensures hzero ==> net1.Parameters() == old(net1.Parameters()) && net1.outputs == old(net1.outputs)
      ensures hzero ==> net1.Gradients() == old(net1.Gradients()) && net1.errors == old(net1.errors)
      ensures !hzero ==> net0.Parameters() == old(net0.Parameters()) && net0.outputs == old(net0.outputs)
      ensures !hzero ==> net0.Gradients() == old(net0.Gradients()) && net0.errors == old(net0.errors)
      ensures net0.drawn == old(net0.drawn) && net1.drawn == old(net1.drawn)
      ensures Smoothed(rv, lastError) == Smooth(old(lastError), e, hzero)
      ensures modulator == old(modulator) && interpolatedOutputs == old(interpolatedOutputs)
    {
      var low := ex.GetH(start) < 0.5;
      hzero := low;
      var err := TrainChosen(ex, start, rate, low);
      e := err;
      var s := Smooth(lastError, err, low);
      rv, lastError := s.rv, s.last;
    }
  }
}
