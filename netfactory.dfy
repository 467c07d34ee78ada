/**
 * makeNet of netFactory.hpp: a three-layer network shaped to an example set,
 * of the type its tag names.
 */
module NetFactory {
  import opened Common
  import opened Backprop
  import DataLegacy

  /** netFactory.hpp:18-22 declares its own tag set: PLAIN is 1000 and MAX equals it. */
  const FactoryPlain: int := 1000
  const FactoryMax: int := FactoryPlain

  /**
   * makeNet (netFactory.hpp:31-44): the layers are the example set's
   * input count, hnodes and its output count. PLAIN gives a new plain
   * network; for any other tag the source falls off the end of the
   * function without returning, which is None here.
   */
  method MakeNet(t: int, e: DataLegacy.ExampleSet, hnodes: nat, rate: real, stream: nat -> real, activation: real -> real)
    returns (r: Option<BPNet>)
    ensures r.Some? <==> t == FactoryPlain
    ensures r.Some? ==> fresh(r.value) && r.value.Valid() && r.value.numLayers == 3
    ensures r.Some? ==> r.value.layerSizes == [e.GetInputCount(), hnodes, e.GetOutputCount()]
    ensures r.Some? ==> r.value.eta == rate && r.value.drawn == 0
    ensures r.Some? ==> r.value.draws == stream && r.value.sigmoid == activation
    ensures r.Some? ==> forall i :: 0 <= i < 3 ==> r.value.outputs[i] == Zeros(r.value.layerSizes[i])
  {
    var layers := [e.GetInputCount(), hnodes, e.GetOutputCount()];
    if t == FactoryPlain {
      var net := new BPNet(layers, rate, stream, activation);
      return Some(net);
    }
    return None;
  }
}
