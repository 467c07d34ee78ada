/**
 * The parts of the abstract network of net.hpp that are not floating-point
 * numerics: the scaling of a drand48 draw, the cross-validation partition
 * check of trainSGD and its cyclic example schedule.
 */
module Net {
  import opened Common

  /**
   * drand (net.hpp:173-177) maps a draw res from [0,1) to res*(mx-mn)+mn,
   * a value in [mn, mx) (just mn when the range is empty).
   */
  function Drand(res: real, mn: real, mx: real): (r: real)
    ensures 0.0 <= res < 1.0 && mn <= mx ==> mn <= r <= mx && (mn < mx ==> r < mx)
  {
    var r := res * (mx - mn) + mn;
    DrandBounds(res, mn, mx, r);
    r
  }

  lemma DrandBounds(res: real, mn: real, mx: real, r: real)
    requires r == res * (mx - mn) + mn
    ensures 0.0 <= res < 1.0 && mn <= mx ==> mn <= r <= mx && (mn < mx ==> r < mx)
  {
    if 0.0 <= res < 1.0 && mn <= mx {
      var d := mx - mn;
      var s := res * d;
      assert d - s == (1.0 - res) * d;
      MulNonneg(1.0 - res, d);
      MulNonneg(res, d);
      if 0.0 < d {
        MulPositive(1.0 - res, d);
      }
    }
  }

  lemma MulNonneg(a: real, b: real)
    requires a >= 0.0 && b >= 0.0
    ensures a * b >= 0.0
  {
  }

  lemma MulPositive(a: real, b: real)
    requires a > 0.0 && b > 0.0
    ensures a * b > 0.0
  {
  }

  datatype TrainError = TooManyCrossValidationExamples

  /**
   * net.hpp:108-113: nCV = nSlices*nPerSlice examples at the tail are held
   * out; it is an error (std::out_of_range) unless at least one example is
   * left for training, and otherwise nTraining = count - nCV.
   */
  function Partition(count: nat, nSlices: nat, nPerSlice: nat): (r: Result<nat, TrainError>)
    ensures r.Err? <==> nSlices * nPerSlice >= count
    ensures r.Ok? ==> 1 <= r.value <= count && r.value + nSlices * nPerSlice == count
  {
    var nCV := nSlices * nPerSlice;
    if nCV >= count then Err(TooManyCrossValidationExamples) else Ok(count - nCV)
  }

  /** net.hpp:137: the example used at iteration i cycles through the training part. */
  function ExampleIndex(i: nat, nTraining: nat): (k: nat)
    requires nTraining >= 1
    ensures k < nTraining
    ensures i < nTraining ==> k == i
  {
    i % nTraining
  }

  /**
   * Iteration i never presents a cross-validation example: its index lies
   * below count - nCV, the start of the held-out tail.
   */
  lemma ScheduleAvoidsCrossValidation(count: nat, nSlices: nat, nPerSlice: nat, i: nat)
    requires Partition(count, nSlices, nPerSlice).Ok?
    ensures ExampleIndex(i, Partition(count, nSlices, nPerSlice).value) < count - nSlices * nPerSlice
  {
  }
}
