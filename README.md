# uesmanncpp core, modelled in Dafny

uesmanncpp is a small C++ library of feed-forward neural networks. Its main
subject is UESMANN-style modulation: a network whose behaviour switches with
a modulator value h. The numerics are floating point. This project models
the discrete structure around them and proves what that structure promises.
Values are modelled as `real`; the activation function, `sqrt` and the
random streams are parameters.

- **Example sets** (`data.hpp`, `data.h`). Each example has a handle of
  three offsets (inputs, outputs, modulator) into one flat buffer.
  - The constructor lays examples out one after the other.
  - A Fisher-Yates shuffle driven by an `lrand48` stream permutes the handles
    and never writes the buffer.
  - The generic `alternate` rearranges an array so that a predicate holds at
    even positions and fails at odd ones.
  - Accessors read and write single examples.
- **The plain back-propagation network** (`bpnet.hpp`). This is a class whose
  methods update its buffers in place. The model covers:
  - the largest layer size, and the square weight buffer with its cell index;
  - `getDataSize`, and the cursor-walking `save`/`load` pair, which
    round-trips;
  - `initWeights`, with its draws and the zeroed input layer;
  - the forward pass `update`, `run` and `calcError`;
  - `trainBatch`: which gradient accumulators and parameters it touches, and
    that the result is the mean squared output error.
- **Training skeleton** (`net.hpp`): `drand`, the cross-validation
  partition check of `trainSGD`, and its cyclic example schedule.
- **Output-blending network** (`obnet.hpp`):
  - two plain networks saved back to back;
  - outputs blended by h;
  - training dispatched to one sub-network by `h < 0.5`;
  - the `lastError` smoothing.
- **h-as-input network** (`hinet.hpp`): a plain network one input wider,
  whose last input node carries the modulator.
- **Variant tags and factory** (`netType.hpp`, `netFactory.hpp`).
- **MNIST IDX reader** (`mnist.hpp`). The two files are byte sequences, and
  the constructor is a parser with one error value per rejection. The
  accessors read the loaded labels and images.
- **Test helpers** (`genBoolMap.cpp`, `test.hpp`):
  - the truth-table numbering of two-input boolean functions;
  - the pairing example set;
  - `getHighest`;
  - the sixteen-example boolean fixture.

Each source file has its own module: `Alternation` and `Data` (data.hpp),
`DataLegacy` (data.h), `Backprop` (bpnet.hpp), `Net` (net.hpp),
`OutputBlending` (obnet.hpp), `HInput` (hinet.hpp), `NetTypes`
(netType.hpp), `NetFactory` (netFactory.hpp), `Mnist` (mnist.hpp), `BoolMap`
(genBoolMap.cpp) and `TestFixtures` (test.hpp). `Common` holds the shared
`Option` and `Result` types.

How the source's form carries over:

- Classes whose fields the source updates become Dafny classes with `modifies`
  clauses: `ExampleSet` (both versions), `BPNet`, `OutputBlendingNet`,
  `HInputNet` and `BooleanExampleSet`.
- The handle array and the data buffer stay `array`s.
- `BPNet`'s per-layer buffers are `seq` fields that its methods reassign.
- Loops become `for`/`while` loops with invariants. Each loop method is
  proved against a specification function, for example `Serialised`,
  `Forward`, `Backpropagated` or `BatchTrained`.

The shuffle of `data.hpp` calls `alternate` with a predicate that tests
`e->h < 0.5`, where `e` is a handle. That compares the modulator's buffer
OFFSET, not the modulator value. The model keeps this
(`Data.HOffsetBelowHalf`). `Data.HOffsetPredicateOnHandles` shows the
predicate holds only for example 0 of a set without inputs or outputs.

## Model

| member | source | states |
|---|---|---|
| Alternation.Scan | data.hpp:27-30 | The inner scan with the guard `j >= n`. Any index it returns lies in [j, n) and holds the wanted value. It returns nothing exactly when no element from j on has that value. |
| Alternation.ScanAsWrittenLeavesArray | data.hpp:28 | The scan with the guard `j > n` as written. On the one-element array [false] it picks index 1, one past the end, when the value beyond the array satisfies the predicate. The corrected scan finds nothing there. |
| Alternation.FindFrom | data.hpp:27-30 | The array scan, corrected: it returns the first position from i on whose element has the wanted value, or n when there is none. |
| Alternation.SwapIn | data.hpp:31-35 | The swap exchanges exactly elements i and j and keeps the multiset of the array. |
| Alternation.SwappedIn | data.hpp:24-37 | One outer step at a mismatching position i, swapping with a later match j, extends the alternating prefix to i+1. It keeps the multiset and leaves the positions before i alone. |
| Alternation.Alternate | data.hpp:20-40 | The result is a permutation of the input, and it is the input itself when the input already alternates. Otherwise a prefix alternates (true at even indices) and the scan gave up at the first unfilled position: no later element has the value that position wants. Uses the corrected scan bound, see Findings. |
| Alternation.CountPermutation | data.hpp:31-35 | The number of elements satisfying the predicate depends only on the multiset, so swapping keeps it. |
| Alternation.CountStalled | data.hpp:27-29 | When the scan gives up at p, the array holds ceil(p/2) satisfying elements in the prefix. Every tail element also satisfies the predicate when p wants false, and none does when p wants true. |
| Alternation.BalancedAlternates | testBasic.cpp:115-133 | With as many satisfying elements as not, `alternate` leaves the whole array alternating, starting with true at index 0. |
| Data.HandleInBuffer | data.hpp:91-101 | The handle of example i has inputs at (nin+nout+1)*i, outputs nin later and h nout after those. All of it lies below (nin+nout+1)*(i+1), which is inside the buffer. |
| Data.HandlesDisjoint | data.hpp:96-101 | Two different constructor handles own no common buffer position. |
| Data.LayoutDistinct | data.hpp:96-101 | The constructor's handles are pairwise different. |
| Data.SlotsInBuffer | data.hpp:122-131 | Every handle of a handle array that is a permutation of the constructor's lies inside the buffer. |
| Data.SlotsDisjoint | data.hpp:122-131 | Different entries of such a handle array own disjoint buffer positions. |
| Data.SwapPartner | data.hpp:126-127 | The swap partner `lr % (i+1)` lies in [0, i]. |
| Data.FisherYatesPermutes | data.hpp:123-131 | The shuffle keeps the length and the multiset of the handles. |
| Data.FisherYatesShort | data.hpp:123 | With at most one handle the loop body never runs and the order stays. |
| Data.ShuffleHandles | data.hpp:123-131 | The in-place loop leaves the array equal to the Fisher-Yates function of its old contents, a permutation of them. |
| Data.HOffsetPredicateOnHandles | data.hpp:133-136 | The predicate handed to `alternate` holds on a constructor handle iff that handle is example 0 of a set with no inputs and no outputs. |
| Data.ExampleSet.constructor | data.hpp:80-102 | Records ct, nin and nout, allocates both arrays, and gives example i the handle (nin+nout+1)*i, +nin, +nout. |
| Data.ExampleSet.GetInputs | data.hpp:170-173 | Requires k < ct, which the source asserts. Returns the ninputs values from example k's input offset. |
| Data.ExampleSet.GetOutputs | data.hpp:181-184 | Requires k < ct. Returns the noutputs values from example k's output offset. |
| Data.ExampleSet.GetH | data.hpp:191-194 | Example k's modulator is the buffer value in the slot right after its outputs, which lies inside the buffer. |
| Data.ExampleSet.GetCount | data.hpp:159-161 | The count is the number of handles. |
| Data.ExampleSet.GetInputCount | data.hpp:143-145 | Every example's input row has this length. |
| Data.ExampleSet.GetOutputCount | data.hpp:151-153 | Every example's output row has this length. |
| Data.ExampleSet.SetH | data.hpp:202-205 | Afterwards getH(k) is v, example k's inputs and outputs are unchanged, and every other example is unchanged. |
| Data.ExampleSet.SetInput | data.hpp:170-173 | A write through the input address getInputs returns changes input j of example k only. |
| Data.ExampleSet.SetOutput | data.hpp:181-184 | A write through the output address getOutputs returns changes output j of example k only. |
| Data.ExampleSet.Shuffle | data.hpp:122-137 | The handles become the Fisher-Yates permutation and the buffer is never written. When asked, the permutation is then rearranged by `alternate` with the offset test. The handles stay a permutation of the constructor's. Uses the corrected scan bound, see Findings. |
| DataLegacy.ExampleSet.constructor | data.h:48-70 | The counts are the constructor's arguments. Example i has inputs at (nin+nout+1)*i, outputs after them and h after those. |
| DataLegacy.ExampleSet.GetInputs | data.h:125-128 | Requires k < ct, which the source asserts. Returns example k's ninputs inputs. |
| DataLegacy.ExampleSet.GetOutputs | data.h:135-138 | Requires k < ct. Returns example k's noutputs outputs. |
| DataLegacy.ExampleSet.GetH | data.h:144-147 | Example k's modulator is the buffer value in the slot right after its outputs, which lies inside the buffer. |
| DataLegacy.ExampleSet.GetCount | data.h:115-117 | The count is the number of handles. |
| DataLegacy.ExampleSet.GetInputCount | data.h:101-103 | Every example's input row has this length. |
| DataLegacy.ExampleSet.GetOutputCount | data.h:108-110 | Every example's output row has this length. |
| DataLegacy.ExampleSet.SetInput | data.h:125-128 | A write through the address the getter returns: example k's input j becomes v, and no other value of any example changes. |
| DataLegacy.ExampleSet.SetOutput | data.h:135-138 | A write through the address the getter returns: example k's output j becomes v, and no other value changes. |
| DataLegacy.ExampleSet.SetH | data.h:154-157 | getH(k) is v afterwards; nothing else of any example changes. |
| DataLegacy.ExampleSet.Shuffle | data.h:86-96 | The handles are Fisher-Yates permuted and the buffer is untouched. With ct <= 1 nothing moves. |
| Backprop.MaxOf | bpnet.hpp:37-47 | The result is at least every layer count and equal to one of them (0 for no layers). |
| Backprop.CellBound | bpnet.hpp:249-251 | For node indices below the largest layer size L, the cell `to + L*from` lies inside the L*L buffer. |
| Backprop.CellDecode | bpnet.hpp:249-251 | The cell determines `to` as its remainder and `from` as its quotient by L. |
| Backprop.CellInjective | bpnet.hpp:249-251 | Distinct node pairs address distinct cells. |
| Backprop.CellOf | bpnet.hpp:249-251 | Every cell is addressed by exactly one node pair. |
| Backprop.DataSizeThreeLayers | bpnet.hpp:134-149 | For layers (a, b, c) the data size is a + b*(a+1) + c*(b+1): the input layer's biases are counted. |
| Backprop.SerialisedLength | bpnet.hpp:151-168 | save's image is exactly getDataSize() values long. |
| Backprop.NodeBlockAt | bpnet.hpp:151-168 | Node j of layer i occupies its stride from its offset on: its bias, then its incoming weights in `from` order. |
| Backprop.SerialisedInjective | bpnet.hpp:151-187 | Two parameter sets with the same image have equal biases and equal in-shape weights. |
| Backprop.SaveLoadRoundTrip | bpnet.hpp:151-187 | Parameters loaded from p's image are p, provided load left the cells outside the shape alone. |
| Backprop.InitialisedInRange | bpnet.hpp:218-240 | With draws in [0,1), every initial bias and weight of layer i >= 1 lies in [-r, r] for that layer's range r. The input layer's biases and weights are all zero. |
| Backprop.DrawsBeforeMonotone | bpnet.hpp:219-234 | Each layer's draws come after the previous layer's, so no draw is used twice. |
| Backprop.Forward | bpnet.hpp:321-331 | The forward pass keeps every layer sized, and leaves the input layer and the layers it has not reached as they were. |
| Backprop.ForwardReadsInputsOnly | bpnet.hpp:321-331 | Two starting states with the same inputs give the same outputs in every computed layer. |
| Backprop.ForwardIdempotent | bpnet.hpp:321-331 | Running update again changes no output. |
| Backprop.RunForgetsPreviousOutputs | net.hpp:73-77 | After the input is set, the forward pass gives the same outputs whatever the layers held before. |
| Backprop.Backpropagated | bpnet.hpp:294-319 | The error terms calcError is meant to leave are one row per layer, each of its layer's size. |
| Backprop.BackpropagatedAsWritten | bpnet.hpp:306-318 | The error terms calcError leaves as written (hidden layers in ascending order) are one row per layer, each of its layer's size. |
| Backprop.AsWrittenAgreesUpToThreeLayers | bpnet.hpp:306-318 | For up to three layers the order as written and the corrected order give the same errors. |
| Backprop.AsWrittenStaleForFourLayers | bpnet.hpp:306-318 | For a 1-1-1-1 network the corrected order gives layer 1 the term 1/128. The order as written reads layer 2's stale zero and gives 0. |
| Backprop.BatchErrorNonnegative | bpnet.hpp:363-368 | The summed squared output error is never negative. |
| Backprop.ZeroParamsEmptyBatch | bpnet.hpp:335-340 | The zeroed accumulators are the gradient sums of no examples. |
| Backprop.GradientsStep | bpnet.hpp:355-361 | Adding example n's terms to the sums of n examples gives the sums of n+1. |
| Backprop.SteppedUnique | bpnet.hpp:374-384 | The update step determines the new parameters completely. |
| Backprop.ZeroStepKeeps | bpnet.hpp:374-384 | With all gradients zero the step changes nothing. |
| Backprop.LayersAddedKeeps | bpnet.hpp:374-384 | Updates never touch a weight cell outside the shape or an input-layer bias. |
| Backprop.InitLayers | bpnet.hpp:38-47 | One zeroed output row and one error row per layer, and the largest layer count. |
| Backprop.AllocateLayers | bpnet.hpp:53-59 | Per layer, a bias row of the layer's size and an L*L weight buffer. |
| Backprop.ZeroGradients | bpnet.hpp:335-340 | Every bias and every weight cell of every layer's accumulators is zero. |
| Backprop.AccumulateExample | bpnet.hpp:355-361 | Each in-shape weight gradient of layers >= 1 gains error term times the output it weighs. Each bias gradient gains the error term. Nothing else changes. |
| Backprop.AddSquaredErrors | bpnet.hpp:363-368 | The total grows by the example's squared output error. |
| Backprop.AccumulatePass | bpnet.hpp:355-368 | The gradient sums and the error total of n examples become those of n+1. |
| Backprop.ApplyGradients | bpnet.hpp:374-384 | Each in-shape weight and each bias of layers >= 1 moves by -eta*gradient*factor. Input-layer biases and out-of-shape cells keep their values. |
| Backprop.Factor | bpnet.hpp:372 | 1/num is positive and times num gives 1. |
| Backprop.MeanError | bpnet.hpp:385-386 | The returned error is never negative. |
| Backprop.MeanOfTotal | bpnet.hpp:385-386 | The running total times the factor is the mean squared output error. |
| Backprop.BPNet.constructor | bpnet.hpp:32-71 | Records the layer sizes and the largest of them, and zeroes the outputs. The learning rate comes from the caller, and the stream starts at draw 0. |
| Backprop.BPNet.GetOutputs | bpnet.hpp:120-122 | The output layer's values, one per output node. |
| Backprop.BPNet.GetLayerSize | bpnet.hpp:124-126 | Layer n's size, which is never more than the largest layer size the buffers are cut for. |
| Backprop.BPNet.GetLayerCount | bpnet.hpp:128-130 | One layer per entry of the size list and per output row. |
| Backprop.BPNet.GetEta | net.hpp:48-50 | The learning rate the constructor stored (`eta == rate` there); no method changes it. |
| Backprop.BPNet.GetW | bpnet.hpp:249-251 | The weight is cell to + L*from of layer l's L*L buffer, and that cell lies inside the buffer. |
| Backprop.BPNet.GetB | bpnet.hpp:259-261 | Node n's bias in the parameters, inside the layer's bias row. |
| Backprop.BPNet.GetDataSize | bpnet.hpp:134-149 | The loop's total is the data size: layer by layer, size*(1 + previous size). |
| Backprop.BPNet.SetInputs | bpnet.hpp:104-108 | The input layer becomes the first layerSizes[0] values; nothing else changes. |
| Backprop.BPNet.SetInput | bpnet.hpp:115-117 | One input slot becomes v; nothing else changes. |
| Backprop.BPNet.SaveNode | bpnet.hpp:160-165 | Writes the node's block (bias, then incoming weights) at the cursor and advances the cursor by its stride. |
| Backprop.BPNet.SaveLayer | bpnet.hpp:159-166 | Writes the layer's image at the cursor. |
| Backprop.BPNet.SaveLayerAt | bpnet.hpp:159-166 | One pass of save's layer loop: with layers 0..i-1 written from base, layer i's image is written right after them and nothing else in the buffer changes. |
| Backprop.BPNet.SaveLayers | bpnet.hpp:158-167 | Writes the whole image, getDataSize() values, from base on. |
| Backprop.BPNet.Save | bpnet.hpp:151-168 | The buffer is the old one with the network's image from base on; no other position changes. |
| Backprop.BPNet.LoadNode | bpnet.hpp:179-184 | Reads the node's block from the cursor; only that node's bias and weight cells change. |
| Backprop.BPNet.LoadLayer | bpnet.hpp:178-185 | The layer's image becomes the values at the cursor; out-of-shape cells keep their values. |
| Backprop.BPNet.LoadLayerInto | bpnet.hpp:178-185 | One pass of load's layer loop: with layers 0..i-1 read from base, layer i is read from the values right after them, and out-of-shape cells keep their values. |
| Backprop.BPNet.LoadLayers | bpnet.hpp:177-186 | The image becomes the getDataSize() values from base on; out-of-shape cells keep their values. |
| Backprop.BPNet.Load | bpnet.hpp:170-187 | The network's image equals the buffer's values from base on; out-of-shape cells and everything else are unchanged. |
| Backprop.BPNet.DrawRow | bpnet.hpp:229-233 | n successive drand(-r, r) values from the stream position given. |
| Backprop.BPNet.DrawLayers | bpnet.hpp:219-234 | Each layer's biases, then all its weight cells, drawn in turn. The stream advances by exactly the draws used. |
| Backprop.BPNet.InitialParameters | bpnet.hpp:218-240 | The drawn parameters, with the input layer zeroed afterwards. |
| Backprop.BPNet.InitWeights | bpnet.hpp:218-240 | The parameters are the initialised ones. The input layer's biases and weights are zero, and the stream advanced by the draws used. Outputs, errors and gradients are unchanged. |
| Backprop.BPNet.NodeActivation | bpnet.hpp:324-327 | The node's bias plus its weighted inputs from the previous layer. |
| Backprop.BPNet.ComputeLayer | bpnet.hpp:323-329 | The layer's outputs from the previous layer's. |
| Backprop.BPNet.ForwardLayers | bpnet.hpp:322-330 | The forward pass over all layers. |
| Backprop.BPNet.Update | bpnet.hpp:321-331 | The outputs become the forward pass of the current inputs; parameters, gradients and errors are unchanged. |
| Backprop.BPNet.Run | net.hpp:73-77 | setInputs, update, getOutputs. The result is the output layer of the forward pass of the input. |
| Backprop.BPNet.OutputErrors | bpnet.hpp:301-305 | The output layer's error terms o*(1-o)*(o-y). |
| Backprop.BPNet.BackSumLoop | bpnet.hpp:310-312 | The next layer's error terms, weighted by node j's outgoing weights and summed. |
| Backprop.BPNet.HiddenErrors | bpnet.hpp:309-317 | A hidden layer's error terms. |
| Backprop.BPNet.BackStep | bpnet.hpp:309-317 | One pass of the downward loop: with the output layer and layers l.. holding their error terms, layer l-1 gets its terms from layer l's, and the layers below keep their old rows. |
| Backprop.BPNet.BackLayers | bpnet.hpp:300-318 | The corrected error pass: the output layer first, then the hidden layers downwards. |
| Backprop.BPNet.CalcError | bpnet.hpp:294-319 | Runs the network on the input and leaves every layer's back-propagated error terms for the targets. The parameters are unchanged. Uses the corrected top-down error order, see Findings. |
| Backprop.BPNet.CalcErrorPass | bpnet.hpp:294-319 | The outputs and the error rows of layers >= 1 are exactly the example's pass, whatever they held before. Uses the corrected top-down error order, see Findings. |
| Backprop.BPNet.TrainExample | bpnet.hpp:349-368 | One example of the batch is added to the gradient sums and the error total. Uses the corrected top-down error order, see Findings. |
| Backprop.BPNet.TrainExamples | bpnet.hpp:345-369 | After the loop the accumulators hold the gradient sums of every example of the batch and the total of their squared errors. The outputs are the last example's. Uses the corrected top-down error order, see Findings. |
| Backprop.BPNet.AccumulateRows | bpnet.hpp:339-374 | Zeroing, then every example added in; the parameters are not touched. Uses the corrected top-down error order, see Findings. |
| Backprop.BPNet.TrainRows | bpnet.hpp:333-387 | trainBatch on a batch already read. Uses the corrected top-down error order, see Findings. |
| Backprop.BPNet.TrainBatch | bpnet.hpp:333-387 | Examples start..start+num-1 are trained on. The gradient sums are over their passes. The parameters move by -rate*gradient/num. The outputs are the last example's and the result is the mean squared output error. Uses the corrected top-down error order, see Findings. |
| Net.Drand | net.hpp:173-177 | For a draw in [0,1) and mn <= mx the result lies in [mn, mx]. It lies below mx when mn < mx. |
| Net.Partition | net.hpp:108-113 | Fails (out_of_range) exactly when nSlices*nPerSlice >= count. Otherwise nTraining = count - nCV >= 1. |
| Net.ExampleIndex | net.hpp:137 | The index lies below nTraining, and it is i itself in the first round. |
| Net.ScheduleAvoidsCrossValidation | net.hpp:135-140 | No iteration presents a held-out cross-validation example. |
| OutputBlending.BlendEndpoints | obnet.hpp:108-114 | At h=0 the blend is net0's output and at h=1 net1's. |
| OutputBlending.BlendBetween | obnet.hpp:108-114 | For h in [0,1] each blended output lies between the two networks' outputs. |
| OutputBlending.SmoothStaysSet | obnet.hpp:131-146 | With non-negative errors the stored value is non-negative after any call, so only the first call takes the first branch. |
| OutputBlending.SmoothAfterFirst | obnet.hpp:131-146 | Once a value is stored, an h<0.5 call returns it unchanged. An h>=0.5 call returns and stores the mean of its error and the stored value. |
| OutputBlending.SmoothPairIgnoresHZeroError | obnet.hpp:131-146 | Over an h=0/h=1 pair, the h=0 error has no effect, and the pair ends at (e1 + stored)*0.5. |
| OutputBlending.BlendedSaveLoadRoundTrip | obnet.hpp:80-91 | Loading the two back-to-back images save wrote restores both networks. |
| OutputBlending.BlendOutputs | obnet.hpp:108-114 | The loop produces h*o1 + (1-h)*o0, output by output. |
| OutputBlending.Blend | obnet.hpp:108-114 | One blended value per output; where the two networks agree the blend is their common output. |
| OutputBlending.Smooth | obnet.hpp:131-146 | The value returned is always the value stored as lastError. The first call (nothing stored) returns its own error; a later h<0.5 call returns the stored value. |
| OutputBlending.OutputBlendingNet.constructor | obnet.hpp:29-34 | Two fresh, distinct networks of the given shape, both with the given rate and activation, each drawing from its own stream (net0 from stream0, net1 from stream1) with nothing drawn yet, and all outputs zero. lastError starts at -1. |
| OutputBlending.OutputBlendingNet.GetLayerSize | obnet.hpp:45-47 | net0's layer size, which is also net1's. |
| OutputBlending.OutputBlendingNet.GetLayerCount | obnet.hpp:49-51 | net0's layer count, which is also net1's. |
| OutputBlending.OutputBlendingNet.SetH | obnet.hpp:53-59 | getH() returns h afterwards; nothing else changes. |
| OutputBlending.OutputBlendingNet.GetH | obnet.hpp:57-59 | The modulator the last setH stored. |
| OutputBlending.OutputBlendingNet.GetOutputs | obnet.hpp:70-73 | The blended outputs, one per output node of either network. |
| OutputBlending.OutputBlendingNet.SetInputs | obnet.hpp:63-68 | Both networks get the same inputs; their parameters, gradients, errors and draw counters are unchanged. |
| OutputBlending.OutputBlendingNet.GetDataSize | obnet.hpp:75-78 | Twice net0's data size. |
| OutputBlending.OutputBlendingNet.Save | obnet.hpp:80-85 | net0's image is at base and net1's right after it; nothing else in the buffer changes. |
| OutputBlending.OutputBlendingNet.Load | obnet.hpp:87-91 | net0 is read from base and net1 from right after net0's image. Unused weight cells, and both networks' outputs, errors, gradients and draw counters, are unchanged. |
| OutputBlending.OutputBlendingNet.InitWeights | obnet.hpp:99-102 | Each network is initialised from its own stream, and its draw counter advances by exactly the values drawn. Outputs, errors and gradients of both are unchanged. |
| OutputBlending.OutputBlendingNet.Update | obnet.hpp:104-115 | Both networks run forward. The outputs are their blend by the modulator. Parameters, gradients, errors and draw counters of both are unchanged. |
| OutputBlending.OutputBlendingNet.TrainChosen | obnet.hpp:123-130 | The chosen network is trained on the one example. The other keeps its parameters, outputs, gradients and errors, and neither draws. Uses the corrected top-down error order, see Findings. |
| OutputBlending.OutputBlendingNet.TrainBatch | obnet.hpp:119-147 | net0 is trained when the start example's h < 0.5, otherwise net1. Either way it is trained on that one example, whatever num is. The other network keeps its parameters, outputs, gradients and errors; neither draws, and the blended outputs are unchanged. The result goes through the lastError smoothing. Uses the corrected top-down error order, see Findings. |
| HInput.Widened | hinet.hpp:37-43 | The input layer is one node wider and the other layers are as requested. |
| HInput.VisibleSizeRecovers | hinet.hpp:52-57 | The corrected getLayerSize gives back every requested size. |
| HInput.VisibleSizeAsWrittenWrong | hinet.hpp:52-57 | As written, a requested 2-3-1 network reports 3 output nodes. |
| HInput.WidenedDataSize | hinet.hpp:37-43 | For requested (a, b, c) the inherited data size is (a+1) + b*(a+2) + c*(b+1). |
| HInput.ModulatedRows | hinet.hpp:67-76 | Each training row is the example's first nins inputs followed by its h. |
| HInput.FeedInputs | hinet.hpp:70-75 | The input layer becomes the first nins caller values followed by h; nothing else changes. |
| HInput.TrainModulated | bpnet.hpp:333-387 | The underlying network is trained on the modulated rows. Uses the corrected top-down error order, see Findings. |
| HInput.HInputNet.constructor | hinet.hpp:32-44 | The underlying network has the widened sizes, the given rate, stream and activation, nothing drawn yet and every output row zero. The modulator is left unset. |
| HInput.HInputNet.GetLayerSize | hinet.hpp:52-57 | Corrected: each layer's size as requested. |
| HInput.HInputNet.SetH | hinet.hpp:59-61 | The modulator becomes h. |
| HInput.HInputNet.GetH | hinet.hpp:63-65 | The modulator the last setH stored. |
| HInput.HInputNet.SetInputs | hinet.hpp:67-76 | The caller's first values fill every input but the last, which takes the modulator. |
| HInput.HInputNet.Run | net.hpp:73-77 | The output layer of the forward pass of the caller's inputs with the modulator appended. Parameters, gradients, errors and the draw counter are unchanged. |
| HInput.HInputNet.TrainBatch | bpnet.hpp:333-387 | The inherited trainBatch with h as the last input of every example. The modulator is left at the batch's last h. Uses the corrected top-down error order, see Findings. |
| NetTypes.FromCode | netType.hpp:15-22 | An integer names a tag exactly when it is 1000..1003. |
| NetTypes.CodeValues | netType.hpp:16-19 | PLAIN, OUTPUTBLENDING, HINPUT and UESMANN are 1000, 1001, 1002 and 1003. |
| NetTypes.CodeRoundTrip | netType.hpp:15-22 | A tag's code reads back as that tag, and a code reads back only as its own tag. |
| NetTypes.CodesDistinct | netType.hpp:15-20 | Two tags have equal codes iff they are the same tag. |
| NetTypes.MaxIsSmallest | netType.hpp:21 | MAX is 1000, PLAIN's code: the smallest code, below every other tag's. |
| NetFactory.MakeNet | netFactory.hpp:31-44 | A network is returned iff the tag is PLAIN. It is a fresh 3-layer plain network of the set's input count, hnodes and the set's output count, with the given rate, stream and activation, nothing drawn yet and every output row zero. |
| Mnist.BigEndianValue | mnist.hpp:45-46 | A field of n bytes read most significant first is below 256^n. |
| Mnist.U32 | mnist.hpp:45-46 | A header field fits in 32 bits. |
| Mnist.BigEndianRoundTrip | mnist.hpp:45-46 | A value that fits, written in n big-endian bytes, reads back as itself. |
| Mnist.BigEndianOfValue | mnist.hpp:45-46 | Bytes read as a value and written back are the same bytes. |
| Mnist.U32RoundTrip | mnist.hpp:45-46 | Four-byte header fields read and write as inverses of each other. |
| Mnist.FieldsCheckedInOrder | mnist.hpp:44-110 | Each header field is checked as soon as it is read: a label file of 4 bytes or more with a bad magic number is rejected for its magic number, and a count mismatch is reported only when both magic numbers were read and the image one was good. A short-header error is raised only for a file shorter than its header. |
| Mnist.FirstFailureIffNotAcceptable | mnist.hpp:44-110 | The files are rejected exactly when a check fails: label magic 2049; label count <= 100000; start+len within the count; enough labels; image magic 2051; equal counts; rows and cols <= 128; enough pixels. |
| Mnist.ScanMaxLabel | mnist.hpp:114-119 | The result is the largest loaded label, or 0 when there are none. |
| Mnist.Open | mnist.hpp:35-121 | Fails iff some check fails, with the first failing check's error. On success it holds exactly examples start..start+len-1 of both files, and maxLabel is their largest label. |
| Mnist.GetImg | mnist.hpp:175-177 | Image n is rows*cols bytes long, starting rows*cols*n bytes in. |
| Mnist.GetCount | mnist.hpp:135-137 | The number of examples kept. |
| Mnist.GetLabel | mnist.hpp:158-160 | Label n of the kept labels. |
| Mnist.GetPix | mnist.hpp:184-187 | The byte at rows*cols*n + x + y*cols of the kept pixels, which lies inside them. |
| Mnist.OpenedCount | mnist.hpp:58-112 | On success getCount() is len, or the file's count when len is 0. |
| Mnist.OpenedLabel | mnist.hpp:63-119 | Label n is byte 8+start+n of the label file and at most maxLabel. |
| Mnist.OpenedPixel | mnist.hpp:175-187 | getPix(n, x, y) is byte base + n*rows*cols + x + y*cols of the image file, and that byte lies inside the file. |
| BoolMap.BoolFuncReadsTable | genBoolMap.cpp:46-55 | boolFunc reads a truth table numbered 00, 01, 10, 11 from the most significant bit back as that table. |
| BoolMap.BoolFuncLowFourBits | genBoolMap.cpp:50-55 | boolFunc(f, a, b) reads one of f's low four bits, so f and f % 16 name the same function. |
| BoolMap.IndexIsTable | genBoolMap.cpp:50-55 | Every index 0..15 is the table boolFunc reads from it, so no two indices are the same function. |
| BoolMap.NamesMatch | genBoolMap.cpp:41-55 | Every one of the sixteen names computes the function of its index. |
| BoolMap.SetExample | genBoolMap.cpp:63-73 | Example i gets h=mod, the two input bits and output 1 or 0 as f holds. Nothing else changes. |
| BoolMap.PairingSet | genBoolMap.cpp:113-125 | Eight examples with inputs (0,0), (0,1), (1,0), (1,1) in pairs. Even examples are f1 at h=0 and odd ones f2 at h=1. |
| BoolMap.PairingComputesBoth | genBoolMap.cpp:113-125 | For every input pair the set has an h=0 example computing f1 and an h=1 example computing f2. |
| TestFixtures.GetHighest | test.hpp:22-32 | Returns the first index of the largest value above -10, or 0 when no value exceeds -10. |
| TestFixtures.SecondHalfRepeatsFirst | test.hpp:35-39 | Examples 8..15 repeat examples 0..7. |
| TestFixtures.BooleanExampleSet.constructor | test.hpp:60 | 16 examples of 2 inputs and 1 output. |
| TestFixtures.BooleanExampleSet.SetExample | test.hpp:51-57 | Example i becomes (in0, in1) -> out at h; nothing else changes. |
| TestFixtures.BooleanExampleSet.Add0 | test.hpp:69-78 | The even examples of both halves become the h=0 function's table; the odd ones stay. |
| TestFixtures.BooleanExampleSet.Add1 | test.hpp:86-95 | The odd examples of both halves become the h=1 function's table; the even ones stay. |

## Left out

- Printing, file opening and closing, exceptions' message texts and `exit`.
  An error is a `Result`/`Option` value naming the failed check.
- Floating-point rounding: doubles are `real`. `sigmoid`, `sqrt` (Bishop's
  rule) and `drand48` are function parameters.
- Integer widths: ints, `uint32_t` and `long` are unbounded. Exceptions:
  - the example-set constructors require the buffer size to fit in 32 bits;
  - header fields are read as 32-bit big-endian values.
- Negative arguments (`start`, `len`, counts, indices) are excluded by `nat`.
- `BPNet.SetH` and `BPNet.GetH` of the plain network are a no-op and 0, as
  written. They have no contract, and virtual dispatch between the classes is
  not modelled: each class calls its own members.
- Backprop.BPNet.TrainBatch, HInput.HInputNet.TrainBatch: require num >= 1;
  with num == 0 the source divides 1.0 by 0.
- The uninitialised modulator of `HInputNet`:
  - the constructor leaves the field arbitrary, as the source does;
  - `SetInputs` and `TrainBatch` use whatever it holds;
  - the source's requirement that setH precede setInputs is not enforced.
- OutputBlending.OutputBlendingNet.TrainBatch:
  - returns the trained example's error and the dispatch decision as ghost
    outputs;
  - with num != 1 the source builds an error it never throws, and the model
    likewise trains on one example;
  - `getOutputCount`, which it uses, is not in the modelled files; it is taken
    as the output layer's size.
- `trainSGD` is modelled only in its partition check and example schedule.
  Its shuffle and training call are placeholders that do not compile, so the
  rest of the loop is not modelled. The `initWeights` call before the loop is
  left out with them.
- `success`, the training run of `doPairing` and `booleanTest` are left out.
  They train networks and compare floating-point outputs.
- The four-argument `ExampleSet(n, nin, nout, levels)` constructor, used by
  `genBoolMap.cpp` and `test.hpp`, is not in the modelled files. The model
  uses the three-argument constructor of data.h and drops the level count.
- NetFactory.MakeNet:
  - hnodes is a `nat`;
  - for a tag other than PLAIN the source falls off the end without a
    return, which is `None` here;
  - the factory's own one-tag enum is modelled by the constants
    `FactoryPlain` and `FactoryMax`, separately from netType.hpp's four tags.
- The MNIST reader:
  - a file that ends inside the header field about to be read is rejected
    there (`ShortLabelHeader`, `ShortImageHeader`), whereas the source reads
    an indeterminate value for that field and goes on; every field the file
    does hold is checked first, in the source's order;
  - `dump` and the `r()`, `c()`, `getMaxLabel()` getters are left out
    (field reads only);
  - the `valid` flag is not kept.
- Backprop.BPNet.CalcError, Backprop.BPNet.CalcErrorPass, Backprop.BPNet.TrainExample,
  Backprop.BPNet.TrainExamples, Backprop.BPNet.AccumulateRows, Backprop.BPNet.TrainRows,
  Backprop.BPNet.TrainBatch, OutputBlending.OutputBlendingNet.TrainChosen,
  OutputBlending.OutputBlendingNet.TrainBatch, HInput.TrainModulated and
  HInput.HInputNet.TrainBatch use the corrected top-down error pass of the
  Findings. For networks of four or more layers the source's own upward
  order (`Backprop.BackpropagatedAsWritten`) gives other error terms and so
  other gradients; those as-written gradients are not modelled.
- HInput.HInputNet.GetLayerSize returns each requested size; the as-written
  value is `HInput.VisibleSizeAsWritten`, shown wrong by
  `HInput.VisibleSizeAsWrittenWrong` (see Findings).
- Alternation.Alternate and Data.ExampleSet.Shuffle use the corrected scan
  bound `j >= n` of the Findings. The as-written read past the array's end is
  modelled only by `Alternation.ScanAsWrittenLeavesArray`.
- Memory ownership (destructors, `new`/`delete`) and the addresses returned by
  `getInputs`/`getOutputs`. Writes through those addresses are the methods
  `SetInput` and `SetOutput`.

## Findings

| source | as written | input that shows it | evidently intended | confidence | as-written member | corrected member |
|---|---|---|---|---|---|---|
| data.hpp:28 | The scan stops only when `j > n`, so with `j == n` it reads `arr[n]`, one element past the end, and may swap it in. | `alternate` on a one-element array whose element fails the predicate at position 0 | stop when `j >= n` | not executed | Alternation.ScanAsWrittenLeavesArray | Alternation.FindFrom, Alternation.Alternate, Data.ExampleSet.Shuffle |
| hinet.hpp:52-57 | `getLayerSize(n)` for n != 0 returns the input layer's size. | requested sizes [2, 3, 1], layer 2 reports 3 | return layer n's own size | not executed | HInput.VisibleSizeAsWrittenWrong | HInput.HInputNet.GetLayerSize |
| bpnet.hpp:306-318 | calcError's hidden layers run from layer 1 upwards. Each reads the next layer's error row before that row is recomputed for this example. | four layers of one node, unit weights, outputs 0.5, target 0: layer 1 gets 0 instead of 1/128 | hidden layers from the output layer downwards | not executed | Backprop.AsWrittenStaleForFourLayers | Backprop.BPNet.CalcErrorPass, Backprop.BPNet.CalcError, Backprop.BPNet.TrainBatch |
