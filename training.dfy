/**
 * The trainer's bookkeeping: which parameter sets, optimiser states, counters,
 * metric accumulators, summary streams and checkpoints each step kind writes,
 * and how the epoch loop of `train` and the loop of `test` drive them.
 *
 * Nothing numeric is computed. A parameter set is the term of the updates
 * applied to it (`Updated(before, optimizer, gradient)`), a gradient names
 * its objective, the parameters the forward pass read and the batch, and a
 * metric accumulator is the list of readings fed into it.
 */
module Training {
  import opened Results
  import opened Dataset

  // ---------------------------------------------------------------------------
  // Symbolic state
  // ---------------------------------------------------------------------------

  datatype Slot = Net | PredictorR | PredictorG | PredictorB

  datatype OptimizerName = Optimizer | OptimizerColor

  /** The loss a gradient is taken of. */
  datatype Objective =
    | ClassifierAndMi  // classifier cross-entropy plus lambda times the self-distillation mean
    | Color            // the three colour losses, reversed on their way into the net
    | ClassifierOnly   // the baseline's classifier cross-entropy

  /** The value of one parameter set: its initial value and every update applied since. */
  datatype Params = Initial(slot: Slot) | Updated(before: Params, optimizer: OptimizerName, grad: Gradient)

  /** A gradient: its objective, the parameters the forward pass read, and the batch. */
  datatype Gradient = Gradient(objective: Objective, at: Snapshot, batch: Batch)

  /** The four parameter sets `net`, `pred_net_r`, `pred_net_g`, `pred_net_b`. */
  datatype Snapshot = Snapshot(net: Params, predR: Params, predG: Params, predB: Params)

  /** What one metric update was computed from: the parameters and the batch. */
  datatype Reading = Reading(at: Snapshot, batch: Batch)

  /** The four accumulators of one side (training or test), with what each was fed. */
  datatype Metrics = Metrics(
    classifierLoss: seq<Reading>,
    colorLoss: seq<Reading>,
    miLoss: seq<Reading>,
    classifierAccuracy: seq<Reading>)

  /** What `tf.train.Checkpoint` tracks: the parameters, both optimisers, both counters.
      An optimiser's state is the list of gradients it has applied. */
  datatype Checkpoint = Checkpoint(
    params: Snapshot,
    optimizer: seq<Gradient>,
    optimizerColor: seq<Gradient>,
    globalStep: int,
    globalEpoch: int)

  /** The whole trainer. The summary streams hold the step each record was tagged with. */
  datatype TrainerState = TrainerState(
    params: Snapshot,
    optimizer: seq<Gradient>,
    optimizerColor: seq<Gradient>,
    globalStep: int,
    globalEpoch: int,
    train: Metrics,
    test: Metrics,
    trainSummaries: seq<int>,
    valSummaries: seq<int>,
    saved: seq<Checkpoint>)

  const NoReadings := Metrics([], [], [], [])

  /** The trainer as `__init__` leaves it. */
  function Fresh(): TrainerState {
    TrainerState(
      Snapshot(Initial(Net), Initial(PredictorR), Initial(PredictorG), Initial(PredictorB)),
      [], [], 0, 0, NoReadings, NoReadings, [], [], [])
  }

  // ---------------------------------------------------------------------------
  // Which slots a transition writes
  // ---------------------------------------------------------------------------

  datatype Field =
    | NetParams | PredRParams | PredGParams | PredBParams
    | OptimizerState | OptimizerColorState
    | GlobalStep | GlobalEpoch
    | ClassifierLoss | ColorLoss | MiLoss | ClassifierAccuracy
    | TestClassifierLoss | TestColorLoss | TestMiLoss | TestClassifierAccuracy
    | TrainSummaries | ValSummaries | SavedCheckpoints

  /** The fields in which `s` and `t` differ. */
  function Changed(s: TrainerState, t: TrainerState): set<Field> {
    (if s.params.net == t.params.net then {} else {NetParams}) +
    (if s.params.predR == t.params.predR then {} else {PredRParams}) +
    (if s.params.predG == t.params.predG then {} else {PredGParams}) +
    (if s.params.predB == t.params.predB then {} else {PredBParams}) +
    (if s.optimizer == t.optimizer then {} else {OptimizerState}) +
    (if s.optimizerColor == t.optimizerColor then {} else {OptimizerColorState}) +
    (if s.globalStep == t.globalStep then {} else {GlobalStep}) +
    (if s.globalEpoch == t.globalEpoch then {} else {GlobalEpoch}) +
    (if s.train.classifierLoss == t.train.classifierLoss then {} else {ClassifierLoss}) +
    (if s.train.colorLoss == t.train.colorLoss then {} else {ColorLoss}) +
    (if s.train.miLoss == t.train.miLoss then {} else {MiLoss}) +
    (if s.train.classifierAccuracy == t.train.classifierAccuracy then {} else {ClassifierAccuracy}) +
    (if s.test.classifierLoss == t.test.classifierLoss then {} else {TestClassifierLoss}) +
    (if s.test.colorLoss == t.test.colorLoss then {} else {TestColorLoss}) +
    (if s.test.miLoss == t.test.miLoss then {} else {TestMiLoss}) +
    (if s.test.classifierAccuracy == t.test.classifierAccuracy then {} else {TestClassifierAccuracy}) +
    (if s.trainSummaries == t.trainSummaries then {} else {TrainSummaries}) +
    (if s.valSummaries == t.valSummaries then {} else {ValSummaries}) +
    (if s.saved == t.saved then {} else {SavedCheckpoints})
  }

  const Pass1Writes: set<Field> := {NetParams, OptimizerState, ClassifierLoss, MiLoss, ClassifierAccuracy}
  const Pass2Writes: set<Field> := {NetParams, PredRParams, PredGParams, PredBParams, OptimizerColorState, ColorLoss}
  const TrainStepWrites: set<Field> := Pass1Writes + Pass2Writes + {GlobalStep}
  const BaselineWrites: set<Field> := {NetParams, OptimizerState, ClassifierLoss, ClassifierAccuracy, GlobalStep}
  const TestStepWrites: set<Field> := {TestClassifierLoss, TestColorLoss, TestMiLoss, TestClassifierAccuracy}
  const CheckpointFields: set<Field> :=
    {NetParams, PredRParams, PredGParams, PredBParams, OptimizerState, OptimizerColorState, GlobalStep, GlobalEpoch}

  // ---------------------------------------------------------------------------
  // The step kinds
  // ---------------------------------------------------------------------------

  /** Pass 1 of `_train_step`: the classifier-and-self-distillation gradient
      updates only the net, through `optimizer`; the classifier loss, the
      self-distillation loss and the accuracy are fed from the parameters the
      forward pass read. Exactly these five slots change. */
  function AfterPass1(s: TrainerState, b: Batch): TrainerState
  {
    var g := Gradient(ClassifierAndMi, s.params, b);
    var r := Reading(s.params, b);
    s.(params := s.params.(net := Updated(s.params.net, Optimizer, g)),
       optimizer := s.optimizer + [g],
       train := s.train.(classifierLoss := s.train.classifierLoss + [r],
                         miLoss := s.train.miLoss + [r],
                         classifierAccuracy := s.train.classifierAccuracy + [r]))
  }

  /** Pass 2 of `_train_step`: one colour gradient, taken at the current
      parameters, updates the net and all three predictors through
      `optimizer_color`, and the colour loss is fed. Exactly these six slots change. */
  function AfterPass2(s: TrainerState, b: Batch): TrainerState
  {
    var g := Gradient(Color, s.params, b);
    var p := s.params;
    s.(params := Snapshot(Updated(p.net, OptimizerColor, g), Updated(p.predR, OptimizerColor, g),
                          Updated(p.predG, OptimizerColor, g), Updated(p.predB, OptimizerColor, g)),
       optimizerColor := s.optimizerColor + [g],
       train := s.train.(colorLoss := s.train.colorLoss + [Reading(p, b)]))
  }

  /** `_train_step`: pass 1, then pass 2, then one increment of `global_step`. */
  function AfterTrainStep(s: TrainerState, b: Batch): TrainerState
  {
    var u := AfterPass2(AfterPass1(s, b), b);
    u.(globalStep := u.globalStep + 1)
  }

  /** `_train_step_baseline`: one classifier gradient updates the net through
      `optimizer`; the classifier loss and accuracy are fed; `global_step`
      rises by one. The predictors, `optimizer_color`, the colour and
      self-distillation losses are never touched. */
  function AfterBaselineStep(s: TrainerState, b: Batch): TrainerState
  {
    var g := Gradient(ClassifierOnly, s.params, b);
    var r := Reading(s.params, b);
    s.(params := s.params.(net := Updated(s.params.net, Optimizer, g)),
       optimizer := s.optimizer + [g],
       globalStep := s.globalStep + 1,
       train := s.train.(classifierLoss := s.train.classifierLoss + [r],
                         classifierAccuracy := s.train.classifierAccuracy + [r]))
  }

  /** `_test_step`: a forward pass only; the four test accumulators are fed
      and nothing else changes. */
  function AfterTestStep(s: TrainerState, b: Batch): TrainerState
  {
    var r := Reading(s.params, b);
    s.(test := Metrics(s.test.classifierLoss + [r], s.test.colorLoss + [r],
                       s.test.miLoss + [r], s.test.classifierAccuracy + [r]))
  }

  /** Pass 1 writes exactly the net, `optimizer` and the classifier,
      self-distillation and accuracy accumulators. */
  lemma Pass1Frame(s: TrainerState, b: Batch)
    ensures Changed(s, AfterPass1(s, b)) == Pass1Writes
  {
  }

  /** Pass 2 writes exactly the net, the three predictors, `optimizer_color`
      and the colour-loss accumulator. */
  lemma Pass2Frame(s: TrainerState, b: Batch)
    ensures Changed(s, AfterPass2(s, b)) == Pass2Writes
  {
  }

  /** `_train_step` writes exactly what its two passes write, and `global_step`. */
  lemma TrainStepFrame(s: TrainerState, b: Batch)
    ensures Changed(s, AfterTrainStep(s, b)) == TrainStepWrites
  {
  }

  /** `_train_step_baseline` writes exactly the net, `optimizer`, the
      classifier loss and accuracy, and `global_step`. */
  lemma BaselineStepFrame(s: TrainerState, b: Batch)
    ensures Changed(s, AfterBaselineStep(s, b)) == BaselineWrites
  {
  }

  /** `_test_step` writes exactly the four test accumulators. */
  lemma TestStepFrame(s: TrainerState, b: Batch)
    ensures Changed(s, AfterTestStep(s, b)) == TestStepWrites
  {
  }

  /** Pass 2 reads the net that pass 1 left: its gradient is taken at the
      parameters after the pass-1 update, and each predictor receives that gradient. */
  lemma PassTwoReadsPassOne(s: TrainerState, b: Batch)
    ensures var p1 := AfterPass1(s, b).params;
      p1.net != s.params.net &&
      p1.predR == s.params.predR && p1.predG == s.params.predG && p1.predB == s.params.predB &&
      AfterTrainStep(s, b).params.net == Updated(p1.net, OptimizerColor, Gradient(Color, p1, b)) &&
      AfterTrainStep(s, b).params.predR == Updated(s.params.predR, OptimizerColor, Gradient(Color, p1, b)) &&
      AfterTrainStep(s, b).params.predG == Updated(s.params.predG, OptimizerColor, Gradient(Color, p1, b)) &&
      AfterTrainStep(s, b).params.predB == Updated(s.params.predB, OptimizerColor, Gradient(Color, p1, b))
  {
  }

  // ---------------------------------------------------------------------------
  // Loops over batches
  // ---------------------------------------------------------------------------

  /** The step `train` selected, followed by `_write_summary_train(global_step)`. */
  function AfterLoggedStep(s: TrainerState, b: Batch, baseline: bool): TrainerState {
    var t := if baseline then AfterBaselineStep(s, b) else AfterTrainStep(s, b);
    t.(trainSummaries := t.trainSummaries + [t.globalStep])
  }

  /** One pass of the inner loop of `train` over the training batches. */
  function AfterBatches(s: TrainerState, batches: seq<Batch>, baseline: bool): TrainerState
    decreases |batches|
  {
    if batches == [] then s else AfterBatches(AfterLoggedStep(s, batches[0], baseline), batches[1..], baseline)
  }

  /** The loop over the test set in `train` and `test`. */
  function AfterTestSet(s: TrainerState, batches: seq<Batch>): TrainerState
    decreases |batches|
  {
    if batches == [] then s else AfterTestSet(AfterTestStep(s, batches[0]), batches[1..])
  }

  /** `[first, first + 1, ..., first + n - 1]`. */
  function Consecutive(first: int, n: nat): seq<int>
  {
    seq(n, i => first + i)
  }

  /** One step of the inner loop raises `global_step` by one and tags the
      training summary with the new value; it feeds `optimizer` and the
      classifier metrics once, and the colour side once unless training the
      baseline; the epoch, test, validation and checkpoint slots stay. */
  lemma LoggedStepBookkeeping(s: TrainerState, b: Batch, baseline: bool)
    ensures var t, k := AfterLoggedStep(s, b, baseline), if baseline then 0 else 1;
      t.globalStep == s.globalStep + 1 &&
      t.trainSummaries == s.trainSummaries + [s.globalStep + 1] &&
      t.globalEpoch == s.globalEpoch && t.test == s.test &&
      t.valSummaries == s.valSummaries && t.saved == s.saved &&
      |t.optimizer| == |s.optimizer| + 1 &&
      |t.optimizerColor| == |s.optimizerColor| + k &&
      t.train.classifierLoss == s.train.classifierLoss + [Reading(s.params, b)] &&
      t.train.classifierAccuracy == s.train.classifierAccuracy + [Reading(s.params, b)] &&
      t.train.miLoss == s.train.miLoss + (if baseline then [] else [Reading(s.params, b)]) &&
      |t.train.colorLoss| == |s.train.colorLoss| + k && s.train.colorLoss <= t.train.colorLoss &&
      (baseline ==> t.params.predR == s.params.predR && t.params.predG == s.params.predG &&
                    t.params.predB == s.params.predB && t.optimizerColor == s.optimizerColor &&
                    t.train.colorLoss == s.train.colorLoss)
  {
  }

  /** An epoch's worth of steps raises `global_step` by the number of batches;
      the epoch, test, validation and checkpoint slots stay. */
  lemma {:induction false} BatchesCounters(s: TrainerState, batches: seq<Batch>, baseline: bool)
    ensures var t := AfterBatches(s, batches, baseline);
      t.globalStep == s.globalStep + |batches| &&
      t.globalEpoch == s.globalEpoch && t.test == s.test &&
      t.valSummaries == s.valSummaries && t.saved == s.saved
    decreases |batches|
  {
    if batches != [] {
      LoggedStepBookkeeping(s, batches[0], baseline);
      BatchesCounters(AfterLoggedStep(s, batches[0], baseline), batches[1..], baseline);
    }
  }

  /** The training summaries of an epoch's worth of steps are tagged with
      consecutive steps, each the value `global_step` reached. */
  lemma {:induction false} BatchesSummaries(s: TrainerState, batches: seq<Batch>, baseline: bool)
    ensures AfterBatches(s, batches, baseline).trainSummaries == s.trainSummaries + Consecutive(s.globalStep + 1, |batches|)
    decreases |batches|
  {
    if batches != [] {
      LoggedStepBookkeeping(s, batches[0], baseline);
      BatchesSummaries(AfterLoggedStep(s, batches[0], baseline), batches[1..], baseline);
      assert [s.globalStep + 1] + Consecutive(s.globalStep + 2, |batches| - 1) == Consecutive(s.globalStep + 1, |batches|);
    }
  }

  /** An epoch's worth of steps feeds the classifier metrics once per batch,
      the colour and self-distillation metrics once per batch unless training
      the baseline, and only ever appends readings. */
  lemma {:induction false} BatchesFeeds(s: TrainerState, batches: seq<Batch>, baseline: bool)
    ensures var t, k := AfterBatches(s, batches, baseline), if baseline then 0 else |batches|;
      |t.optimizer| == |s.optimizer| + |batches| &&
      |t.optimizerColor| == |s.optimizerColor| + k &&
      |t.train.classifierLoss| == |s.train.classifierLoss| + |batches| &&
      |t.train.classifierAccuracy| == |s.train.classifierAccuracy| + |batches| &&
      |t.train.colorLoss| == |s.train.colorLoss| + k &&
      |t.train.miLoss| == |s.train.miLoss| + k &&
      s.train.classifierLoss <= t.train.classifierLoss &&
      s.train.classifierAccuracy <= t.train.classifierAccuracy &&
      s.train.colorLoss <= t.train.colorLoss &&
      s.train.miLoss <= t.train.miLoss
    decreases |batches|
  {
    if batches != [] {
      var u := AfterLoggedStep(s, batches[0], baseline);
      LoggedStepBookkeeping(s, batches[0], baseline);
      BatchesFeeds(u, batches[1..], baseline);
    }
  }

  /** Training the baseline leaves the predictors, `optimizer_color`, the
      colour loss and the self-distillation loss exactly as they were. */
  lemma {:induction false} BaselineBatchesUntouched(s: TrainerState, batches: seq<Batch>)
    ensures var t := AfterBatches(s, batches, true);
      t.params.predR == s.params.predR && t.params.predG == s.params.predG &&
      t.params.predB == s.params.predB && t.optimizerColor == s.optimizerColor &&
      t.train.colorLoss == s.train.colorLoss && t.train.miLoss == s.train.miLoss
    decreases |batches|
  {
    if batches != [] {
      LoggedStepBookkeeping(s, batches[0], true);
      BaselineBatchesUntouched(AfterLoggedStep(s, batches[0], true), batches[1..]);
    }
  }

  /** A pass over the test set changes no parameters, optimiser, counter,
      training metric or summary: it appends one reading per batch, all taken
      at the same parameters, to each of the four test accumulators. */
  lemma {:induction false} TestSetBookkeeping(s: TrainerState, batches: seq<Batch>)
    ensures var t, fed := AfterTestSet(s, batches), seq(|batches|, i requires 0 <= i < |batches| => Reading(s.params, batches[i]));
      t == s.(test := Metrics(s.test.classifierLoss + fed, s.test.colorLoss + fed,
                              s.test.miLoss + fed, s.test.classifierAccuracy + fed))
    decreases |batches|
  {
    if batches != [] {
      var u := AfterTestStep(s, batches[0]);
      TestSetBookkeeping(u, batches[1..]);
      var fed := seq(|batches|, i requires 0 <= i < |batches| => Reading(s.params, batches[i]));
      var rest := seq(|batches| - 1, i requires 0 <= i < |batches| - 1 => Reading(s.params, batches[1..][i]));
      assert fed == [Reading(s.params, batches[0])] + rest;
    }
  }

  // ---------------------------------------------------------------------------
  // The epoch loop
  // ---------------------------------------------------------------------------

  /** The epochs among `lo`..`hi`-1 after which the test set is evaluated. */
  function ValidationEpochs(lo: int, hi: int): seq<int>
    decreases hi - lo
  {
    if hi <= lo then [] else (if lo % 5 == 0 then [lo] else []) + ValidationEpochs(lo + 1, hi)
  }

  /** The steps the validation summaries of epochs `lo`..`hi`-1 are tagged
      with, when `global_step` starts at `step` and each epoch has `n` batches. */
  function ValidationSteps(lo: int, hi: int, step: int, n: int): seq<int>
    decreases hi - lo
  {
    if hi <= lo then [] else (if lo % 5 == 0 then [step + n] else []) + ValidationSteps(lo + 1, hi, step + n, n)
  }

  /** The number of epochs `range(lo, hi)` runs. */
  function EpochsRun(lo: int, hi: int): nat
  {
    if lo < hi then hi - lo else 0
  }

  /** Validation happens after exactly the epochs in [lo, hi) divisible by 5,
      in increasing order. */
  lemma {:induction false} ValidationEpochsExactly(lo: int, hi: int)
    ensures forall e :: e in ValidationEpochs(lo, hi) <==> lo <= e < hi && e % 5 == 0
    ensures forall i, j :: 0 <= i < j < |ValidationEpochs(lo, hi)| ==> ValidationEpochs(lo, hi)[i] < ValidationEpochs(lo, hi)[j]
    decreases hi - lo
  {
    if lo < hi {
      ValidationEpochsExactly(lo + 1, hi);
      var v, w := ValidationEpochs(lo, hi), ValidationEpochs(lo + 1, hi);
      var k := if lo % 5 == 0 then 1 else 0;
      assert v == (if lo % 5 == 0 then [lo] else []) + w;
      assert forall i :: k <= i < |v| ==> v[i] == w[i - k];
      forall e
        ensures e in v <==> lo <= e < hi && e % 5 == 0
      {
        assert e in v <==> (e == lo && k == 1) || e in w;
        assert e in w <==> lo + 1 <= e < hi && e % 5 == 0;
      }
      forall i, j | 0 <= i < j < |v|
        ensures v[i] < v[j]
      {
        if i < k {
          assert v[i] == lo;
          assert v[j] == w[j - k] && w[j - k] in w;
        } else {
          assert v[i] == w[i - k] && v[j] == w[j - k];
        }
      }
    }
  }

  /** The validation summary after epoch e is tagged with the step reached at
      the end of that epoch: the starting step plus (e - lo + 1) epochs of batches. */
  lemma {:induction false} ValidationStepsAt(lo: int, hi: int, step: int, n: int)
    ensures var v, w := ValidationEpochs(lo, hi), ValidationSteps(lo, hi, step, n);
      |w| == |v| && forall i :: 0 <= i < |w| ==> w[i] == step + (v[i] - lo + 1) * n
    decreases hi - lo
  {
    if lo < hi {
      ValidationStepsAt(lo + 1, hi, step + n, n);
      var v, w := ValidationEpochs(lo, hi), ValidationSteps(lo, hi, step, n);
      var v', w' := ValidationEpochs(lo + 1, hi), ValidationSteps(lo + 1, hi, step + n, n);
      var k := if lo % 5 == 0 then 1 else 0;
      assert |w| == |v|;
      forall i | k <= i < |w|
        ensures w[i] == step + (v[i] - lo + 1) * n
      {
        assert w[i] == w'[i - k] && v[i] == v'[i - k];
        assert (v[i] - lo) * n + n == (v[i] - lo + 1) * n;
      }
    }
  }

  /** The body of the epoch loop of `train`: one pass over the training
      batches, one increment of `global_epoch`, and on an epoch divisible by 5
      one pass over the test set and a validation summary. */
  function AfterEpoch(s: TrainerState, epoch: int, trainSet: seq<Batch>, testSet: seq<Batch>, baseline: bool): TrainerState {
    var t := AfterBatches(s, trainSet, baseline);
    var u := t.(globalEpoch := t.globalEpoch + 1);
    if epoch % 5 == 0 then
      var v := AfterTestSet(u, testSet);
      v.(valSummaries := v.valSummaries + [v.globalStep])
    else
      u
  }

  /** The body of the epoch loop as a function of the state and the epoch. */
  function EpochBody(trainSet: seq<Batch>, testSet: seq<Batch>, baseline: bool): (TrainerState, int) -> TrainerState {
    (s: TrainerState, epoch: int) => AfterEpoch(s, epoch, trainSet, testSet, baseline)
  }

  /** `for epoch in range(lo, hi): body`. */
  function Loop(body: (TrainerState, int) -> TrainerState, s: TrainerState, lo: int, hi: int): TrainerState
    decreases hi - lo
  {
    if hi <= lo then s else Loop(body, body(s, lo), lo + 1, hi)
  }

  /** The epoch loop of `train` over epochs lo..hi-1. */
  function AfterEpochs(s: TrainerState, lo: int, hi: int, trainSet: seq<Batch>, testSet: seq<Batch>, baseline: bool): TrainerState {
    Loop(EpochBody(trainSet, testSet, baseline), s, lo, hi)
  }

  /** What one epoch does, with `n` training and `m` test batches: `global_epoch`
      and `global_step` rise by one and by `n`; on an epoch divisible by 5 each
      test accumulator is fed `m` times and one validation summary is tagged
      with the step reached; the classifier loss is fed `n` times, no training
      accumulator loses a reading, and no checkpoint is written. */
  predicate EpochStep(t: TrainerState, s: TrainerState, epoch: int, n: int, m: int) {
    var v := if epoch % 5 == 0 then m else 0;
    t.globalEpoch == s.globalEpoch + 1 &&
    t.globalStep == s.globalStep + n &&
    t.valSummaries == s.valSummaries + (if epoch % 5 == 0 then [s.globalStep + n] else []) &&
    |t.test.classifierLoss| == |s.test.classifierLoss| + v &&
    |t.test.colorLoss| == |s.test.colorLoss| + v &&
    |t.test.miLoss| == |s.test.miLoss| + v &&
    |t.test.classifierAccuracy| == |s.test.classifierAccuracy| + v &&
    |t.train.classifierLoss| == |s.train.classifierLoss| + n &&
    s.train.classifierLoss <= t.train.classifierLoss &&
    s.train.colorLoss <= t.train.colorLoss &&
    s.train.miLoss <= t.train.miLoss &&
    s.train.classifierAccuracy <= t.train.classifierAccuracy &&
    t.saved == s.saved
  }

  /** The predictors, `optimizer_color`, the colour loss and the
      self-distillation loss are as they were. */
  predicate KeepsColourSide(t: TrainerState, s: TrainerState) {
    t.params.predR == s.params.predR && t.params.predG == s.params.predG &&
    t.params.predB == s.params.predB && t.optimizerColor == s.optimizerColor &&
    t.train.colorLoss == s.train.colorLoss && t.train.miLoss == s.train.miLoss
  }

  ghost predicate EveryEpoch(body: (TrainerState, int) -> TrainerState, n: int, m: int) {
    forall s: TrainerState, epoch: int :: EpochStep(body(s, epoch), s, epoch, n, m)
  }

  ghost predicate EveryEpochKeepsColourSide(body: (TrainerState, int) -> TrainerState) {
    forall s: TrainerState, epoch: int :: KeepsColourSide(body(s, epoch), s)
  }

  /** One epoch of `train` is an EpochStep over its training and test
      batches, and under the baseline it keeps the colour side. */
  lemma EpochBookkeeping(s: TrainerState, epoch: int, trainSet: seq<Batch>, testSet: seq<Batch>, baseline: bool)
    ensures EpochStep(AfterEpoch(s, epoch, trainSet, testSet, baseline), s, epoch, |trainSet|, |testSet|)
    ensures baseline ==> KeepsColourSide(AfterEpoch(s, epoch, trainSet, testSet, baseline), s)
  {
    var a := AfterBatches(s, trainSet, baseline);
    BatchesCounters(s, trainSet, baseline);
    BatchesFeeds(s, trainSet, baseline);
    if baseline {
      BaselineBatchesUntouched(s, trainSet);
    }
    TestSetBookkeeping(a.(globalEpoch := a.globalEpoch + 1), testSet);
  }

  lemma EpochBodyBookkeeping(trainSet: seq<Batch>, testSet: seq<Batch>, baseline: bool)
    ensures EveryEpoch(EpochBody(trainSet, testSet, baseline), |trainSet|, |testSet|)
    ensures baseline ==> EveryEpochKeepsColourSide(EpochBody(trainSet, testSet, baseline))
  {
    forall s: TrainerState, epoch: int
      ensures EpochStep(EpochBody(trainSet, testSet, baseline)(s, epoch), s, epoch, |trainSet|, |testSet|)
      ensures baseline ==> KeepsColourSide(EpochBody(trainSet, testSet, baseline)(s, epoch), s)
    {
      EpochBookkeeping(s, epoch, trainSet, testSet, baseline);
    }
  }

  /** Counters, validation stream and store over a loop of EpochSteps. */
  lemma {:induction false} LoopCounters(body: (TrainerState, int) -> TrainerState, s: TrainerState, lo: int, hi: int, n: int, m: int)
    requires EveryEpoch(body, n, m)
    ensures var t, k := Loop(body, s, lo, hi), EpochsRun(lo, hi);
      t.globalEpoch == s.globalEpoch + k &&
      t.globalStep == s.globalStep + k * n &&
      t.valSummaries == s.valSummaries + ValidationSteps(lo, hi, s.globalStep, n) &&
      t.saved == s.saved
    decreases hi - lo
  {
    if lo < hi {
      assert EpochStep(body(s, lo), s, lo, n, m);
      LoopCounters(body, body(s, lo), lo + 1, hi, n, m);
      var k := EpochsRun(lo, hi);
      assert (k - 1) * n + n == k * n;
    }
  }

  /** Test accumulators over a loop of EpochSteps. */
  lemma {:induction false} LoopTestFeeds(body: (TrainerState, int) -> TrainerState, s: TrainerState, lo: int, hi: int, n: int, m: int)
    requires EveryEpoch(body, n, m)
    ensures var t, v := Loop(body, s, lo, hi), |ValidationEpochs(lo, hi)| * m;
      |t.test.classifierLoss| == |s.test.classifierLoss| + v &&
      |t.test.colorLoss| == |s.test.colorLoss| + v &&
      |t.test.miLoss| == |s.test.miLoss| + v &&
      |t.test.classifierAccuracy| == |s.test.classifierAccuracy| + v
    decreases hi - lo
  {
    if lo < hi {
      assert EpochStep(body(s, lo), s, lo, n, m);
      LoopTestFeeds(body, body(s, lo), lo + 1, hi, n, m);
      var w := |ValidationEpochs(lo + 1, hi)|;
      assert (w + 1) * m == w * m + m;
    }
  }

  /** Training accumulators over a loop of EpochSteps. */
  lemma {:induction false} LoopTrainFeeds(body: (TrainerState, int) -> TrainerState, s: TrainerState, lo: int, hi: int, n: int, m: int)
    requires EveryEpoch(body, n, m)
    ensures var t := Loop(body, s, lo, hi);
      |t.train.classifierLoss| == |s.train.classifierLoss| + EpochsRun(lo, hi) * n &&
      s.train.classifierLoss <= t.train.classifierLoss &&
      s.train.colorLoss <= t.train.colorLoss &&
      s.train.miLoss <= t.train.miLoss &&
      s.train.classifierAccuracy <= t.train.classifierAccuracy
    decreases hi - lo
  {
    if lo < hi {
      assert EpochStep(body(s, lo), s, lo, n, m);
      LoopTrainFeeds(body, body(s, lo), lo + 1, hi, n, m);
      var k := EpochsRun(lo, hi);
      assert (k - 1) * n + n == k * n;
    }
  }

  lemma {:induction false} LoopKeepsColourSide(body: (TrainerState, int) -> TrainerState, s: TrainerState, lo: int, hi: int)
    requires EveryEpochKeepsColourSide(body)
    ensures KeepsColourSide(Loop(body, s, lo, hi), s)
    decreases hi - lo
  {
    if lo < hi {
      assert KeepsColourSide(body(s, lo), s);
      LoopKeepsColourSide(body, body(s, lo), lo + 1, hi);
    }
  }

  /** Epochs lo..hi-1 raise `global_epoch` by one each and `global_step` by
      the number of batches each; the validation summaries are exactly those
      of the epochs divisible by 5, and no checkpoint is written. */
  lemma EpochsCounters(s: TrainerState, lo: int, hi: int, trainSet: seq<Batch>, testSet: seq<Batch>, baseline: bool)
    ensures var t, k := AfterEpochs(s, lo, hi, trainSet, testSet, baseline), EpochsRun(lo, hi);
      t.globalEpoch == s.globalEpoch + k &&
      t.globalStep == s.globalStep + k * |trainSet| &&
      t.valSummaries == s.valSummaries + ValidationSteps(lo, hi, s.globalStep, |trainSet|) &&
      t.saved == s.saved
  {
    EpochBodyBookkeeping(trainSet, testSet, baseline);
    LoopCounters(EpochBody(trainSet, testSet, baseline), s, lo, hi, |trainSet|, |testSet|);
  }

  /** Over epochs lo..hi-1 each test accumulator is fed once per test batch
      per validation. */
  lemma EpochsTestFeeds(s: TrainerState, lo: int, hi: int, trainSet: seq<Batch>, testSet: seq<Batch>, baseline: bool)
    ensures var t, v := AfterEpochs(s, lo, hi, trainSet, testSet, baseline), |ValidationEpochs(lo, hi)| * |testSet|;
      |t.test.classifierLoss| == |s.test.classifierLoss| + v &&
      |t.test.colorLoss| == |s.test.colorLoss| + v &&
      |t.test.miLoss| == |s.test.miLoss| + v &&
      |t.test.classifierAccuracy| == |s.test.classifierAccuracy| + v
  {
    EpochBodyBookkeeping(trainSet, testSet, baseline);
    LoopTestFeeds(EpochBody(trainSet, testSet, baseline), s, lo, hi, |trainSet|, |testSet|);
  }

  /** Over epochs lo..hi-1 the classifier loss is fed once per training batch
      per epoch, and the training accumulators are never reset: they only grow. */
  lemma EpochsTrainFeeds(s: TrainerState, lo: int, hi: int, trainSet: seq<Batch>, testSet: seq<Batch>, baseline: bool)
    ensures var t := AfterEpochs(s, lo, hi, trainSet, testSet, baseline);
      |t.train.classifierLoss| == |s.train.classifierLoss| + EpochsRun(lo, hi) * |trainSet| &&
      s.train.classifierLoss <= t.train.classifierLoss &&
      s.train.colorLoss <= t.train.colorLoss &&
      s.train.miLoss <= t.train.miLoss &&
      s.train.classifierAccuracy <= t.train.classifierAccuracy
  {
    EpochBodyBookkeeping(trainSet, testSet, baseline);
    LoopTrainFeeds(EpochBody(trainSet, testSet, baseline), s, lo, hi, |trainSet|, |testSet|);
  }

  /** With the baseline, the predictors, `optimizer_color`, the colour loss
      and the self-distillation loss stay as they were through every epoch. */
  lemma BaselineEpochsUntouched(s: TrainerState, lo: int, hi: int, trainSet: seq<Batch>, testSet: seq<Batch>)
    ensures KeepsColourSide(AfterEpochs(s, lo, hi, trainSet, testSet, true), s)
  {
    EpochBodyBookkeeping(trainSet, testSet, true);
    LoopKeepsColourSide(EpochBody(trainSet, testSet, true), s, lo, hi);
  }

  // ---------------------------------------------------------------------------
  // Checkpoints, train and test
  // ---------------------------------------------------------------------------

  /** The checkpoint of a state. */
  function Capture(s: TrainerState): Checkpoint {
    Checkpoint(s.params, s.optimizer, s.optimizerColor, s.globalStep, s.globalEpoch)
  }

  /** `_restore_checkpoint`: the latest checkpoint, when there is one that
      loads, replaces every tracked slot; otherwise nothing changes. */
  function AfterRestore(s: TrainerState, latest: Option<Checkpoint>): TrainerState
  {
    if latest.None? then s
    else
      var c := latest.value;
      s.(params := c.params, optimizer := c.optimizer, optimizerColor := c.optimizerColor,
         globalStep := c.globalStep, globalEpoch := c.globalEpoch)
  }

  /** `_save_checkpoint`: the tracked slots are written to the store. */
  function AfterSave(s: TrainerState): TrainerState
  {
    s.(saved := s.saved + [Capture(s)])
  }

  /** Restoring writes only tracked slots; saving writes only the store. */
  lemma CheckpointFrames(s: TrainerState, latest: Option<Checkpoint>)
    ensures Changed(s, AfterRestore(s, latest)) <= CheckpointFields
    ensures Changed(s, AfterSave(s)) == {SavedCheckpoints}
  {
  }

  /** Restoring the checkpoint just saved brings back every tracked slot,
      whatever happened in between, and changes nothing untracked. */
  lemma CheckpointRoundTrip(s: TrainerState, later: TrainerState)
    ensures var saved := AfterSave(s).saved;
      var t := AfterRestore(later, Some(saved[|saved| - 1]));
      Capture(t) == Capture(s) && Changed(later, t) <= CheckpointFields
  {
    var saved := AfterSave(s).saved;
    CheckpointFrames(later, Some(saved[|saved| - 1]));
  }

  /** `train`: restore, run epochs `global_epoch`..`max_epoch`-1, save. */
  function AfterTrain(s: TrainerState, latest: Option<Checkpoint>, trainSet: seq<Batch>, testSet: seq<Batch>,
                      baseline: bool, maxEpoch: int): TrainerState
  {
    var r := AfterRestore(s, latest);
    AfterSave(AfterEpochs(r, r.globalEpoch, maxEpoch, trainSet, testSet, baseline))
  }

  /** `test`: restore, then one pass over the test set. */
  function AfterTest(s: TrainerState, latest: Option<Checkpoint>, testSet: seq<Batch>): TrainerState {
    AfterTestSet(AfterRestore(s, latest), testSet)
  }

  /** `train` resumes from the restored `global_epoch` and ends with
      `global_epoch` = max(start, max_epoch) and `global_step` raised by the
      batches of every epoch run; validation is logged after exactly the
      epochs divisible by 5, and one checkpoint of the final slots is written. */
  lemma TrainBookkeeping(s: TrainerState, latest: Option<Checkpoint>, trainSet: seq<Batch>, testSet: seq<Batch>,
                         baseline: bool, maxEpoch: int)
    ensures var r, t := AfterRestore(s, latest), AfterTrain(s, latest, trainSet, testSet, baseline, maxEpoch);
      var start := if latest.Some? then latest.value.globalEpoch else s.globalEpoch;
      var step := if latest.Some? then latest.value.globalStep else s.globalStep;
      t.globalEpoch == (if start < maxEpoch then maxEpoch else start) &&
      t.globalStep == step + EpochsRun(start, maxEpoch) * |trainSet| &&
      t.valSummaries == s.valSummaries + ValidationSteps(start, maxEpoch, step, |trainSet|) &&
      t.saved == s.saved + [Capture(t)]
  {
    var r := AfterRestore(s, latest);
    EpochsCounters(r, r.globalEpoch, maxEpoch, trainSet, testSet, baseline);
  }

  /** In `train` the test set is evaluated after exactly the epochs from the
      restored `global_epoch` up to `max_epoch` that are divisible by 5, in
      order; the i-th validation summary is tagged with the step reached at
      the end of the i-th such epoch, and each test accumulator is fed once
      per test batch per validation. */
  lemma TrainValidation(s: TrainerState, latest: Option<Checkpoint>, trainSet: seq<Batch>, testSet: seq<Batch>,
                        baseline: bool, maxEpoch: int)
    ensures var r, t := AfterRestore(s, latest), AfterTrain(s, latest, trainSet, testSet, baseline, maxEpoch);
      var v := ValidationEpochs(r.globalEpoch, maxEpoch);
      (forall e :: e in v <==> r.globalEpoch <= e < maxEpoch && e % 5 == 0) &&
      (forall i, j :: 0 <= i < j < |v| ==> v[i] < v[j]) &&
      |t.valSummaries| == |s.valSummaries| + |v| &&
      (forall i :: 0 <= i < |v| ==>
        t.valSummaries[|s.valSummaries| + i] == r.globalStep + (v[i] - r.globalEpoch + 1) * |trainSet|) &&
      |t.test.classifierLoss| == |s.test.classifierLoss| + |v| * |testSet| &&
      |t.test.colorLoss| == |s.test.colorLoss| + |v| * |testSet| &&
      |t.test.miLoss| == |s.test.miLoss| + |v| * |testSet| &&
      |t.test.classifierAccuracy| == |s.test.classifierAccuracy| + |v| * |testSet|
  {
    var r := AfterRestore(s, latest);
    EpochsCounters(r, r.globalEpoch, maxEpoch, trainSet, testSet, baseline);
    EpochsTestFeeds(r, r.globalEpoch, maxEpoch, trainSet, testSet, baseline);
    ValidationEpochsExactly(r.globalEpoch, maxEpoch);
    ValidationStepsAt(r.globalEpoch, maxEpoch, r.globalStep, |trainSet|);
  }

  /** `train` never resets the training accumulators: whatever they held
      before is a prefix of what they hold after, and the classifier loss
      gains one reading per batch per epoch run. */
  lemma TrainKeepsTrainingMetrics(s: TrainerState, latest: Option<Checkpoint>, trainSet: seq<Batch>, testSet: seq<Batch>,
                                  baseline: bool, maxEpoch: int)
    ensures var r, t := AfterRestore(s, latest), AfterTrain(s, latest, trainSet, testSet, baseline, maxEpoch);
      |t.train.classifierLoss| == |s.train.classifierLoss| + EpochsRun(r.globalEpoch, maxEpoch) * |trainSet| &&
      s.train.classifierLoss <= t.train.classifierLoss &&
      s.train.colorLoss <= t.train.colorLoss &&
      s.train.miLoss <= t.train.miLoss &&
      s.train.classifierAccuracy <= t.train.classifierAccuracy
  {
    var r := AfterRestore(s, latest);
    EpochsTrainFeeds(r, r.globalEpoch, maxEpoch, trainSet, testSet, baseline);
  }

  /** `test` changes only the test accumulators, each fed once per test batch
      at the restored parameters. */
  lemma TestBookkeeping(s: TrainerState, latest: Option<Checkpoint>, testSet: seq<Batch>)
    ensures var r, t := AfterRestore(s, latest), AfterTest(s, latest, testSet);
      var fed := seq(|testSet|, i requires 0 <= i < |testSet| => Reading(r.params, testSet[i]));
      Changed(r, t) <= TestStepWrites &&
      t.test.classifierLoss == s.test.classifierLoss + fed &&
      t.test.colorLoss == s.test.colorLoss + fed &&
      t.test.miLoss == s.test.miLoss + fed &&
      t.test.classifierAccuracy == s.test.classifierAccuracy + fed
  {
    TestSetBookkeeping(AfterRestore(s, latest), testSet);
  }

  /** A fresh trainer over 256 samples in batches of 32, one epoch, adversarial:
      eight steps, one epoch, each training metric fed eight times, one
      validation tagged with step 8, one checkpoint. */
  lemma OneEpochScenario(dimBias: int, resize: Image -> Image,
                         trainImages: seq<RawImage>, trainLabels: seq<int>,
                         testImages: seq<RawImage>, testLabels: seq<int>)
    requires 1 <= dimBias <= 256
    requires |trainImages| == |trainLabels| == 256
    requires |testImages| == |testLabels|
    ensures var data := PreprocessDataset(dimBias, resize, trainImages, trainLabels, testImages, testLabels, 32);
      data.Ok? &&
      var t := AfterTrain(Fresh(), None, data.value.0, data.value.1, false, 1);
      t.globalStep == 8 && t.globalEpoch == 1 &&
      |t.train.classifierLoss| == 8 && |t.train.colorLoss| == 8 &&
      |t.train.miLoss| == 8 && |t.train.classifierAccuracy| == 8 &&
      t.valSummaries == [8] && |t.saved| == 1
  {
    PreprocessDatasetOutcome(dimBias, resize, trainImages, trainLabels, testImages, testLabels, 32);
    var data := PreprocessDataset(dimBias, resize, trainImages, trainLabels, testImages, testLabels, 32);
    var trainSet, testSet := data.value.0, data.value.1;
    assert |trainSet| == 8;
    var s := Fresh();
    EpochsCounters(s, 0, 1, trainSet, testSet, false);
    BatchesFeeds(s, trainSet, false);
    var a := AfterBatches(s, trainSet, false);
    TestSetBookkeeping(a.(globalEpoch := a.globalEpoch + 1), testSet);
    var body := EpochBody(trainSet, testSet, false);
    assert AfterEpochs(s, 0, 1, trainSet, testSet, false) == Loop(body, body(s, 0), 1, 1) == body(s, 0);
    assert body(s, 0).train == a.train;
    assert ValidationSteps(0, 1, 0, 8) == [8];
  }

  // ---------------------------------------------------------------------------
  // The trainer object
  // ---------------------------------------------------------------------------

  class Trainer {
    const trainBaseline: bool
    const maxEpoch: int

    /** `net`, `pred_net_r`, `pred_net_g` and `pred_net_b`. */
    var nets: Snapshot
    var optimizer: seq<Gradient>
    var optimizerColor: seq<Gradient>
    var globalStep: int
    var globalEpoch: int
    /** The four `train_*` metric objects. */
    var trainMetrics: Metrics
    /** The four `test_*` metric objects. */
    var testMetrics: Metrics
    /** The records written to the training and the validation summary writer. */
    var trainSummaries: seq<int>
    var valSummaries: seq<int>
    /** The checkpoints `_save_checkpoint` has written, oldest first. */
    var saved: seq<Checkpoint>

    /** The trainer's fields as one value. */
    function Model(): TrainerState
      reads this
    {
      TrainerState(nets, optimizer, optimizerColor, globalStep, globalEpoch,
                   trainMetrics, testMetrics, trainSummaries, valSummaries, saved)
    }

    constructor (trainBaseline: bool, maxEpoch: int)
      ensures this.trainBaseline == trainBaseline && this.maxEpoch == maxEpoch
      ensures Model() == Fresh()
    {
      this.trainBaseline := trainBaseline;
      this.maxEpoch := maxEpoch;
      nets := Snapshot(Initial(Net), Initial(PredictorR), Initial(PredictorG), Initial(PredictorB));
      optimizer, optimizerColor := [], [];
      globalStep, globalEpoch := 0, 0;
      trainMetrics, testMetrics := NoReadings, NoReadings;
      trainSummaries, valSummaries, saved := [], [], [];
    }

    /** The first tape of `_train_step`: the classifier and self-distillation
        gradient updates the net through `optimizer`. */
    method Pass1(b: Batch)
      modifies this
      ensures Model() == AfterPass1(old(Model()), b)
    {
      var g := Gradient(ClassifierAndMi, nets, b);
      var r := Reading(nets, b);
      optimizer := optimizer + [g];
      trainMetrics := trainMetrics.(classifierLoss := trainMetrics.classifierLoss + [r],
                                    miLoss := trainMetrics.miLoss + [r],
                                    classifierAccuracy := trainMetrics.classifierAccuracy + [r]);
      nets := nets.(net := Updated(nets.net, Optimizer, g));
    }

    /** The second tape of `_train_step`: the colour gradient updates the net
        and the three predictors through `optimizer_color`. */
    method Pass2(b: Batch)
      modifies this
      ensures Model() == AfterPass2(old(Model()), b)
    {
      var g := Gradient(Color, nets, b);
      optimizerColor := optimizerColor + [g];
      trainMetrics := trainMetrics.(colorLoss := trainMetrics.colorLoss + [Reading(nets, b)]);
      nets := Snapshot(Updated(nets.net, OptimizerColor, g), Updated(nets.predR, OptimizerColor, g),
                       Updated(nets.predG, OptimizerColor, g), Updated(nets.predB, OptimizerColor, g));
    }

    /** `_train_step`. */
    method TrainStep(b: Batch)
      modifies this
      ensures Model() == AfterTrainStep(old(Model()), b)
    {
      Pass1(b);
      Pass2(b);
      globalStep := globalStep + 1;
    }

    /** `_train_step_baseline`. */
    method TrainStepBaseline(b: Batch)
      modifies this
      ensures Model() == AfterBaselineStep(old(Model()), b)
    {
      var g := Gradient(ClassifierOnly, nets, b);
      var r := Reading(nets, b);
      optimizer := optimizer + [g];
      trainMetrics := trainMetrics.(classifierLoss := trainMetrics.classifierLoss + [r],
                                    classifierAccuracy := trainMetrics.classifierAccuracy + [r]);
      nets := nets.(net := Updated(nets.net, Optimizer, g));
      globalStep := globalStep + 1;
    }

    /** `_test_step`. */
    method TestStep(b: Batch)
      modifies this
      ensures Model() == AfterTestStep(old(Model()), b)
    {
      var r := Reading(nets, b);
      testMetrics := Metrics(testMetrics.classifierLoss + [r], testMetrics.colorLoss + [r],
                             testMetrics.miLoss + [r], testMetrics.classifierAccuracy + [r]);
    }

    /** `_write_summary_train(step)`. */
    method WriteSummaryTrain(step: int)
      modifies this
      ensures Model() == old(Model()).(trainSummaries := old(trainSummaries) + [step])
    {
      trainSummaries := trainSummaries + [step];
    }

    /** `_write_summary_val(step)`. */
    method WriteSummaryVal(step: int)
      modifies this
      ensures Model() == old(Model()).(valSummaries := old(valSummaries) + [step])
    {
      valSummaries := valSummaries + [step];
    }

    /** `_restore_checkpoint`, given what the latest checkpoint loads to. */
    method RestoreCheckpoint(latest: Option<Checkpoint>)
      modifies this
      ensures Model() == AfterRestore(old(Model()), latest)
    {
      if latest.Some? {
        var c := latest.value;
        nets, optimizer, optimizerColor, globalStep, globalEpoch :=
          c.params, c.optimizer, c.optimizerColor, c.globalStep, c.globalEpoch;
      }
    }

    /** `_save_checkpoint`. */
    method SaveCheckpoint()
      modifies this
      ensures Model() == AfterSave(old(Model()))
    {
      saved := saved + [Checkpoint(nets, optimizer, optimizerColor, globalStep, globalEpoch)];
    }

    /** `for images, labels, bias in self.test_ds: self._test_step(...)`. */
    method Evaluate(testSet: seq<Batch>)
      modifies this
      ensures Model() == AfterTestSet(old(Model()), testSet)
    {
      var i := 0;
      assert testSet[0..] == testSet;
      while i < |testSet|
        invariant 0 <= i <= |testSet|
        invariant AfterTestSet(Model(), testSet[i..]) == AfterTestSet(old(Model()), testSet)
      {
        assert testSet[i..][1..] == testSet[i + 1..];
        TestStep(testSet[i]);
        i := i + 1;
      }
    }

    /** The inner loop of `train`: one logged training step per batch. */
    method RunBatches(trainSet: seq<Batch>)
      modifies this
      ensures Model() == AfterBatches(old(Model()), trainSet, trainBaseline)
    {
      var i := 0;
      assert trainSet[0..] == trainSet;
      while i < |trainSet|
        invariant 0 <= i <= |trainSet|
        invariant AfterBatches(Model(), trainSet[i..], trainBaseline) == AfterBatches(old(Model()), trainSet, trainBaseline)
      {
        assert trainSet[i..][1..] == trainSet[i + 1..];
        if trainBaseline {
          TrainStepBaseline(trainSet[i]);
        } else {
          TrainStep(trainSet[i]);
        }
        WriteSummaryTrain(globalStep);
        i := i + 1;
      }
    }

    /** One pass of the epoch loop of `train`, that is AfterEpoch. */
    method RunEpoch(epoch: int, trainSet: seq<Batch>, testSet: seq<Batch>)
      modifies this
      ensures Model() == EpochBody(trainSet, testSet, trainBaseline)(old(Model()), epoch)
    {
      RunBatches(trainSet);
      globalEpoch := globalEpoch + 1;
      if epoch % 5 == 0 {
        Evaluate(testSet);
        WriteSummaryVal(globalStep);
      }
    }

    /** `train`. */
    method Train(trainSet: seq<Batch>, testSet: seq<Batch>, latest: Option<Checkpoint>)
      modifies this
      ensures Model() == AfterTrain(old(Model()), latest, trainSet, testSet, trainBaseline, maxEpoch)
    {
      RestoreCheckpoint(latest);
      ghost var restored := Model();
      ghost var body := EpochBody(trainSet, testSet, trainBaseline);
      var epoch := globalEpoch;
      while epoch < maxEpoch
        invariant Loop(body, Model(), epoch, maxEpoch) == Loop(body, restored, restored.globalEpoch, maxEpoch)
        decreases maxEpoch - epoch
      {
        ghost var before := Model();
        RunEpoch(epoch, trainSet, testSet);
        assert Model() == body(before, epoch);
        epoch := epoch + 1;
      }
      SaveCheckpoint();
    }

    /** `test`. */
    method Test(testSet: seq<Batch>, latest: Option<Checkpoint>)
      modifies this
      ensures Model() == AfterTest(old(Model()), latest, testSet)
    {
      RestoreCheckpoint(latest);
      Evaluate(testSet);
    }
  }
}
