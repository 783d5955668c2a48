/** The synchronous fit session of `System_torch.fit` as functions on the
    value of a system and of its checkpoint directory. The methods of
    `FitSystem.System` are proved to compute exactly these values; the
    properties the engine promises are proved here, about the functions. */
module Session {
  import opened Scores
  import opened Batching
  import opened Optimizers
  import opened Components
  import opened Checkpoint

  /** The data handed to `fit`: its input and output dimensions and samples. */
  datatype SysData = SysData(nu: int, ny: int, u: seq<real>, y: seq<real>)

  /** The hooks a model supplies, whose workings are not modelled:
      `self.norm.fit(sys_data)` and `init_nets(nu, ny)` (the networks it
      creates, by attribute name, with their initial state). */
  datatype Hooks = Hooks(
    normFit: SysData -> Norm,
    initNets: (int, int) -> map<string, StateDict>)

  /** What the surroundings of one fit call supply:
      - `trainSize`: `len(data_train[0])` after `make_training_data` and the split;
      - `shuffle(e)`: the index array after `np.random.shuffle` in epoch `e`;
      - `stepLoss(j, batch)`: `optimizer.step(closure).item()` for the j-th
        step of the call, taken on that batch of sample indices;
      - `score(k)`: the k-th validation score computed for the call
        (the synchronous engine's k-th `validation()`, or the worker's
        answer to the k-th message);
      - `clock(k)`: the k-th reading of `time.time() - self.start_t`;
      - `poll(j)`: whether `remote.poll()` after the j-th step sees a reply. */
  datatype Oracles = Oracles(
    trainSize: nat,
    shuffle: nat -> seq<nat>,
    stepLoss: (nat, seq<nat>) -> real,
    score: nat -> Score,
    clock: nat -> real,
    poll: nat -> bool)

  const EmptyHistory := History([], [], [], [], [])

  /** Lines 176-187 (and 299-308): the one-time initialisation of the first
      call. The norm is fitted only when it is used; the networks of
      `init_nets` and the optimizer of `init_optimizer` become components;
      the histories are emptied and `bestfit` is +infinity. */
  function FirstCall(s: Snapshot, data: SysData, optKw: map<string, KwValue>, hooks: Hooks): (r: Snapshot)
    ensures r.fitted && r.bestfit == PosInf && r.hist == EmptyHistory
    ensures r.norm == if s.useNorm then hooks.normFit(data) else s.norm
    ensures r.nu == data.nu && r.ny == data.ny
    ensures "optimizer" in r.components && r.components["optimizer"].kind == Optimizer(InitOptimizer(optKw))
    ensures forall k :: k in hooks.initNets(data.nu, data.ny) && k != "optimizer" ==>
      k in r.components && r.components[k] == Component(Module, hooks.initNets(data.nu, data.ny)[k], true, Cpu)
    ensures r.components.Keys == s.components.Keys + hooks.initNets(data.nu, data.ny).Keys + {"optimizer"}
    ensures forall k :: k in s.components && k !in hooks.initNets(data.nu, data.ny) && k != "optimizer" ==>
      r.components[k] == s.components[k]
    ensures r == s.(norm := r.norm, nu := r.nu, ny := r.ny, components := r.components,
                    bestfit := PosInf, hist := EmptyHistory, fitted := true)
  {
    var norm := if s.useNorm then hooks.normFit(data) else s.norm;
    var nets := hooks.initNets(data.nu, data.ny);
    var cs := s.components + map k | k in nets :: Component(Module, nets[k], true, Cpu);
    var opt := Component(Optimizer(InitOptimizer(optKw)), map[], true, Cpu);
    s.(norm := norm, nu := data.nu, ny := data.ny, components := cs["optimizer" := opt],
       bestfit := PosInf, hist := EmptyHistory, fitted := true)
  }

  /** `0 if len(xs) == 0 else xs[-1]`. */
  function LastOr<T>(xs: seq<T>, default: T): T {
    if |xs| == 0 then default else xs[|xs| - 1]
  }

  /** Lines 175-190: the state a synchronous call starts training from,
      and `extra_t`. A first call initialises and counts from zero; a later
      call keeps the histories and `bestfit` and resumes `batch_counter` and
      the time offset from the last recorded entries. */
  function Begun(s: Snapshot, data: SysData, optKw: map<string, KwValue>, hooks: Hooks): (r: (Snapshot, real))
    ensures r.0.fitted
    ensures !s.fitted ==> r.0.hist == EmptyHistory && r.0.bestfit == PosInf && r.0.batchCounter == 0 && r.1 == 0.0
    ensures s.fitted ==> r.0 == s.(batchCounter := LastOr(s.hist.batchId, 0)) && r.1 == LastOr(s.hist.time, 0.0)
    ensures !s.fitted ==> r.0 == FirstCall(s, data, optKw, hooks).(batchCounter := 0)
  {
    if !s.fitted then
      (FirstCall(s, data, optKw, hooks).(batchCounter := 0), 0.0)
    else
      (s.(batchCounter := LastOr(s.hist.batchId, 0)), LastOr(s.hist.time, 0.0))
  }

  /** The components after `validation()` left them: every module back in
      training mode, on the GPU if `cuda` is set and on the CPU otherwise;
      no state dictionary changed. */
  ghost predicate ReadyToTrain(before: map<string, Component>, after: map<string, Component>, cuda: bool) {
    && after.Keys == before.Keys
    && (forall k :: k in before ==> after[k].kind == before[k].kind && after[k].state == before[k].state)
    && (forall k :: k in before && before[k].kind.Module? ==>
          after[k].training && after[k].device == if cuda then Cuda else Cpu)
    && (forall k :: k in before && !before[k].kind.Module? ==> after[k] == before[k])
  }

  /** `self.eval(); self.cpu()` at the start of `validation()`, then
      `if cuda: self.cuda()` and `self.train()` at its end. */
  function Cycled(cs: map<string, Component>, cuda: bool): (r: map<string, Component>)
    ensures ReadyToTrain(cs, r, cuda)
  {
    var ev := OnDevice(WithTraining(cs, false), Cpu);
    WithTraining(if cuda then OnDevice(ev, Cuda) else ev, true)
  }

  /** A second validation leaves the modes as the first one left them. */
  lemma CycledTwice(cs: map<string, Component>, cuda: bool)
    ensures Cycled(Cycled(cs, cuda), cuda) == Cycled(cs, cuda)
  {
    var once := Cycled(cs, cuda);
    var twice := Cycled(once, cuda);
    forall k | k in cs ensures twice[k] == once[k] {
    }
  }

  /** Saving reads the state dictionaries and the metadata only, never the
      modes or devices of the components. */
  lemma SaveIgnoresModes(files: Files, s: Snapshot, cs: map<string, Component>, tag: string)
    requires cs.Keys == s.components.Keys
    requires forall k :: k in cs ==> cs[k].state == s.components[k].state
    ensures SaveCheckpoint(files, s.(components := cs), tag) == SaveCheckpoint(files, s, tag)
  {
    assert SavedStates(cs) == SavedStates(s.components);
  }

  /** The part of a system the training loop changes: `bestfit`, the
      histories and `batch_counter`. */
  datatype Progress = Progress(bestfit: Score, hist: History, batchCounter: int)

  function ProgressOf(s: Snapshot): Progress {
    Progress(s.bestfit, s.hist, s.batchCounter)
  }

  function WithProgress(s: Snapshot, p: Progress): Snapshot {
    s.(bestfit := p.bestfit, hist := p.hist, batchCounter := p.batchCounter)
  }

  /** The histories after `validation(append)`: the score is appended to
      `Loss_val` only when `append` is set. */
  function ValHistory(h: History, score: Score, append: bool): History {
    if append then h.(lossVal := h.lossVal + [score]) else h
  }

  /** The progress after `validation(append)` with the given score:
      `bestfit` becomes the smaller of itself and the score (it is assigned
      only on a strict improvement). */
  function ValidatedProgress(p: Progress, score: Score, append: bool): (r: Progress)
    ensures r.bestfit == Min(p.bestfit, score)
    ensures append ==> r.hist == p.hist.(lossVal := p.hist.lossVal + [score])
    ensures !append ==> r.hist == p.hist
    ensures r.batchCounter == p.batchCounter
  {
    Progress(if Below(score, p.bestfit) then score else p.bestfit, ValHistory(p.hist, score, append), p.batchCounter)
  }

  /** The system after the nested `validation(append)` of lines 154-173,
      given the score it computes: the progress as above, the components
      back in training mode on the training device, nothing else moved. */
  function Validated(s: Snapshot, score: Score, append: bool, cuda: bool): (r: Snapshot)
    ensures r.bestfit == Min(s.bestfit, score)
    ensures r.hist == ValHistory(s.hist, score, append)
    ensures ReadyToTrain(s.components, r.components, cuda)
    ensures r == s.(components := r.components, hist := r.hist, bestfit := r.bestfit)
  {
    WithProgress(s.(components := Cycled(s.components, cuda)), ValidatedProgress(ProgressOf(s), score, append))
  }

  /** The checkpoint directory after that validation. An improvement
      (`bestfit > score`) saves the "_best" checkpoint before `bestfit` is
      assigned, so the stored `bestfit` is the previous one; otherwise
      nothing is written. */
  function ValidatedFiles(s: Snapshot, files: Files, score: Score, append: bool): (f: Files)
    ensures !Below(score, s.bestfit) ==> f == files
    ensures Below(score, s.bestfit) ==> f == SaveCheckpoint(files, s.(hist := ValHistory(s.hist, score, append)), "_best")
    ensures Below(score, s.bestfit) ==>
      DecodeMeta(f.npz[NpzPath(s.checkpointDir, s.name, "_best")])
        == Some(Meta(s.norm, s.fitted, s.bestfit, ValHistory(s.hist, score, append)))
  {
    var ev := s.(components := OnDevice(WithTraining(s.components, false), Cpu), hist := ValHistory(s.hist, score, append));
    SaveIgnoresModes(files, s.(hist := ev.hist), ev.components, "_best");
    if Below(score, s.bestfit) then SaveCheckpoint(files, ev, "_best") else files
  }

  /** Sum of the losses of one epoch, `Loss_acc` before the division. */
  function Sum(xs: seq<real>): real {
    if xs == [] then 0.0 else Sum(xs[..|xs| - 1]) + xs[|xs| - 1]
  }

  /** The losses `optimizer.step` returns over the batches of one epoch;
      the first step of the epoch is step `first` of the call. */
  function StepLosses(o: Oracles, ids: seq<nat>, b: nat, first: nat): (ls: seq<real>)
    requires b >= 1
    ensures |ls| == StepsPerEpoch(|ids|, b)
  {
    WindowsShape(ids, b);
    seq(|Windows(ids, b)|, k requires 0 <= k < |Windows(ids, b)| => o.stepLoss(first + k, Windows(ids, b)[k]))
  }

  /** The training loss recorded for epoch `e`: the mean of its step losses. */
  function EpochLoss(o: Oracles, e: nat, b: nat): Score
    requires 1 <= b <= o.trainSize
  {
    var steps := StepsPerEpoch(o.trainSize, b);
    Fin(Sum(StepLosses(o, o.shuffle(e), b, e * steps)) / (steps as real))
  }

  /** What one epoch of the loop observes: the mean step loss, the value
      of `time.time() - self.start_t + extra_t` after it, its number of
      optimisation steps, and the score of the validation that follows it. */
  datatype EpochObs = EpochObs(loss: Score, time: real, steps: nat, score: Score)

  /** Epoch `e` of a synchronous call, from the oracles: `N // B` steps over
      the windows of the e-th shuffle, and the (e+1)-th validation score
      (the 0-th is the initial `validation(append=False)`). */
  function Observation(o: Oracles, e: nat, b: nat, extra: real): EpochObs
    requires 1 <= b <= o.trainSize
  {
    EpochObs(EpochLoss(o, e, b), extra + o.clock(e), StepsPerEpoch(o.trainSize, b), o.score(e + 1))
  }

  /** The observations of epochs `0 .. k-1`. */
  function Observations(o: Oracles, k: nat, b: nat, extra: real): (r: seq<EpochObs>)
    requires 1 <= b <= o.trainSize
    ensures |r| == k && forall e :: 0 <= e < k ==> r[e] == Observation(o, e, b, extra)
  {
    if k == 0 then [] else Observations(o, k - 1, b, extra) + [Observation(o, k - 1, b, extra)]
  }

  /** Lines 224-249: one epoch of training, up to the validation: the step
      count grows by the epoch's steps, and one entry each is appended to
      `Loss_train`, `time` and `batch_id` (the new step count). */
  function TrainedProgress(p: Progress, ob: EpochObs): (r: Progress)
    ensures r.batchCounter == p.batchCounter + ob.steps
    ensures r.hist == p.hist.(lossTrain := p.hist.lossTrain + [ob.loss],
                              time := p.hist.time + [ob.time],
                              batchId := p.hist.batchId + [r.batchCounter])
    ensures r.bestfit == p.bestfit
  {
    var bc := p.batchCounter + ob.steps;
    Progress(p.bestfit,
             p.hist.(lossTrain := p.hist.lossTrain + [ob.loss],
                     time := p.hist.time + [ob.time],
                     batchId := p.hist.batchId + [bc]),
             bc)
  }

  /** One epoch of the loop at line 223: training, then `validation()`. */
  function EpochProgress(p: Progress, ob: EpochObs): Progress {
    ValidatedProgress(TrainedProgress(p, ob), ob.score, true)
  }

  /** The progress after the first `k` observed epochs. */
  function SyncProgress(p: Progress, obs: seq<EpochObs>, k: nat): Progress
    requires k <= |obs|
  {
    if k == 0 then p else EpochProgress(SyncProgress(p, obs, k - 1), obs[k - 1])
  }

  /** The checkpoint directory after the first `k` observed epochs of a
      system `s`. */
  function SyncFiles(s: Snapshot, files: Files, obs: seq<EpochObs>, k: nat): Files
    requires k <= |obs|
  {
    if k == 0 then files
    else
      var trained := TrainedProgress(SyncProgress(ProgressOf(s), obs, k - 1), obs[k - 1]);
      ValidatedFiles(WithProgress(s, trained), SyncFiles(s, files, obs, k - 1), obs[k - 1].score, true)
  }

  /** One more epoch of the loop: a system `now` that moved from the
      `SyncProgress` after `e` epochs as one epoch does is the
      `SyncProgress` after `e + 1`, and the directory likewise. */
  lemma SyncAdvance(s0: Snapshot, f0: Files, obs: seq<EpochObs>, e: nat,
                    prev: Snapshot, fprev: Files, now: Snapshot, fnow: Files)
    requires e < |obs|
    requires prev == WithProgress(s0, SyncProgress(ProgressOf(s0), obs, e)) && fprev == SyncFiles(s0, f0, obs, e)
    requires now == WithProgress(prev, EpochProgress(ProgressOf(prev), obs[e]))
    requires fnow == ValidatedFiles(WithProgress(prev, TrainedProgress(ProgressOf(prev), obs[e])), fprev, obs[e].score, true)
    ensures now == WithProgress(s0, SyncProgress(ProgressOf(s0), obs, e + 1))
    ensures fnow == SyncFiles(s0, f0, obs, e + 1)
  {
    assert ProgressOf(prev) == SyncProgress(ProgressOf(s0), obs, e);
    assert WithProgress(prev, TrainedProgress(ProgressOf(prev), obs[e]))
        == WithProgress(s0, TrainedProgress(SyncProgress(ProgressOf(s0), obs, e), obs[e]));
  }

  /** The system-level view of one epoch: training then `validation()`
      moves the progress as `EpochProgress` does and cycles the modes. */
  lemma EpochOnSystem(s: Snapshot, ob: EpochObs, cuda: bool)
    ensures Validated(WithProgress(s, TrainedProgress(ProgressOf(s), ob)), ob.score, true, cuda)
         == WithProgress(s.(components := Cycled(s.components, cuda)), EpochProgress(ProgressOf(s), ob))
  {
  }

  /** The system after an epoch's bookkeeping and its validation, when its
      components were already as `validation()` leaves them. */
  lemma EpochSettles(before: Snapshot, ob: EpochObs, cuda: bool, trained: Snapshot, now: Snapshot)
    requires before.components == Cycled(before.components, cuda)
    requires trained == WithProgress(before, TrainedProgress(ProgressOf(before), ob))
    requires now == Validated(trained, ob.score, true, cuda)
    ensures now == WithProgress(before, EpochProgress(ProgressOf(before), ob))
  {
    EpochOnSystem(before, ob, cuda);
  }

  /** Lines 256-257: after training, every module in training mode and on
      the CPU, before the "_last" checkpoint is saved. */
  function Ended(s: Snapshot): (r: Snapshot)
    ensures r.components.Keys == s.components.Keys
    ensures forall k :: k in s.components && s.components[k].kind.Module? ==>
      r.components[k] == s.components[k].(training := true, device := Cpu)
    ensures forall k :: k in s.components && !s.components[k].kind.Module? ==> r.components[k] == s.components[k]
    ensures r == s.(components := r.components)
  {
    s.(components := OnDevice(WithTraining(s.components, true), Cpu))
  }

  /** The epoch losses of the first `k` observations. */
  function Losses(obs: seq<EpochObs>, k: nat): (r: seq<Score>)
    requires k <= |obs|
    ensures |r| == k && forall e :: 0 <= e < k ==> r[e] == obs[e].loss
  {
    if k == 0 then [] else Losses(obs, k - 1) + [obs[k - 1].loss]
  }

  /** The clock readings of the first `k` observations. */
  function Times(obs: seq<EpochObs>, k: nat): (r: seq<real>)
    requires k <= |obs|
    ensures |r| == k && forall e :: 0 <= e < k ==> r[e] == obs[e].time
  {
    if k == 0 then [] else Times(obs, k - 1) + [obs[k - 1].time]
  }

  /** The validation scores of the first `k` observations. */
  function ValScores(obs: seq<EpochObs>, k: nat): (r: seq<Score>)
    requires k <= |obs|
    ensures |r| == k && forall e :: 0 <= e < k ==> r[e] == obs[e].score
  {
    if k == 0 then [] else ValScores(obs, k - 1) + [obs[k - 1].score]
  }

  /** The steps taken in the first `k` observed epochs. */
  function TotalSteps(obs: seq<EpochObs>, k: nat): nat
    requires k <= |obs|
  {
    if k == 0 then 0 else TotalSteps(obs, k - 1) + obs[k - 1].steps
  }

  /** The step counts after each of the first `k` epochs, from `start`. */
  function Counts(start: int, obs: seq<EpochObs>, k: nat): (r: seq<int>)
    requires k <= |obs|
    ensures |r| == k
  {
    if k == 0 then [] else Counts(start, obs, k - 1) + [start + TotalSteps(obs, k)]
  }

  /** The e-th recorded step count is the number of steps up to and
      including epoch e. */
  lemma {:induction false} CountsAt(start: int, obs: seq<EpochObs>, k: nat, e: nat)
    requires k <= |obs| && e < k
    ensures Counts(start, obs, k)[e] == start + TotalSteps(obs, e + 1)
  {
    if e < k - 1 {
      CountsAt(start, obs, k - 1, e);
    }
  }

  /** One more entry appended to a list that grew from `base` by `acc`. */
  lemma SnocStep<T>(full: seq<T>, prev: seq<T>, base: seq<T>, acc: seq<T>, accNext: seq<T>, x: T)
    requires full == prev + [x] && prev == base + acc && accNext == acc + [x]
    ensures full == base + accNext
  {
  }

  /** `Loss_train` gains the mean step loss of every epoch, in order. */
  lemma {:induction false} LossTrainGrows(p: Progress, obs: seq<EpochObs>, k: nat)
    requires k <= |obs|
    ensures SyncProgress(p, obs, k).hist.lossTrain == p.hist.lossTrain + Losses(obs, k)
  {
    if k > 0 {
      LossTrainGrows(p, obs, k - 1);
      SnocStep(SyncProgress(p, obs, k).hist.lossTrain, SyncProgress(p, obs, k - 1).hist.lossTrain,
               p.hist.lossTrain, Losses(obs, k - 1), Losses(obs, k), obs[k - 1].loss);
    }
  }

  /** `time` gains one reading per epoch, in order. */
  lemma {:induction false} TimeGrows(p: Progress, obs: seq<EpochObs>, k: nat)
    requires k <= |obs|
    ensures SyncProgress(p, obs, k).hist.time == p.hist.time + Times(obs, k)
  {
    if k > 0 {
      TimeGrows(p, obs, k - 1);
      SnocStep(SyncProgress(p, obs, k).hist.time, SyncProgress(p, obs, k - 1).hist.time,
               p.hist.time, Times(obs, k - 1), Times(obs, k), obs[k - 1].time);
    }
  }

  /** `Loss_val` gains the validation score of every epoch, in order. */
  lemma {:induction false} LossValGrows(p: Progress, obs: seq<EpochObs>, k: nat)
    requires k <= |obs|
    ensures SyncProgress(p, obs, k).hist.lossVal == p.hist.lossVal + ValScores(obs, k)
  {
    if k > 0 {
      LossValGrows(p, obs, k - 1);
      SnocStep(SyncProgress(p, obs, k).hist.lossVal, SyncProgress(p, obs, k - 1).hist.lossVal,
               p.hist.lossVal, ValScores(obs, k - 1), ValScores(obs, k), obs[k - 1].score);
    }
  }

  /** The synchronous engine never touches `epoch_id`. */
  lemma {:induction false} EpochIdKept(p: Progress, obs: seq<EpochObs>, k: nat)
    requires k <= |obs|
    ensures SyncProgress(p, obs, k).hist.epochId == p.hist.epochId
  {
    if k > 0 {
      EpochIdKept(p, obs, k - 1);
    }
  }

  /** The step count grows by each epoch's steps. */
  lemma {:induction false} StepCountGrows(p: Progress, obs: seq<EpochObs>, k: nat)
    requires k <= |obs|
    ensures SyncProgress(p, obs, k).batchCounter == p.batchCounter + TotalSteps(obs, k)
  {
    if k > 0 {
      StepCountGrows(p, obs, k - 1);
    }
  }

  /** `batch_id` records the step count after each epoch. */
  lemma {:induction false} BatchIdGrows(p: Progress, obs: seq<EpochObs>, k: nat)
    requires k <= |obs|
    ensures SyncProgress(p, obs, k).hist.batchId == p.hist.batchId + Counts(p.batchCounter, obs, k)
  {
    if k > 0 {
      BatchIdGrows(p, obs, k - 1);
      StepCountGrows(p, obs, k - 1);
      SnocStep(SyncProgress(p, obs, k).hist.batchId, SyncProgress(p, obs, k - 1).hist.batchId,
               p.hist.batchId, Counts(p.batchCounter, obs, k - 1), Counts(p.batchCounter, obs, k),
               p.batchCounter + TotalSteps(obs, k));
    }
  }

  /** After `k` epochs `bestfit` is the running minimum of the scores. */
  lemma {:induction false} BestIsRunningMin(p: Progress, obs: seq<EpochObs>, k: nat)
    requires k <= |obs|
    ensures SyncProgress(p, obs, k).bestfit == RunningMin(p.bestfit, ValScores(obs, k))
  {
    if k == 0 {
      assert ValScores(obs, 0) == [];
    } else {
      var x := obs[k - 1].score;
      var before := ValScores(obs, k - 1);
      BestIsRunningMin(p, obs, k - 1);
      RunningMinSnoc(p.bestfit, before, x);
      assert ValScores(obs, k) == before + [x];
      assert SyncProgress(p, obs, k).bestfit == Min(RunningMin(p.bestfit, before), x);
    }
  }

  /** In a synchronous call every epoch takes `N // B` steps. */
  lemma {:induction false} SyncStepsConstant(o: Oracles, k: nat, j: nat, b: nat, extra: real)
    requires 1 <= b <= o.trainSize && j <= k
    ensures TotalSteps(Observations(o, k, b, extra), j) == j * StepsPerEpoch(o.trainSize, b)
  {
    if j > 0 {
      SyncStepsConstant(o, k, j - 1, b, extra);
      MulSucc(j, StepsPerEpoch(o.trainSize, b));
    }
  }

  lemma MulSucc(k: nat, steps: nat)
    requires k >= 1
    ensures (k - 1) * steps + steps == k * steps
  {
  }

  /** What `k` epochs of the synchronous loop append to the histories: one
      entry per epoch to each of `Loss_train` (the mean of the epoch's step
      losses), `time` (the clock plus the resumed offset) and `Loss_val`
      (the epoch's score); `epoch_id` is never touched; `bestfit` is the
      running minimum of the scores. */
  lemma SyncHistoryEffect(p: Progress, o: Oracles, k: nat, b: nat, extra: real)
    requires 1 <= b <= o.trainSize
    ensures var obs := Observations(o, k, b, extra);
      var r := SyncProgress(p, obs, k);
      && r.hist.lossTrain == p.hist.lossTrain + Losses(obs, k)
      && (forall e :: 0 <= e < k ==> Losses(obs, k)[e] == EpochLoss(o, e, b))
      && r.hist.time == p.hist.time + Times(obs, k)
      && (forall e :: 0 <= e < k ==> Times(obs, k)[e] == extra + o.clock(e))
      && r.hist.lossVal == p.hist.lossVal + ValScores(obs, k)
      && (forall e :: 0 <= e < k ==> ValScores(obs, k)[e] == o.score(e + 1))
      && r.hist.epochId == p.hist.epochId
      && r.bestfit == RunningMin(p.bestfit, ValScores(obs, k))
  {
    var obs := Observations(o, k, b, extra);
    LossTrainGrows(p, obs, k);
    TimeGrows(p, obs, k);
    LossValGrows(p, obs, k);
    EpochIdKept(p, obs, k);
    BestIsRunningMin(p, obs, k);
  }

  /** The step count of a synchronous call grows by `N // B` per epoch and
      `batch_id` records it after each epoch. */
  lemma SyncStepsEffect(p: Progress, o: Oracles, k: nat, b: nat, extra: real)
    requires 1 <= b <= o.trainSize
    ensures var obs := Observations(o, k, b, extra);
      var r := SyncProgress(p, obs, k);
      && r.batchCounter == p.batchCounter + k * StepsPerEpoch(o.trainSize, b)
      && r.hist.batchId == p.hist.batchId + Counts(p.batchCounter, obs, k)
      && (forall e :: 0 <= e < k ==>
            Counts(p.batchCounter, obs, k)[e] == p.batchCounter + (e + 1) * StepsPerEpoch(o.trainSize, b))
  {
    var obs := Observations(o, k, b, extra);
    StepCountGrows(p, obs, k);
    BatchIdGrows(p, obs, k);
    SyncStepsConstant(o, k, k, b, extra);
    forall e | 0 <= e < k
      ensures Counts(p.batchCounter, obs, k)[e] == p.batchCounter + (e + 1) * StepsPerEpoch(o.trainSize, b)
    {
      CountsAt(p.batchCounter, obs, k, e);
      SyncStepsConstant(o, k, e + 1, b, extra);
    }
  }

  /** The four lists the synchronous engine appends to stay in lockstep:
      if they were equally long before `k` epochs, they are equally long
      after, each longer by exactly `k`. */
  lemma SyncLockstep(p: Progress, obs: seq<EpochObs>, k: nat)
    requires k <= |obs|
    requires |p.hist.lossVal| == |p.hist.lossTrain| == |p.hist.batchId| == |p.hist.time|
    ensures var r := SyncProgress(p, obs, k);
      && |r.hist.lossVal| == |r.hist.lossTrain| == |r.hist.batchId| == |r.hist.time| == |p.hist.lossVal| + k
      && r.hist.epochId == p.hist.epochId
  {
    LossTrainGrows(p, obs, k);
    TimeGrows(p, obs, k);
    LossValGrows(p, obs, k);
    BatchIdGrows(p, obs, k);
    EpochIdKept(p, obs, k);
  }

  /** Epochs that never lowered `bestfit` leave the checkpoint directory
      untouched. */
  lemma {:induction false} SyncFilesUntouched(s: Snapshot, files: Files, obs: seq<EpochObs>, k: nat)
    requires k <= |obs|
    requires SyncProgress(ProgressOf(s), obs, k).bestfit == s.bestfit
    ensures SyncFiles(s, files, obs, k) == files
  {
    if k > 0 {
      BestIsRunningMin(ProgressOf(s), obs, k - 1);
      var p := SyncProgress(ProgressOf(s), obs, k - 1);
      var x := obs[k - 1].score;
      assert SyncProgress(ProgressOf(s), obs, k).bestfit == Min(p.bestfit, x);
      KeptNotBelow(x, p.bestfit, s.bestfit);
      SyncFilesUntouched(s, files, obs, k - 1);
      var trained := WithProgress(s, TrainedProgress(p, obs[k - 1]));
      assert trained.bestfit == p.bestfit;
      NoSaveWithoutImprovement(trained, SyncFiles(s, files, obs, k - 1), x);
    }
  }

  /** A validation that does not lower `bestfit` writes nothing. */
  lemma NoSaveWithoutImprovement(s: Snapshot, files: Files, x: Score)
    requires !Below(x, s.bestfit)
    ensures ValidatedFiles(s, files, x, true) == files
  {
  }

  /** A minimum that ends where a no-larger start began was not lowered by
      the offered score. */
  lemma KeptNotBelow(x: Score, y: Score, z: Score)
    requires AtMost(y, z) && Min(y, x) == z
    ensures !Below(x, y) && y == z
  {
  }

  /** Every list of `h` is a prefix of the matching list of `g`. */
  ghost predicate IsPrefix(h: History, g: History) {
    && h.lossVal <= g.lossVal && h.lossTrain <= g.lossTrain && h.batchId <= g.batchId
    && h.time <= g.time && h.epochId <= g.epochId
  }

  /** The "_best" checkpoint in the directory of `s` holds the history up to
      the validation that reached the current `bestfit` of `p`, with an
      older, larger `bestfit`, and the norm and `fitted` flag of `s`. */
  ghost predicate BestHolds(s: Snapshot, p: Progress, f: Files) {
    var path := NpzPath(s.checkpointDir, s.name, "_best");
    && path in f.npz
    && DecodeMeta(f.npz[path]).Some?
    && var m := DecodeMeta(f.npz[path]).value;
    && m.norm == s.norm && m.fitted == s.fitted
    && IsPrefix(m.hist, p.hist)
    && |m.hist.lossVal| > 0 && m.hist.lossVal[|m.hist.lossVal| - 1] == p.bestfit
    && Below(p.bestfit, m.bestfit)
  }

  /** An improving validation leaves a "_best" checkpoint holding the new
      history, whose last score is the new `bestfit`, and the older one. */
  lemma BestHoldsAfterImprovement(s: Snapshot, t: Progress, files: Files, score: Score)
    requires Below(score, t.bestfit)
    ensures BestHolds(s, ValidatedProgress(t, score, true), ValidatedFiles(WithProgress(s, t), files, score, true))
  {
  }

  lemma BestHoldsAfterAppend(s: Snapshot, p: Progress, f: Files, r: Progress)
    requires BestHolds(s, p, f)
    requires r.bestfit == p.bestfit && IsPrefix(p.hist, r.hist)
    ensures BestHolds(s, r, f)
  {
  }

  /** Where the "_best" checkpoint stands after `k` epochs that lowered
      `bestfit`: its metadata holds a prefix of every history list, whose
      validation list ends in the current `bestfit`, together with a stored
      `bestfit` strictly above it: the best before that improvement. */
  lemma {:induction false} SyncBestCheckpoint(s: Snapshot, files: Files, obs: seq<EpochObs>, k: nat)
    requires k <= |obs|
    requires SyncProgress(ProgressOf(s), obs, k).bestfit != s.bestfit
    ensures BestHolds(s, SyncProgress(ProgressOf(s), obs, k), SyncFiles(s, files, obs, k))
  {
    if k == 0 {
      assert false;
    } else {
      var p := SyncProgress(ProgressOf(s), obs, k - 1);
      var pf := SyncFiles(s, files, obs, k - 1);
      var t := TrainedProgress(p, obs[k - 1]);
      if Below(obs[k - 1].score, p.bestfit) {
        BestHoldsAfterImprovement(s, t, pf, obs[k - 1].score);
      } else {
        SyncBestCheckpoint(s, files, obs, k - 1);
        BestHoldsAfterAppend(s, p, pf, SyncProgress(ProgressOf(s), obs, k));
      }
    }
  }
}
