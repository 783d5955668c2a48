/** `System_torch`: a system whose attributes the fit engines update in
    place. The networks and the optimizer are the `components` map; the
    checkpoint directory is a shared `CheckpointStore`. Every method is
    proved to compute the value the functions of `Session`, `Checkpoint`
    and `Async` assign to it. */
module FitSystem {
  import opened Scores
  import opened Batching
  import opened Optimizers
  import opened Components
  import opened Checkpoint
  import opened Session
  import opened Async

  /** How a fit call ends: normally (the best checkpoint was loaded back),
      with `ZeroDivisionError` at `N // batch_size` (no training samples
      or a zero batch size), or with an exception from the final
      `checkpoint_load_system()`. */
  datatype Outcome = Completed | ZeroDivision | LoadFailed

  /** The loop over the attributes in `eval()` and `train()`, in any
      order: each module gets mode `t`. */
  method SetModes(cs0: map<string, Component>, t: bool) returns (cs: map<string, Component>)
    ensures cs == WithTraining(cs0, t)
  {
    cs := cs0;
    var todo := cs0.Keys;
    while todo != {}
      invariant todo <= cs0.Keys && cs.Keys == cs0.Keys
      invariant forall k :: k in todo ==> cs[k] == cs0[k]
      invariant forall k :: k in cs0 && k !in todo ==> cs[k] == WithTraining(cs0, t)[k]
      decreases todo
    {
      var k :| k in todo;
      if cs[k].kind.Module? {
        cs := cs[k := cs[k].(training := t)];
      }
      todo := todo - {k};
    }
  }

  /** The loop over the attributes in `to_device(device)`: each module is
      moved to `d`. */
  method MoveTo(cs0: map<string, Component>, d: Device) returns (cs: map<string, Component>)
    ensures cs == OnDevice(cs0, d)
  {
    cs := cs0;
    var todo := cs0.Keys;
    while todo != {}
      invariant todo <= cs0.Keys && cs.Keys == cs0.Keys
      invariant forall k :: k in todo ==> cs[k] == cs0[k]
      invariant forall k :: k in cs0 && k !in todo ==> cs[k] == OnDevice(cs0, d)[k]
      decreases todo
    {
      var k :| k in todo;
      if cs[k].kind.Module? {
        cs := cs[k := cs[k].(device := d)];
      }
      todo := todo - {k};
    }
  }

  /** The loop of `_load_system_torch` over the stored keys, in any order.
      A key with no component is an uncaught `AttributeError`, a state
      that `load_state_dict` refuses with an uncaught error ends it too;
      a caught `ValueError` skips the key. It succeeds exactly when
      `LoadsCleanly` holds, and then gives `Restored`; the components
      restored before a failure stay restored. */
  method RestoreAll(cs0: map<string, Component>, saved: map<string, StateDict>)
    returns (ok: bool, cs: map<string, Component>)
    ensures ok <==> LoadsCleanly(cs0, saved)
    ensures ok ==> cs == Restored(cs0, saved)
    ensures cs.Keys == cs0.Keys
  {
    cs := cs0;
    var todo := saved.Keys;
    while todo != {}
      invariant todo <= saved.Keys && cs.Keys == cs0.Keys
      invariant forall k :: k in saved && k !in todo ==> k in cs0 && !RestoreState(cs0[k], saved[k]).Raised?
      invariant forall k :: k in cs0 && k in todo ==> cs[k] == cs0[k]
      invariant forall k :: k in cs0 && k !in todo ==> cs[k] == Restored(cs0, saved)[k]
      decreases todo
    {
      var key :| key in todo;
      if key !in cs {
        return false, cs;
      }
      match RestoreState(cs[key], saved[key]) {
        case Loaded(st) =>
          cs := cs[key := cs[key].(state := st)];
        case Caught =>
        case Raised =>
          return false, cs;
      }
      todo := todo - {key};
    }
    ok := true;
  }

  /** One turn of the batch loop: the window ending at `k*b + b` is the
      k-th of `Windows`, and the next end point is `b` further on. */
  lemma WindowStep(ids: seq<nat>, b: nat, k: nat)
    requires b >= 1 && k * b + b <= |ids|
    ensures k < StepsPerEpoch(|ids|, b) == |Windows(ids, b)| && Windows(ids, b)[k] == ids[k * b..k * b + b]
    ensures (k + 1) * b + b == k * b + b + b && 0 <= k * b
  {
    WindowFits(k, b, |ids|);
    WindowsShape(ids, b);
  }

  /** The inner loop of one epoch (lines 224-245): the batches are the
      windows `ids[i-B:i]` for `i` in `range(B, N + 1, B)`, and `Loss_acc`
      sums the loss of every step. */
  method EpochLossSum(o: Oracles, e: nat, b: nat) returns (acc: real)
    requires 1 <= b <= o.trainSize && |o.shuffle(e)| == o.trainSize
    ensures acc == Sum(StepLosses(o, o.shuffle(e), b, e * StepsPerEpoch(o.trainSize, b)))
  {
    var ids := o.shuffle(e);
    var n := o.trainSize;
    var first := e * StepsPerEpoch(n, b);
    ghost var losses := StepLosses(o, ids, b, first);
    acc := 0.0;
    var i, k := b, 0;
    while i <= n
      invariant i == k * b + b && k <= |losses|
      invariant acc == Sum(losses[..k])
      decreases n - i
    {
      WindowStep(ids, b, k);
      var batch := ids[i - b..i];
      acc := acc + o.stepLoss(first + k, batch);
      assert losses[..k + 1][..k] == losses[..k];
      i, k := i + b, k + 1;
    }
    WindowFits(k, b, n);
    assert losses[..k] == losses;
  }

  /** How a synchronous fit call ends, from its start `v0` after the first
      validation (with the directory `f0` then) and `epochs` observed
      epochs: the "_last" checkpoint of the trained system is written, and
      the "_best" one is loaded back (`ok`) or the load fails. */
  ghost predicate SyncConcluded(v0: Snapshot, f0: Files, obs: seq<EpochObs>, epochs: nat,
                                now: Snapshot, files: Files, ok: bool)
    requires epochs <= |obs|
  {
    var fin := Ended(WithProgress(v0, SyncProgress(ProgressOf(v0), obs, epochs)));
    var saved := SaveCheckpoint(SyncFiles(v0, f0, obs, epochs), fin, "_last");
    && files == saved
    && (ok <==> LoadCheckpoint(fin, saved, "_best").Some?)
    && (ok ==> now == LoadCheckpoint(fin, saved, "_best").value)
    && (!ok ==> now == fin.(components := now.components))
  }

  /** After a fit whose epochs lowered `bestfit` and that loaded "_best"
      back: the system carries the validation history up to the best
      epoch, whose last score is the best score of the call, but its
      `bestfit` is the older, strictly larger value the checkpoint was
      saved with; the norm is the one of the call. */
  lemma FitReloadsBest(v0: Snapshot, f0: Files, obs: seq<EpochObs>, epochs: nat, now: Snapshot, files: Files)
    requires epochs <= |obs| && SyncConcluded(v0, f0, obs, epochs, now, files, true)
    requires SyncProgress(ProgressOf(v0), obs, epochs).bestfit != v0.bestfit
    ensures var p := SyncProgress(ProgressOf(v0), obs, epochs);
      && IsPrefix(now.hist, p.hist)
      && |now.hist.lossVal| > 0 && now.hist.lossVal[|now.hist.lossVal| - 1] == p.bestfit
      && Below(p.bestfit, now.bestfit)
      && now.norm == v0.norm && now.fitted == v0.fitted
  {
    var p := SyncProgress(ProgressOf(v0), obs, epochs);
    var fin := Ended(WithProgress(v0, p));
    SyncBestCheckpoint(v0, f0, obs, epochs);
    LoadBestAfterLast(SyncFiles(v0, f0, obs, epochs), fin, now);
  }

  /** Over a whole synchronous call, the first `validation(append=False)`
      included: after `epochs` epochs `bestfit` is the running minimum of
      the starting one and scores `0 .. epochs`, as in the multiprocess
      call. */
  lemma FitBestIsRunningMin(begun: Snapshot, o: Oracles, epochs: nat, b: nat, extra: real, cuda: bool)
    requires 1 <= b <= o.trainSize
    ensures var v0 := Validated(begun, o.score(0), false, cuda);
      SyncProgress(ProgressOf(v0), Observations(o, epochs, b, extra), epochs).bestfit
        == RunningMin(begun.bestfit, Answers(o.score, 0, epochs + 1))
  {
    var v0 := Validated(begun, o.score(0), false, cuda);
    var obs := Observations(o, epochs, b, extra);
    BestIsRunningMin(ProgressOf(v0), obs, epochs);
    RunningMinFirst(begun.bestfit, o.score(0), ValScores(obs, epochs));
    ScoresFromFirst(o, epochs, b, extra);
  }

  /** The score of the first validation followed by those of the epochs. */
  lemma ScoresFromFirst(o: Oracles, epochs: nat, b: nat, extra: real)
    requires 1 <= b <= o.trainSize
    ensures [o.score(0)] + ValScores(Observations(o, epochs, b, extra), epochs) == Answers(o.score, 0, epochs + 1)
  {
    var vs := ValScores(Observations(o, epochs, b, extra), epochs);
    var all := Answers(o.score, 0, epochs + 1);
    forall i | 0 <= i < epochs + 1 ensures ([o.score(0)] + vs)[i] == all[i] {
      if i > 0 {
        assert vs[i - 1] == o.score(i);
      }
    }
  }

  /** The mean loss of steps `lo .. hi - 1` of `trace`. */
  function MeanLoss(trace: seq<real>, lo: nat, hi: nat): Score
    requires lo < hi <= |trace|
  {
    Fin(Sum(trace[lo..hi]) / ((hi - lo) as real))
  }

  /** Report marks: each at least 1 and at most `j`, strictly increasing. */
  ghost predicate Ascending(marks: seq<nat>, j: nat) {
    && (forall i :: 0 <= i < |marks| ==> 1 <= marks[i] <= j)
    && (forall i :: 0 < i < |marks| ==> marks[i - 1] < marks[i])
  }

  /** The first step the `i`-th report covers: where the one before ended. */
  function From(marks: seq<nat>, i: nat): nat
    requires i < |marks|
  {
    if i == 0 then 0 else marks[i - 1]
  }

  /** The bookkeeping of `Loss_acc` and `N_batch_acc` over the messages
      sent so far: `trace` holds the loss of every step taken, in order,
      and `marks[i]` is the number of steps taken when message `i + 1` was
      sent. Each appending message covers at least one new step; the
      `nAcc` steps since the last one are still unreported, and `accL` is
      the sum of their losses. */
  ghost predicate Accounted(marks: seq<nat>, nSent: nat, trace: seq<real>, accL: real, nAcc: nat) {
    && |marks| + 1 == nSent
    && Ascending(marks, |trace|)
    && nAcc == |trace| - LastOr(marks, 0)
    && accL == Sum(trace[LastOr(marks, 0)..])
  }

  /** A step adds its loss to `Loss_acc` and one unreported step to
      `N_batch_acc`. */
  lemma AccountedStep(marks: seq<nat>, nSent: nat, trace: seq<real>, accL: real, nAcc: nat, x: real)
    requires Accounted(marks, nSent, trace, accL, nAcc)
    ensures Accounted(marks, nSent, trace + [x], accL + x, nAcc + 1)
  {
    var last := LastOr(marks, 0);
    var t := trace + [x];
    assert t[last..] == trace[last..] + [x];
    assert (trace[last..] + [x])[..|trace[last..]|] == trace[last..];
  }

  /** A message sent with unreported steps reports the mean of their
      losses, and both accumulators restart at 0. */
  lemma AccountedSend(marks: seq<nat>, nSent: nat, trace: seq<real>, accL: real, nAcc: nat)
    requires Accounted(marks, nSent, trace, accL, nAcc) && nAcc >= 1
    ensures LastOr(marks, 0) < |trace| && Fin(accL / (nAcc as real)) == MeanLoss(trace, LastOr(marks, 0), |trace|)
    ensures Accounted(marks + [|trace|], nSent + 1, trace, 0.0, 0)
  {
    var marks' := marks + [|trace|];
    forall i | 0 < i < |marks'| ensures marks'[i - 1] < marks'[i] {
      if i < |marks| {
        assert marks'[i - 1] == marks[i - 1] && marks'[i] == marks[i];
      }
    }
    assert trace[LastOr(marks, 0)..|trace|] == trace[LastOr(marks, 0)..];
    assert trace[|trace|..] == [];
  }

  /** Message `m` reports steps `lo .. hi - 1`: it carries their mean loss,
      the time `timeNow`, and the counters of the system `at` steps after
      `begun`, where `at` is `hi - 1` for a message sent inside the loop
      (before that step's counters advance) and `hi` for the `flushed` one
      sent after the loop. */
  ghost predicate Reports(m: Message, begun: Snapshot, trace: seq<real>, lo: nat, hi: nat,
                          timeNow: real, inc: real, flushed: bool) {
    var at := if flushed then hi else hi - 1;
    && lo < hi <= |trace|
    && m.lossTrain == MeanLoss(trace, lo, hi)
    && m.timeNow == timeNow
    && m.sys.batchCounter == begun.batchCounter + at
    && m.sys.epochCounter == CounterAfter(begun.epochCounter, inc, at)
  }

  /** Every message after the first reports: message `i` covers the steps
      from the previous mark up to `marks[i - 1]` and was sent at
      `extra + clock(i)`; only the last one can be the message sent after
      the loop, and it is exactly when `flushed`. */
  ghost predicate ReportsAll(sent: seq<Message>, marks: seq<nat>, trace: seq<real>, extra: real,
                             clock: nat -> real, inc: real, flushed: bool) {
    && |sent| == |marks| + 1
    && forall i {:trigger sent[i]} :: 1 <= i < |sent| ==>
         Reports(sent[i], sent[0].sys, trace, From(marks, i - 1), marks[i - 1], extra + clock(i), inc,
                 flushed && i == |sent| - 1)
  }

  /** Reports stay true as more steps are taken. */
  lemma ReportsLonger(sent: seq<Message>, marks: seq<nat>, trace: seq<real>, extra: real,
                      clock: nat -> real, inc: real, x: real)
    requires ReportsAll(sent, marks, trace, extra, clock, inc, false)
    ensures ReportsAll(sent, marks, trace + [x], extra, clock, inc, false)
  {
    forall i | 1 <= i < |sent|
      ensures Reports(sent[i], sent[0].sys, trace + [x], From(marks, i - 1), marks[i - 1], extra + clock(i), inc, false)
    {
      assert Reports(sent[i], sent[0].sys, trace, From(marks, i - 1), marks[i - 1], extra + clock(i), inc, false);
      assert (trace + [x])[From(marks, i - 1)..marks[i - 1]] == trace[From(marks, i - 1)..marks[i - 1]];
    }
  }

  /** A message that reports the steps since the last mark extends the
      reports by one. */
  lemma ReportsSend(sent: seq<Message>, marks: seq<nat>, trace: seq<real>, extra: real,
                    clock: nat -> real, inc: real, m: Message, flushed: bool)
    requires ReportsAll(sent, marks, trace, extra, clock, inc, false)
    requires Reports(m, sent[0].sys, trace, LastOr(marks, 0), |trace|, extra + clock(|sent|), inc, flushed)
    ensures ReportsAll(sent + [m], marks + [|trace|], trace, extra, clock, inc, flushed)
  {
    var sent', marks' := sent + [m], marks + [|trace|];
    forall i | 1 <= i < |sent'|
      ensures Reports(sent'[i], sent'[0].sys, trace, From(marks', i - 1), marks'[i - 1], extra + clock(i), inc,
                      flushed && i == |sent'| - 1)
    {
      assert sent'[0] == sent[0];
      if i < |sent| {
        assert sent'[i] == sent[i] && marks'[i - 1] == marks[i - 1] && From(marks', i - 1) == From(marks, i - 1);
      } else {
        assert sent'[i] == m && marks'[i - 1] == |trace| && From(marks', i - 1) == LastOr(marks, 0);
      }
    }
  }

  /** The k-th window of an epoch, starting at `lo`, lies inside its samples. */
  lemma WindowInside(ids: seq<nat>, b: nat, k: nat, lo: nat)
    requires b >= 1 && k < StepsPerEpoch(|ids|, b) && lo == k * b
    ensures lo + b <= |ids|
  {
    WindowFits(k, b, |ids|);
  }

  /** Appending to a joined trace appends to its second part. */
  lemma AppendAssoc(a: seq<real>, b: seq<real>, x: real)
    ensures (a + b) + [x] == a + (b + [x])
  {
  }

  /** The losses of the first `k` steps of an epoch, one window at a time. */
  ghost function LossesBefore(o: Oracles, ids: seq<nat>, b: nat, first: nat, k: nat): (ls: seq<real>)
    requires b >= 1 && k <= StepsPerEpoch(|ids|, b)
    ensures |ls| == k
    decreases k
  {
    if k == 0 then []
    else
      WindowEndInside(k - 1, b, |ids|);
      LossesBefore(o, ids, b, first, k - 1) + [o.stepLoss(first + k - 1, ids[(k - 1) * b..(k - 1) * b + b])]
  }

  /** The k-th step of an epoch adds the k-th window's loss to the trace. */
  lemma LossesSnoc(o: Oracles, ids: seq<nat>, b: nat, first: nat, k: nat, lo: nat, j: nat,
                   trace0: seq<real>, trace: seq<real>, after: seq<real>)
    requires b >= 1 && lo == k * b && lo + b <= |ids| && j == first + k
    requires k <= StepsPerEpoch(|ids|, b) && trace == trace0 + LossesBefore(o, ids, b, first, k)
    requires after == trace + [o.stepLoss(j, ids[lo..lo + b])]
    ensures k + 1 <= StepsPerEpoch(|ids|, b) && after == trace0 + LossesBefore(o, ids, b, first, k + 1)
  {
    WindowFits(k, b, |ids|);
    assert (k + 1 - 1) * b == lo;
  }

  /** Window by window, the first `k` losses are those of `StepLosses`. */
  lemma {:induction false} LossesBeforePrefix(o: Oracles, ids: seq<nat>, b: nat, first: nat, k: nat)
    requires b >= 1 && k <= StepsPerEpoch(|ids|, b)
    ensures LossesBefore(o, ids, b, first, k) == StepLosses(o, ids, b, first)[..k]
  {
    if k > 0 {
      LossesBeforePrefix(o, ids, b, first, k - 1);
      var losses := StepLosses(o, ids, b, first);
      StepLossAt(o, ids, b, first, k - 1);
      assert losses[..k] == losses[..k - 1] + [losses[k - 1]];
    }
  }

  /** The i-th loss of an epoch is that of its i-th window. */
  lemma StepLossAt(o: Oracles, ids: seq<nat>, b: nat, first: nat, i: nat)
    requires b >= 1 && i < StepsPerEpoch(|ids|, b)
    ensures i * b + b <= |ids|
    ensures StepLosses(o, ids, b, first)[i] == o.stepLoss(first + i, ids[i * b..i * b + b])
  {
    WindowAt(ids, b, i);
  }

  /** A whole epoch's losses, window by window, are `StepLosses`. */
  lemma LossesOfEpoch(o: Oracles, ids: seq<nat>, b: nat, first: nat)
    requires b >= 1
    ensures LossesBefore(o, ids, b, first, StepsPerEpoch(|ids|, b)) == StepLosses(o, ids, b, first)
  {
    var steps := StepsPerEpoch(|ids|, b);
    LossesBeforePrefix(o, ids, b, first, steps);
    assert StepLosses(o, ids, b, first)[..steps] == StepLosses(o, ids, b, first);
  }

  /** The loss of every step of the first `epochs` epochs, in order: the
      losses of each epoch's windows, the same ones the synchronous engine
      averages into `EpochLoss`. */
  ghost function StepTrace(o: Oracles, b: nat, epochs: nat): (t: seq<real>)
    requires 1 <= b && forall e :: |o.shuffle(e)| == o.trainSize
    ensures |t| == epochs * StepsPerEpoch(o.trainSize, b)
  {
    if epochs == 0 then []
    else
      MulSucc(epochs, StepsPerEpoch(o.trainSize, b));
      StepTrace(o, b, epochs - 1) + StepLosses(o, o.shuffle(epochs - 1), b, (epochs - 1) * StepsPerEpoch(o.trainSize, b))
  }

  /** One more epoch extends the trace by that epoch's losses. */
  lemma StepTraceSnoc(o: Oracles, b: nat, e: nat, j0: nat, j: nat, trace0: seq<real>, trace: seq<real>)
    requires 1 <= b && forall x :: |o.shuffle(x)| == o.trainSize
    requires j0 == e * StepsPerEpoch(o.trainSize, b) && j == j0 + StepsPerEpoch(o.trainSize, b)
    requires trace0 == StepTrace(o, b, e) && trace == trace0 + StepLosses(o, o.shuffle(e), b, j0)
    ensures j == (e + 1) * StepsPerEpoch(o.trainSize, b) && trace == StepTrace(o, b, e + 1)
  {
    MulSucc(e + 1, StepsPerEpoch(o.trainSize, b));
  }

  /** How a multiprocess fit call ends once all `total` steps ran and every
      message was answered: the engine holds the last reply, the worker's
      checkpoints are in the directory, the "_last" checkpoint of the
      trained system is written and "_best" is loaded back (`ok`) or the
      load fails. */
  ghost predicate AsyncConcluded(begun: Snapshot, f0: Files, msgs: seq<Message>, replies: seq<Reply>,
                                 scores: nat -> Score, total: nat, inc: real,
                                 now: Snapshot, files: Files, ok: bool)
  {
    var fin := Ended(EngineAt(begun, replies, total, inc));
    var saved := SaveCheckpoint(WorkerFiles(f0, msgs, scores), fin, "_last");
    && files == saved
    && (ok <==> LoadCheckpoint(fin, saved, "_best").Some?)
    && (ok ==> now == LoadCheckpoint(fin, saved, "_best").value)
    && (!ok ==> now == fin.(components := now.components))
  }

  /** After a multiprocess fit whose first validation saved (always so on
      a first call, where `bestfit` starts at +infinity) and that loaded
      "_best" back: the system's `bestfit` is the running minimum of the
      starting one and every score of the call. */
  lemma {:induction false} AsyncFitReloadsBest(begun: Snapshot, f0: Files, msgs: seq<Message>, replies: seq<Reply>,
                            scores: nat -> Score, total: nat, inc: real, now: Snapshot, files: Files)
    requires Conversation(msgs, replies, scores) && SameHome(msgs)
    requires 1 <= |msgs| == |replies| && msgs[0].sys == begun
    requires AtMost(scores(0), begun.bestfit)
    requires AsyncConcluded(begun, f0, msgs, replies, scores, total, inc, now, files, true)
    ensures now.bestfit == RunningMin(begun.bestfit, Answers(scores, 0, |replies|))
    ensures now.norm == begun.norm && now.fitted == begun.fitted
  {
    WorkerBestLast(msgs, replies, scores, f0);
    RepliedBest(msgs, replies, scores, |replies| - 1);
    var fin := Ended(EngineAt(begun, replies, total, inc));
    LoadBestAfterLast(WorkerFiles(f0, msgs, scores), fin, now);
  }

  /** What message `i + 1` reports: the mean loss of the steps since the
      previous message, `time_now` at its send, and the step count and
      `epoch_counter` at its send, one step behind inside the loop (the
      counters advance after the poll) and level for the message sent
      after it. */
  lemma SentReportAt(msgs: seq<Message>, marks: seq<nat>, trace: seq<real>, extra: real, clock: nat -> real,
                     inc: real, flushed: bool, i: nat)
    requires |msgs| == |marks| + 1 && ReportsAll(msgs, marks, trace, extra, clock, inc, flushed) && i < |marks|
    ensures From(marks, i) < marks[i] <= |trace|
    ensures var at := marks[i] - (if flushed && i == |marks| - 1 then 0 else 1);
      && msgs[i + 1].lossTrain == MeanLoss(trace, From(marks, i), marks[i])
      && msgs[i + 1].timeNow == extra + clock(i + 1)
      && msgs[i + 1].sys.batchCounter == msgs[0].sys.batchCounter + at
      && msgs[i + 1].sys.epochCounter == CounterAfter(msgs[0].sys.epochCounter, inc, at)
  {
    assert Reports(msgs[i + 1], msgs[0].sys, trace, From(marks, i), marks[i], extra + clock(i + 1), inc,
                   flushed && i + 1 == |msgs| - 1);
  }

  /** What a finished multiprocess call leaves in the last reply, which the
      engine takes in: `Loss_train`, `time` and `batch_id` grow by what each
      later message reported (`SentReportAt`), `Loss_val` by every score but
      the first, `epoch_id` by the last message's `epoch_counter`, and
      `bestfit` is the running minimum of all scores. */
  lemma AsyncHistoryEffect(msgs: seq<Message>, replies: seq<Reply>, scores: nat -> Score, marks: seq<nat>,
                           trace: seq<real>, extra: real, clock: nat -> real, inc: real, flushed: bool)
    requires Conversation(msgs, replies, scores) && 1 <= |msgs| == |replies| == |marks| + 1
    requires ReportsAll(msgs, marks, trace, extra, clock, inc, flushed)
    ensures var h := msgs[0].sys.hist; var r := replies[|marks|]; var n := |marks|;
      && r.hist.lossTrain == h.lossTrain + SentLosses(msgs, n)
      && r.hist.time == h.time + SentTimes(msgs, n)
      && r.hist.batchId == h.batchId + SentCounts(msgs, n)
      && r.hist.lossVal == h.lossVal + Answers(scores, 1, n + 1)
      && (n == 0 ==> r.hist.epochId == h.epochId)
      && (n > 0 ==> r.hist.epochId == h.epochId + [CounterAfter(msgs[0].sys.epochCounter, inc,
                                                                marks[n - 1] - (if flushed then 0 else 1))])
      && r.bestfit == RunningMin(msgs[0].sys.bestfit, Answers(scores, 0, n + 1))
  {
    var n := |marks|;
    RepliedLossTrain(msgs, replies, scores, n);
    RepliedTime(msgs, replies, scores, n);
    RepliedBatchId(msgs, replies, scores, n);
    RepliedLossVal(msgs, replies, scores, n);
    RepliedEpochId(msgs, replies, scores, n);
    RepliedBest(msgs, replies, scores, n);
    if n > 0 {
      SentReportAt(msgs, marks, trace, extra, clock, inc, flushed, n - 1);
    }
  }

  class System {
    const name: string
    const checkpointDir: string
    const useNorm: bool
    const store: CheckpointStore
    var norm: Norm
    var nu: int
    var ny: int
    var fitted: bool
    var components: map<string, Component>
    var bestfit: Score
    var hist: History
    var epoch: seq<real>
    var batchCounter: int
    var epochCounter: real

    /** The value of every attribute. */
    function Snap(): Snapshot
      reads this
    {
      Snapshot(name, checkpointDir, useNorm, norm, nu, ny, fitted, components, bestfit, hist, epoch,
               batchCounter, epochCounter)
    }

    /** A system in the given state, checkpointing into `store`. */
    constructor(s: Snapshot, store: CheckpointStore)
      ensures Snap() == s && this.store == store
    {
      name := s.name;
      checkpointDir := s.checkpointDir;
      useNorm := s.useNorm;
      this.store := store;
      norm := s.norm;
      nu := s.nu;
      ny := s.ny;
      fitted := s.fitted;
      components := s.components;
      bestfit := s.bestfit;
      hist := s.hist;
      epoch := s.epoch;
      batchCounter := s.batchCounter;
      epochCounter := s.epochCounter;
    }

    /** `eval()` (`t` false) and `train()` (`t` true): every module's mode
        is set, nothing else changes. */
    method SetTraining(t: bool)
      modifies this
      ensures Snap() == old(Snap()).(components := WithTraining(old(components), t))
    {
      components := SetModes(components, t);
    }

    /** `eval()`: every module in evaluation mode. */
    method Eval()
      modifies this
      ensures Snap() == old(Snap()).(components := WithTraining(old(components), false))
    {
      SetTraining(false);
    }

    /** `train()`: every module in training mode. */
    method Train()
      modifies this
      ensures Snap() == old(Snap()).(components := WithTraining(old(components), true))
    {
      SetTraining(true);
    }

    /** `to_device(device)`: every module moved to `d`. */
    method ToDevice(d: Device)
      modifies this
      ensures Snap() == old(Snap()).(components := OnDevice(old(components), d))
    {
      components := MoveTo(components, d);
    }

    /** `cuda()`. */
    method ToCuda()
      modifies this
      ensures Snap() == old(Snap()).(components := OnDevice(old(components), Cuda))
    {
      ToDevice(Cuda);
    }

    /** `cpu()`. */
    method ToCpu()
      modifies this
      ensures Snap() == old(Snap()).(components := OnDevice(old(components), Cpu))
    {
      ToDevice(Cpu);
    }

    /** `_save_system_torch(file)`: the state dictionary of every component
        but `random`, written to `file`. */
    method SaveSystemTorch(file: string)
      modifies store
      ensures store.files == old(store.files).(pth := old(store.files.pth)[file := SavedStates(components)])
    {
      var saveDict: map<string, StateDict> := map[];
      var todo := components.Keys;
      while todo != {}
        invariant todo <= components.Keys
        invariant saveDict.Keys == components.Keys - todo - {"random"}
        invariant forall k :: k in saveDict ==> saveDict[k] == components[k].state
        decreases todo
      {
        var d :| d in todo;
        if d != "random" {
          saveDict := saveDict[d := components[d].state];
        }
        todo := todo - {d};
      }
      assert saveDict == SavedStates(components);
      store.files := store.files.(pth := store.files.pth[file := saveDict]);
    }

    /** `checkpoint_save_system(name=tag)` into the checkpoint directory. */
    method CheckpointSaveSystem(tag: string)
      modifies store
      ensures store.files == SaveCheckpoint(old(store.files), Snap(), tag)
    {
      SaveSystemTorch(PthPath(checkpointDir, name, tag));
      store.files := store.files.(npz := store.files.npz[NpzPath(checkpointDir, name, tag) := EncodeMeta(MetaOf(Snap()))]);
    }

    /** `_load_system_torch(file)`, going through the stored keys in any
        order. It fails (`ok` false) exactly when the file is missing or
        some stored key raises an uncaught error; on success every
        component is restored as `Restored` says. Only components change,
        also on failure, where the ones restored before the error stay so. */
    method LoadSystemTorch(file: string) returns (ok: bool)
      modifies this
      ensures ok <==> file in store.files.pth && LoadsCleanly(old(components), store.files.pth[file])
      ensures ok ==> components == Restored(old(components), store.files.pth[file])
      ensures Snap() == old(Snap()).(components := components)
    {
      if file !in store.files.pth {
        return false;
      }
      var cs;
      ok, cs := RestoreAll(components, store.files.pth[file]);
      components := cs;
    }

    /** The attributes read back from the `.npz` file. */
    method SetMeta(m: Meta)
      modifies this
      ensures Snap() == old(Snap()).(norm := m.norm, fitted := m.fitted, bestfit := m.bestfit, hist := m.hist)
    {
      norm, fitted, bestfit, hist := m.norm, m.fitted, m.bestfit, m.hist;
    }

    /** `checkpoint_load_system(name=tag)`: exactly what `LoadCheckpoint`
        gives, or a failure where it gives none. */
    method CheckpointLoadSystem(tag: string) returns (ok: bool)
      modifies this
      ensures ok <==> LoadCheckpoint(old(Snap()), store.files, tag).Some?
      ensures ok ==> Snap() == LoadCheckpoint(old(Snap()), store.files, tag).value
      ensures !ok ==> Snap() == old(Snap()).(components := components)
    {
      ghost var s0 := Snap();
      var pp := PthPath(checkpointDir, name, tag);
      ok := LoadSystemTorch(pp);
      if !ok {
        return;
      }
      var np := NpzPath(checkpointDir, name, tag);
      if np !in store.files.npz {
        ok := false;
        return;
      }
      match DecodeMeta(store.files.npz[np]) {
        case None =>
          ok := false;
        case Some(m) =>
          ghost var loaded := s0.(components := components, norm := m.norm, fitted := m.fitted,
                                  bestfit := m.bestfit, hist := m.hist);
          assert components == Restored(s0.components, store.files.pth[pp]);
          assert LoadCheckpoint(s0, store.files, tag) == Some(loaded);
          SetMeta(m);
      }
    }
  
    /** Line 165: `self.Loss_val.append(Loss_val)`. */
    method AppendValLoss(score: Score)
      modifies this
      ensures Snap() == old(Snap()).(hist := old(hist).(lossVal := old(hist.lossVal) + [score]))
    {
      hist := hist.(lossVal := hist.lossVal + [score]);
    }

    /** The nested `validation(append)` of lines 154-173, given the score it
        computes: modes and devices are cycled, the score is appended when
        asked, and a strict improvement saves "_best" and then becomes
        `bestfit`. */
    method Validation(score: Score, append: bool, cuda: bool)
      modifies this, store
      ensures Snap() == Validated(old(Snap()), score, append, cuda)
      ensures store.files == ValidatedFiles(old(Snap()), old(store.files), score, append)
    {
      ghost var s := Snap();
      ValidateScore(score, append);
      if cuda {
        ToCuda();
      }
      Train();
      assert components == Cycled(s.components, cuda);
    }

    /** Lines 155-169: evaluation mode on the CPU, then the score's
        bookkeeping and the "_best" checkpoint. */
    method ValidateScore(score: Score, append: bool)
      modifies this, store
      ensures Snap() == WithProgress(old(Snap()).(components := OnDevice(WithTraining(old(components), false), Cpu)),
                                     ValidatedProgress(ProgressOf(old(Snap())), score, append))
      ensures store.files == ValidatedFiles(old(Snap()), old(store.files), score, append)
    {
      ghost var s := Snap();
      ghost var f := store.files;
      Eval();
      ToCpu();
      if append {
        AppendValLoss(score);
      }
      ghost var ev := s.(components := OnDevice(WithTraining(s.components, false), Cpu),
                         hist := ValHistory(s.hist, score, append));
      assert Snap() == ev;
      if Below(score, bestfit) {
        CheckpointSaveSystem("_best");
        bestfit := score;
      }
    }

    /** Lines 175-190: the first call initialises (norm, dimensions,
        networks, optimizer, histories, `bestfit`, counters); a later call
        resumes `batch_counter` and the time offset `extra_t` from the
        histories. */
    method InitSession(data: SysData, optKw: map<string, KwValue>, hooks: Hooks) returns (extra: real)
      modifies this
      ensures (Snap(), extra) == Begun(old(Snap()), data, optKw, hooks)
    {
      if !fitted {
        FirstInit(data, optKw, hooks);
        extra := 0.0;
      } else {
        batchCounter := LastOr(hist.batchId, 0);
        extra := LastOr(hist.time, 0.0);
      }
    }

    /** Lines 175-187, the branch of a first call. */
    method FirstInit(data: SysData, optKw: map<string, KwValue>, hooks: Hooks)
      modifies this
      ensures Snap() == FirstCall(old(Snap()), data, optKw, hooks).(batchCounter := 0)
    {
      FitShape(data, hooks);
      InstallComponents(optKw, hooks);
      ResetProgress();
    }

    /** Lines 176-180: the norm is fitted on the data when it is used, and
        the input and output shapes are taken from the data. */
    method FitShape(data: SysData, hooks: Hooks)
      modifies this
      ensures Snap() == old(Snap()).(norm := if useNorm then hooks.normFit(data) else old(norm),
                                     nu := data.nu, ny := data.ny)
    {
      if useNorm {
        norm := hooks.normFit(data);
      }
      nu := data.nu;
      ny := data.ny;
    }

    /** Lines 181-182: the networks of `init_nets` become modules and the
        optimizer of `init_optimizer` is added beside them. */
    method InstallComponents(optKw: map<string, KwValue>, hooks: Hooks)
      modifies this
      ensures Snap() == old(Snap()).(components := (old(components) + map k | k in hooks.initNets(nu, ny) ::
                                       Component(Module, hooks.initNets(nu, ny)[k], true, Cpu))
                                       ["optimizer" := Component(Optimizer(InitOptimizer(optKw)), map[], true, Cpu)])
    {
      var nets := hooks.initNets(nu, ny);
      components := components + map k | k in nets :: Component(Module, nets[k], true, Cpu);
      components := components["optimizer" := Component(Optimizer(InitOptimizer(optKw)), map[], true, Cpu)];
    }

    /** Lines 183-187: `bestfit` is +infinity, the histories are empty, the
        step count is zero and the system counts as fitted. */
    method ResetProgress()
      modifies this
      ensures Snap() == old(Snap()).(bestfit := PosInf, hist := EmptyHistory, batchCounter := 0, fitted := true)
    {
      bestfit := PosInf;
      hist := EmptyHistory;
      batchCounter := 0;
      fitted := true;
    }

    /** Lines 245-248: the bookkeeping after one epoch's steps. */
    method RecordEpoch(ob: EpochObs)
      modifies this
      ensures Snap() == WithProgress(old(Snap()), TrainedProgress(ProgressOf(old(Snap())), ob))
    {
      batchCounter := batchCounter + ob.steps;
      hist := hist.(lossTrain := hist.lossTrain + [ob.loss], time := hist.time + [ob.time],
                    batchId := hist.batchId + [batchCounter]);
    }

    /** The epoch loop of lines 223-251 run for `epochs` epochs (an
        interrupt is a smaller `epochs`): each epoch trains over its
        batches, records its loss, time and step count, and validates. The
        system and the checkpoint directory end as `SyncProgress` and
        `SyncFiles` say. */
    method TrainEpochs(o: Oracles, epochs: nat, b: nat, extra: real, cuda: bool)
      requires 1 <= b <= o.trainSize && forall e :: |o.shuffle(e)| == o.trainSize
      requires components == Cycled(components, cuda)
      modifies this, store
      ensures Snap() == WithProgress(old(Snap()), SyncProgress(ProgressOf(old(Snap())), Observations(o, epochs, b, extra), epochs))
      ensures store.files == SyncFiles(old(Snap()), old(store.files), Observations(o, epochs, b, extra), epochs)
    {
      ghost var s0 := Snap();
      ghost var f0 := store.files;
      ghost var obs := Observations(o, epochs, b, extra);
      var e := 0;
      while e < epochs
        invariant e <= epochs
        invariant Snap() == WithProgress(s0, SyncProgress(ProgressOf(s0), obs, e))
        invariant store.files == SyncFiles(s0, f0, obs, e)
        invariant components == s0.components
      {
        ghost var prev, fprev := Snap(), store.files;
        Epoch(o, e, b, extra, cuda);
        SyncAdvance(s0, f0, obs, e, prev, fprev, Snap(), store.files);
        e := e + 1;
      }
    }

    /** One turn of the epoch loop: the steps over the shuffled windows,
        the bookkeeping of lines 245-248, and `validation()`. */
    method Epoch(o: Oracles, e: nat, b: nat, extra: real, cuda: bool)
      requires 1 <= b <= o.trainSize && |o.shuffle(e)| == o.trainSize
      requires components == Cycled(components, cuda)
      modifies this, store
      ensures var ob := Observation(o, e, b, extra);
        && Snap() == WithProgress(old(Snap()), EpochProgress(ProgressOf(old(Snap())), ob))
        && store.files == ValidatedFiles(WithProgress(old(Snap()), TrainedProgress(ProgressOf(old(Snap())), ob)),
                                         old(store.files), ob.score, true)
      ensures components == old(components)
    {
      ghost var before := Snap();
      var acc := EpochLossSum(o, e, b);
      var steps := StepsPerEpoch(o.trainSize, b);
      var ob := EpochObs(Fin(acc / (steps as real)), extra + o.clock(e), steps, o.score(e + 1));
      assert ob == Observation(o, e, b, extra);
      RecordEpoch(ob);
      ghost var trained := Snap();
      Validation(ob.score, true, cuda);
      EpochSettles(before, ob, cuda, trained, Snap());
    }

    /** Lines 254-258: training mode on the CPU, the "_last" checkpoint
        saved, and the "_best" one loaded back. */
    method EndSession() returns (ok: bool)
      modifies this, store
      ensures store.files == SaveCheckpoint(old(store.files), Ended(old(Snap())), "_last")
      ensures ok <==> LoadCheckpoint(Ended(old(Snap())), store.files, "_best").Some?
      ensures ok ==> Snap() == LoadCheckpoint(Ended(old(Snap())), store.files, "_best").value
      ensures !ok ==> Snap() == Ended(old(Snap())).(components := components)
    {
      Train();
      ToCpu();
      CheckpointSaveSystem("_last");
      ok := CheckpointLoadSystem("_best");
    }
  
    /** `fit` (lines 145-258) with the hooks and oracles of the call:
        initialisation, the first `validation(append=False)`, the batch size
        clamped to the training samples, `epochs` epochs, and the end of the
        session. A batch size of zero (also when there are no training
        samples) raises `ZeroDivisionError` right after the first
        validation. */
    method Fit(data: SysData, epochs: nat, batchSize: nat, optKw: map<string, KwValue>, cuda: bool,
               hooks: Hooks, o: Oracles) returns (out: Outcome)
      requires forall e :: |o.shuffle(e)| == o.trainSize
      modifies this, store
      ensures var begun := Begun(old(Snap()), data, optKw, hooks);
        var v0 := Validated(begun.0, o.score(0), false, cuda);
        var f0 := ValidatedFiles(begun.0, old(store.files), o.score(0), false);
        var b := EffectiveBatchSize(batchSize, o.trainSize);
        && (out == ZeroDivision <==> b == 0)
        && (b == 0 ==> Snap() == v0 && store.files == f0)
        && (b != 0 ==> SyncConcluded(v0, f0, Observations(o, epochs, b, begun.1), epochs,
                                     Snap(), store.files, out == Completed))
    {
      var extra := InitSession(data, optKw, hooks);
      ghost var begun := Snap();
      Validation(o.score(0), false, cuda);
      var b := EffectiveBatchSize(batchSize, o.trainSize);
      if b == 0 {
        return ZeroDivision;
      }
      CycledTwice(begun.components, cuda);
      TrainEpochs(o, epochs, b, extra, cuda);
      var ok := EndSession();
      out := if ok then Completed else LoadFailed;
    }
  
    /** Lines 298-312: initialisation on a first call, then the counters and
        `extra_t` resumed from the histories. */
    method InitSessionAsync(data: SysData, optKw: map<string, KwValue>, hooks: Hooks) returns (extra: real)
      modifies this
      ensures (Snap(), extra) == BegunAsync(old(Snap()), data, optKw, hooks)
    {
      if !fitted {
        FirstInit(data, optKw, hooks);
      }
      ResumeCounters();
      extra := LastOr(hist.time, 0.0);
    }

    /** Lines 310-311. */
    method ResumeCounters()
      modifies this
      ensures Snap() == old(Snap()).(epochCounter := LastOr(old(hist).epochId, 0.0),
                                     batchCounter := LastOr(old(hist).batchId, 0))
    {
      epochCounter := LastOr(hist.epochId, 0.0);
      batchCounter := LastOr(hist.batchId, 0);
    }

    /** `... = remote.recv()` into the attributes. */
    method AbsorbReply(r: Reply)
      modifies this
      ensures Snap() == Absorbed(old(Snap()), r)
    {
      hist := r.hist.(epochId := hist.epochId);
      epoch := r.hist.epochId;
      bestfit := r.bestfit;
    }

    /** Lines 384-385: the counters after one step. */
    method AdvanceCounters(inc: real)
      modifies this
      ensures Snap() == old(Snap()).(batchCounter := old(batchCounter) + 1, epochCounter := old(epochCounter) + inc)
    {
      batchCounter := batchCounter + 1;
      epochCounter := epochCounter + inc;
    }

    /** The state of the multiprocess loop after `j` steps: the channel
        is open with one message outstanding, and the exchange is as
        `Exchanging` says for this system and its directory. */
    ghost predicate Engaged(ch: Channel, first: Message, f0: Files, j: nat, inc: real)
      reads this, ch, store
    {
      && ch.Valid() && !ch.closed && ch.store == store && |ch.inFlight| == 1 && ch.peak == 1
      && Exchanging(ch.sent, ch.replies, first, f0, ch.scores, Snap(), store.files, j, inc)
    }

    /** Lines 379-380: the waiting reply is taken in and the system is sent
        again with the mean training loss since the last message. */
    method Exchange(ch: Channel, lossTrain: Score, timeNow: real, ghost first: Message, ghost f0: Files,
                    ghost j: nat, ghost inc: real)
      requires Engaged(ch, first, f0, j, inc)
      modifies this, ch, store
      ensures Engaged(ch, first, f0, j, inc)
      ensures ch.sent == old(ch.sent) + [Message(Snap(), true, lossTrain, timeNow)]
      ensures |ch.replies| == |old(ch.replies)| + 1
    {
      ExchangeStep(ch.sent, ch.replies, first, f0, ch.scores, Snap(), store.files, j, inc, lossTrain, timeNow);
      var r := ch.Recv();
      AbsorbReply(r);
      ch.Send(Message(Snap(), true, lossTrain, timeNow));
    }

    /** The batch loop of one epoch in the multiprocess engine (lines
        359-385), over the `N // B` end points `i = (k+1)*B` of
        `range(B, N + 1, B)`: after each step the pipe is polled, and a
        waiting reply is exchanged for a new message; the counters advance
        every step. The epoch's step losses, those of its windows, join
        the trace. */
    method AsyncEpoch(ch: Channel, o: Oracles, e: nat, b: nat, extra: real, inc: real,
                      j0: nat, accL0: real, nAcc0: nat, nSent0: nat,
                      ghost first: Message, ghost f0: Files, ghost marks0: seq<nat>, ghost trace0: seq<real>)
      returns (accL: real, nAcc: nat, nSent: nat, j: nat, ghost marks: seq<nat>, ghost trace: seq<real>)
      requires 1 <= b <= o.trainSize && |o.shuffle(e)| == o.trainSize
      requires |trace0| == j0
      requires ch.ready == o.poll && ch.scores == o.score
      requires Engaged(ch, first, f0, j0, inc) && nSent0 == |ch.sent| && Accounted(marks0, nSent0, trace0, accL0, nAcc0)
      requires ReportsAll(ch.sent, marks0, trace0, extra, o.clock, inc, false)
      modifies this, ch, store
      ensures j == j0 + StepsPerEpoch(o.trainSize, b) && trace == trace0 + StepLosses(o, o.shuffle(e), b, j0)
      ensures Engaged(ch, first, f0, j, inc) && nSent == |ch.sent| && Accounted(marks, nSent, trace, accL, nAcc)
      ensures ReportsAll(ch.sent, marks, trace, extra, o.clock, inc, false)
    {
      var ids := o.shuffle(e);
      var n := o.trainSize;
      accL, nAcc, nSent, marks, trace := accL0, nAcc0, nSent0, marks0, trace0;
      j := j0;
      for k := 0 to StepsPerEpoch(n, b)
        invariant j == j0 + k && trace == trace0 + LossesBefore(o, ids, b, j0, k)
        invariant Engaged(ch, first, f0, j, inc) && nSent == |ch.sent| && Accounted(marks, nSent, trace, accL, nAcc)
        invariant ReportsAll(ch.sent, marks, trace, extra, o.clock, inc, false)
      {
        var batch := NextWindow(ids, b, k, o, j0, j);
        AppendAssoc(trace0, LossesBefore(o, ids, b, j0, k), o.stepLoss(j, batch));
        accL, nAcc, nSent, j, marks, trace :=
          AsyncStep(ch, o, batch, j, extra, inc, accL, nAcc, nSent, first, f0, marks, trace);
      }
      LossesOfEpoch(o, ids, b, j0);
    }

    /** `ids[i - B:i]` for the k-th end point `i = (k+1)*B` of the loop: the
        k-th window, whose loss as step `j` is the next of the epoch's. */
    method NextWindow(ids: seq<nat>, b: nat, k: nat, ghost o: Oracles, ghost j0: nat, ghost j: nat)
      returns (batch: seq<nat>)
      requires 1 <= b && k < StepsPerEpoch(|ids|, b) && j == j0 + k
      ensures |batch| == b
      ensures LossesBefore(o, ids, b, j0, k + 1) == LossesBefore(o, ids, b, j0, k) + [o.stepLoss(j, batch)]
    {
      var lo := k * b;
      WindowInside(ids, b, k, lo);
      batch := ids[lo..lo + b];
      LossesSnoc(o, ids, b, j0, k, lo, j, [], LossesBefore(o, ids, b, j0, k), LossesBefore(o, ids, b, j0, k) + [o.stepLoss(j, batch)]);
    }

    /** One step of that loop (lines 359-385), the j-th overall, on
        `batch`: its loss is added to `Loss_acc` and to the trace; if
        `poll` sees a reply, it is exchanged for a message carrying the
        mean loss of the steps since the last one; then the counters
        advance. */
    method AsyncStep(ch: Channel, o: Oracles, batch: seq<nat>, j: nat, extra: real, inc: real,
                     accL0: real, nAcc0: nat, nSent0: nat, ghost first: Message, ghost f0: Files,
                     ghost marks0: seq<nat>, ghost trace0: seq<real>)
      returns (accL: real, nAcc: nat, nSent: nat, next: nat, ghost marks: seq<nat>, ghost trace: seq<real>)
      requires ch.ready == o.poll && ch.scores == o.score
      requires Engaged(ch, first, f0, j, inc) && nSent0 == |ch.sent| && |trace0| == j
      requires Accounted(marks0, nSent0, trace0, accL0, nAcc0) && ReportsAll(ch.sent, marks0, trace0, extra, o.clock, inc, false)
      modifies this, ch, store
      ensures next == j + 1 && trace == trace0 + [o.stepLoss(j, batch)]
      ensures Engaged(ch, first, f0, next, inc) && nSent == |ch.sent| && Accounted(marks, nSent, trace, accL, nAcc)
      ensures ReportsAll(ch.sent, marks, trace, extra, o.clock, inc, false)
    {
      var loss := o.stepLoss(j, batch);
      trace := trace0 + [loss];
      AccountedStep(marks0, nSent0, trace0, accL0, nAcc0, loss);
      ReportsLonger(ch.sent, marks0, trace0, extra, o.clock, inc, loss);
      accL, nAcc, nSent, marks := PollExchange(ch, o, j, extra, inc, accL0 + loss, nAcc0 + 1,
                                               nSent0, first, f0, marks0, trace);
      next := Advance(ch, first, f0, j, inc);
    }

    /** Lines 378-381: when `poll` sees the reply, it is taken in and the
        system is sent again with the mean loss of the `nAcc` steps since
        the last message, and `Loss_acc` and `N_batch_acc` restart at 0. */
    method PollExchange(ch: Channel, o: Oracles, j: nat, extra: real, inc: real,
                        accL0: real, nAcc0: nat, nSent0: nat, ghost first: Message, ghost f0: Files,
                        ghost marks0: seq<nat>, ghost trace: seq<real>)
      returns (accL: real, nAcc: nat, nSent: nat, ghost marks: seq<nat>)
      requires ch.ready == o.poll
      requires Engaged(ch, first, f0, j, inc) && nSent0 == |ch.sent| && |trace| == j + 1
      requires Accounted(marks0, nSent0, trace, accL0, nAcc0) && nAcc0 >= 1
      requires ReportsAll(ch.sent, marks0, trace, extra, o.clock, inc, false)
      modifies this, ch, store
      ensures Engaged(ch, first, f0, j, inc) && nSent == |ch.sent| && Accounted(marks, nSent, trace, accL, nAcc)
      ensures ReportsAll(ch.sent, marks, trace, extra, o.clock, inc, false)
    {
      accL, nAcc, nSent, marks := accL0, nAcc0, nSent0, marks0;
      var ready := ch.Poll(j);
      if ready {
        AccountedSend(marks, nSent, trace, accL, nAcc);
        marks := SendReport(ch, Fin(accL / (nAcc as real)), extra, o.clock, nSent, first, f0, j, inc, marks, trace, false);
        nSent := nSent + 1;
        accL, nAcc := 0.0, 0;
      }
    }

    /** Lines 379-381 and 399-400: the exchange of a message reporting the
        steps since the last mark, sent after `at` steps (`j - 1` inside the
        loop, `j` after it). */
    method SendReport(ch: Channel, lossTrain: Score, extra: real, clock: nat -> real, nSent: nat,
                      ghost first: Message, ghost f0: Files, ghost at: nat, ghost inc: real,
                      ghost marks0: seq<nat>, ghost trace: seq<real>, ghost flushed: bool)
      returns (ghost marks: seq<nat>)
      requires Engaged(ch, first, f0, at, inc) && nSent == |ch.sent|
      requires LastOr(marks0, 0) < |trace| && lossTrain == MeanLoss(trace, LastOr(marks0, 0), |trace|)
      requires at == if flushed then |trace| else |trace| - 1
      requires ReportsAll(ch.sent, marks0, trace, extra, clock, inc, false)
      modifies this, ch, store
      ensures Engaged(ch, first, f0, at, inc) && |ch.sent| == nSent + 1 && marks == marks0 + [|trace|]
      ensures ReportsAll(ch.sent, marks, trace, extra, clock, inc, flushed)
    {
      ghost var before := ch.sent;
      Exchange(ch, lossTrain, extra + clock(nSent), first, f0, at, inc);
      ReportsSend(before, marks0, trace, extra, clock, inc, ch.sent[nSent], flushed);
      marks := marks0 + [|trace|];
    }

    /** Lines 384-385 in the multiprocess loop: a step moves only the
        counters, and the exchange goes on one step further. */
    method Advance(ch: Channel, ghost first: Message, ghost f0: Files, j: nat, inc: real) returns (next: nat)
      requires Engaged(ch, first, f0, j, inc)
      modifies this
      ensures next == j + 1 && Engaged(ch, first, f0, next, inc)
    {
      next := j + 1;
      StepOn(ch.sent, ch.replies, first, f0, ch.scores, Snap(), store.files, j, inc);
      AdvanceCounters(inc);
    }

    /** The engine once the worker is gone: the pipe is closed with
        nothing in it, every message sent has its reply, and the system and
        the store are what the conversation made of them. */
    ghost predicate Done(ch: Channel, first: Message, f0: Files, j: nat, inc: real)
      reads this, ch, store
    {
      && ch.Valid() && ch.closed && ch.store == store && ch.inFlight == [] && ch.peak == 1
      && Finished(ch.sent, ch.replies, first, f0, ch.scores, Snap(), store.files, j, inc)
    }

    /** The last `remote.recv()` and `remote.close()` of lines 398-402:
        the reply to the last message is taken in and the pipe is closed. */
    method Hangup(ch: Channel, ghost first: Message, ghost f0: Files, ghost j: nat, ghost inc: real)
      requires Engaged(ch, first, f0, j, inc)
      modifies this, ch, store
      ensures Done(ch, first, f0, j, inc) && ch.sent == old(ch.sent)
    {
      FinalRecv(ch.sent, ch.replies, first, f0, ch.scores, Snap(), store.files, j, inc);
      var r := ch.Recv();
      AbsorbReply(r);
      ch.Close();
    }

    /** Lines 398-402: the outstanding reply is taken in; if steps were
        taken since the last message, their mean loss is sent too and
        answered; then the pipe is closed. Afterwards every message has its
        reply and every step is reported. */
    method Drain(ch: Channel, o: Oracles, extra: real, accL: real, nAcc: nat, nSent: nat,
                 ghost first: Message, ghost f0: Files, ghost j: nat, ghost inc: real,
                 ghost marks0: seq<nat>, ghost trace: seq<real>)
      returns (ghost marks: seq<nat>, ghost flushed: bool)
      requires Engaged(ch, first, f0, j, inc) && nSent == |ch.sent| && |trace| == j
      requires Accounted(marks0, nSent, trace, accL, nAcc) && ReportsAll(ch.sent, marks0, trace, extra, o.clock, inc, false)
      modifies this, ch, store
      ensures Done(ch, first, f0, j, inc) && Accounted(marks, |ch.sent|, trace, 0.0, 0)
      ensures flushed == (nAcc > 0) && ReportsAll(ch.sent, marks, trace, extra, o.clock, inc, flushed)
    {
      marks, flushed := marks0, false;
      if nAcc > 0 {
        AccountedSend(marks, nSent, trace, accL, nAcc);
        marks := SendReport(ch, Fin(accL / (nAcc as real)), extra, o.clock, nSent, first, f0, j, inc, marks, trace, true);
        flushed := true;
      } else {
        assert trace[LastOr(marks, 0)..] == [];
      }
      Hangup(ch, first, f0, j, inc);
    }

    /** `fit_val_multiprocess` (lines 262-408) with the hooks and oracles
        of the call: initialisation and the resumed counters, the worker
        started and sent the system once without appending, the batch size
        clamped to the training samples, `epochs` epochs of steps that
        exchange the system with the worker whenever `poll` sees a reply,
        the last exchanges, and the end of the session. A batch size of
        zero (also when there are no training samples) raises
        `ZeroDivisionError` right after the first message. Otherwise every
        later message reports, as `ReportsAll` says, the steps since the
        previous one, by the marks into the trace of all step losses, and
        together they report every step. */
    method FitValMultiprocess(data: SysData, epochs: nat, batchSize: nat, optKw: map<string, KwValue>,
                              hooks: Hooks, o: Oracles)
      returns (out: Outcome, ch: Channel, ghost marks: seq<nat>, ghost trace: seq<real>, ghost flushed: bool)
      requires forall e :: |o.shuffle(e)| == o.trainSize
      modifies this, store
      ensures fresh(ch) && ch.store == store && ch.scores == o.score && ch.ready == o.poll
      ensures var begun := BegunAsync(old(Snap()), data, optKw, hooks);
        var first := Message(begun.0, false, PosInf, begun.1 + o.clock(0));
        var b := EffectiveBatchSize(batchSize, o.trainSize);
        && |ch.sent| >= 1 && ch.sent[0] == first && SameHome(ch.sent)
        && Conversation(ch.sent, ch.replies, ch.scores)
        && (out == ZeroDivision <==> b == 0)
        && (b == 0 ==> Snap() == begun.0 && ch.sent == ch.inFlight == [first] && !ch.closed)
        && (b != 0 ==>
              var steps := StepsPerEpoch(o.trainSize, b);
              var inc := 1.0 / (steps as real);
              && ch.closed && ch.inFlight == [] && ch.peak == 1 && |ch.replies| == |ch.sent|
              && trace == StepTrace(o, b, epochs)
              && Accounted(marks, |ch.sent|, trace, 0.0, 0)
              && ReportsAll(ch.sent, marks, trace, begun.1, o.clock, inc, flushed)
              && AsyncConcluded(begun.0, old(store.files), ch.sent, ch.replies, o.score, epochs * steps,
                                inc, Snap(), store.files, out == Completed))
    {
      ghost var f0 := store.files;
      var extra, first;
      ch, extra, first := Open(data, optKw, hooks, o);
      marks, trace, flushed := [], [], false;
      var b := EffectiveBatchSize(batchSize, o.trainSize);
      if b == 0 {
        StartExchange(first, f0, o.score, 0.0);
        return ZeroDivision, ch, marks, trace, flushed;
      }
      out, marks, trace, flushed := RunAsync(ch, o, epochs, b, extra, first, f0);
    }

    /** Lines 341-408 once the batch size is positive: training with the
        worker, then the end of the session. */
    method RunAsync(ch: Channel, o: Oracles, epochs: nat, b: nat, extra: real, ghost first: Message, ghost f0: Files)
      returns (out: Outcome, ghost marks: seq<nat>, ghost trace: seq<real>, ghost flushed: bool)
      requires 1 <= b <= o.trainSize && forall e :: |o.shuffle(e)| == o.trainSize
      requires ch.ready == o.poll && ch.scores == o.score && !first.append
      requires ch.Valid() && !ch.closed && ch.store == store && ch.peak == 1
      requires ch.sent == ch.inFlight == [first] && ch.replies == [] && Snap() == first.sys && store.files == f0
      modifies this, ch, store
      ensures out != ZeroDivision
      ensures var steps := StepsPerEpoch(o.trainSize, b);
        var inc := 1.0 / (steps as real);
        && ch.Valid() && ch.closed && ch.store == store && ch.inFlight == [] && ch.peak == 1
        && |ch.replies| == |ch.sent| >= 1 && ch.sent[0] == first && SameHome(ch.sent)
        && Conversation(ch.sent, ch.replies, ch.scores)
        && trace == StepTrace(o, b, epochs)
        && Accounted(marks, |ch.sent|, trace, 0.0, 0)
        && ReportsAll(ch.sent, marks, trace, extra, o.clock, inc, flushed)
        && AsyncConcluded(first.sys, f0, ch.sent, ch.replies, o.score, epochs * steps,
                          inc, Snap(), store.files, out == Completed)
    {
      var steps := StepsPerEpoch(o.trainSize, b);
      var inc := 1.0 / (steps as real);
      StartExchange(first, f0, o.score, inc);
      var j;
      j, marks, trace, flushed := TrainAsync(ch, o, epochs, b, extra, inc, first, f0);
      var ok := EndSession();
      out := if ok then Completed else LoadFailed;
    }

    /** Lines 298-339: initialisation, the worker started, and the system
        sent once without appending and with an infinite training loss. */
    method Open(data: SysData, optKw: map<string, KwValue>, hooks: Hooks, o: Oracles)
      returns (ch: Channel, extra: real, first: Message)
      modifies this
      ensures (Snap(), extra) == BegunAsync(old(Snap()), data, optKw, hooks)
      ensures first == Message(Snap(), false, PosInf, extra + o.clock(0))
      ensures fresh(ch) && ch.store == store && ch.scores == o.score && ch.ready == o.poll
      ensures ch.Valid() && !ch.closed && ch.peak == 1
      ensures ch.sent == ch.inFlight == [first] && ch.replies == []
    {
      extra := InitSessionAsync(data, optKw, hooks);
      ch := new Channel(store, o.score, o.poll);
      first := Message(Snap(), false, PosInf, extra + o.clock(0));
      ch.Send(first);
    }

    /** Lines 341-402: `epochs` epochs of steps, then the last exchanges;
        what is left in `Loss_acc` is sent if any step is unreported. */
    method TrainAsync(ch: Channel, o: Oracles, epochs: nat, b: nat, extra: real, inc: real,
                      ghost first: Message, ghost f0: Files)
      returns (j: nat, ghost marks: seq<nat>, ghost trace: seq<real>, ghost flushed: bool)
      requires 1 <= b <= o.trainSize && forall e :: |o.shuffle(e)| == o.trainSize
      requires ch.ready == o.poll && ch.scores == o.score
      requires Engaged(ch, first, f0, 0, inc) && |ch.sent| == 1
      modifies this, ch, store
      ensures j == epochs * StepsPerEpoch(o.trainSize, b) && trace == StepTrace(o, b, epochs)
      ensures Done(ch, first, f0, j, inc) && Accounted(marks, |ch.sent|, trace, 0.0, 0)
      ensures ReportsAll(ch.sent, marks, trace, extra, o.clock, inc, flushed)
    {
      var accL, nAcc, nSent;
      accL, nAcc, nSent, j, marks, trace := AsyncEpochs(ch, o, epochs, b, extra, inc, first, f0);
      marks, flushed := Drain(ch, o, extra, accL, nAcc, nSent, first, f0, j, inc, marks, trace);
    }

    /** Lines 341-386: the epoch loop; the `N // B` steps of an epoch
        advance `epoch_counter` by `inc` each, and `Loss_acc` holds the sum
        of the losses of the steps since the last message. */
    method AsyncEpochs(ch: Channel, o: Oracles, epochs: nat, b: nat, extra: real, inc: real,
                       ghost first: Message, ghost f0: Files)
      returns (accL: real, nAcc: nat, nSent: nat, j: nat, ghost marks: seq<nat>, ghost trace: seq<real>)
      requires 1 <= b <= o.trainSize && forall e :: |o.shuffle(e)| == o.trainSize
      requires ch.ready == o.poll && ch.scores == o.score
      requires Engaged(ch, first, f0, 0, inc) && |ch.sent| == 1
      modifies this, ch, store
      ensures j == epochs * StepsPerEpoch(o.trainSize, b) && trace == StepTrace(o, b, epochs)
      ensures Engaged(ch, first, f0, j, inc) && nSent == |ch.sent| && Accounted(marks, nSent, trace, accL, nAcc)
      ensures ReportsAll(ch.sent, marks, trace, extra, o.clock, inc, false)
    {
      accL, nAcc, nSent := 0.0, 0, 1;
      j, marks, trace := 0, [], [];
      for e := 0 to epochs
        invariant j == e * StepsPerEpoch(o.trainSize, b) && trace == StepTrace(o, b, e)
        invariant Engaged(ch, first, f0, j, inc) && nSent == |ch.sent| && Accounted(marks, nSent, trace, accL, nAcc)
        invariant ReportsAll(ch.sent, marks, trace, extra, o.clock, inc, false)
      {
        ghost var j0, trace0 := j, trace;
        accL, nAcc, nSent, j, marks, trace :=
          AsyncEpoch(ch, o, e, b, extra, inc, j, accL, nAcc, nSent, first, f0, marks, trace);
        StepTraceSnoc(o, b, e, j0, j, trace0, trace);
      }
    }
  }
}
