/** The protocol of `fit_val_multiprocess` and its validation worker
    `_worker`, run as one sequential state machine.

    The engine sends a pickled copy of the system together with `append`,
    the mean training loss since the last message and the time; the worker
    validates that copy, appends to its lists, keeps the running minimum of
    the scores, saves the "_best" checkpoint when the score does not exceed
    the best so far, and replies with its five lists and `bestfit`. The
    engine puts the reply into its own attributes, the fifth list into
    `self.epoch` rather than `self.epoch_id`. */
module Async {
  import opened Scores
  import opened Components
  import opened Checkpoint
  import opened Optimizers
  import opened Session

  /** `remote.send((self, append, Loss_train, time_now))`. */
  datatype Message = Message(sys: Snapshot, append: bool, lossTrain: Score, timeNow: real)

  /** `(Loss_val, Loss_train, batch_id, time, epoch_id, bestfit)` of the
      worker's copy after it handled a message. */
  datatype Reply = Reply(hist: History, bestfit: Score)

  /** Lines 469-490: the worker's copy after handling `m`, whose validation
      gave `score`. With `append` the five lists grow by exactly one entry
      each: the score, the sent training loss, the copy's `batch_counter`,
      `time_now` and the copy's `epoch_counter`; without it no list
      changes. `bestfit` becomes the smaller of itself and the score. The
      copy ends in training mode on the CPU. */
  function Handled(m: Message, score: Score): (r: Snapshot)
    ensures m.append ==>
      && r.hist.lossVal == m.sys.hist.lossVal + [score]
      && r.hist.lossTrain == m.sys.hist.lossTrain + [m.lossTrain]
      && r.hist.batchId == m.sys.hist.batchId + [m.sys.batchCounter]
      && r.hist.time == m.sys.hist.time + [m.timeNow]
      && r.hist.epochId == m.sys.hist.epochId + [m.sys.epochCounter]
    ensures !m.append ==> r.hist == m.sys.hist
    ensures r.bestfit == Min(m.sys.bestfit, score)
    ensures ReadyToTrain(m.sys.components, r.components, false)
    ensures r == m.sys.(components := r.components, hist := r.hist, bestfit := r.bestfit)
  {
    var h := m.sys.hist;
    var hist := if m.append then
        History(h.lossVal + [score], h.lossTrain + [m.lossTrain], h.batchId + [m.sys.batchCounter],
                h.time + [m.timeNow], h.epochId + [m.sys.epochCounter])
      else h;
    StrictAndWeakUpdatesAgree(m.sys.bestfit, score);
    m.sys.(components := Cycled(m.sys.components, false), hist := hist,
           bestfit := if AtMost(score, m.sys.bestfit) then score else m.sys.bestfit)
  }

  /** The checkpoint directory after the worker handled `m`: on
      `bestfit >= score` it assigns the score first and then saves, so the
      stored `bestfit` is the new best, and an equal score saves again. */
  function HandledFiles(m: Message, score: Score, files: Files): (f: Files)
    ensures !AtMost(score, m.sys.bestfit) ==> f == files
    ensures AtMost(score, m.sys.bestfit) ==> f == SaveCheckpoint(files, Handled(m, score), "_best")
    ensures AtMost(score, m.sys.bestfit) ==>
      DecodeMeta(f.npz[NpzPath(m.sys.checkpointDir, m.sys.name, "_best")])
        == Some(Meta(m.sys.norm, m.sys.fitted, score, Handled(m, score).hist))
  {
    if AtMost(score, m.sys.bestfit) then SaveCheckpoint(files, Handled(m, score), "_best") else files
  }

  /** The worker's answer to `m`. */
  function ReplyTo(m: Message, score: Score): Reply {
    Reply(Handled(m, score).hist, Handled(m, score).bestfit)
  }

  /** `self.Loss_val, self.Loss_train, self.batch_id, self.time, self.epoch,
      self.bestfit = remote.recv()`: four lists and `bestfit` are taken from
      the reply, the fifth list goes to `epoch`, and `epoch_id` is kept. */
  function Absorbed(s: Snapshot, r: Reply): (t: Snapshot)
    ensures t.hist.lossVal == r.hist.lossVal && t.hist.lossTrain == r.hist.lossTrain
    ensures t.hist.batchId == r.hist.batchId && t.hist.time == r.hist.time
    ensures t.hist.epochId == s.hist.epochId && t.epoch == r.hist.epochId && t.bestfit == r.bestfit
    ensures t == s.(hist := t.hist, epoch := t.epoch, bestfit := t.bestfit)
  {
    s.(hist := r.hist.(epochId := s.hist.epochId), epoch := r.hist.epochId, bestfit := r.bestfit)
  }

  /** `s` holds the lists and `bestfit` of reply `r`, with `epochIds` as its
      `epoch_id`: the state the engine sends right after a `recv`. */
  ghost predicate Follows(s: Snapshot, r: Reply, epochIds: seq<real>) {
    s.hist == r.hist.(epochId := epochIds) && s.bestfit == r.bestfit
  }

  /** `m` appends and was sent right after reply `r` was taken in. */
  ghost predicate SentAfter(m: Message, r: Reply, epochIds: seq<real>) {
    m.append && Follows(m.sys, r, epochIds)
  }

  /** The messages and replies of one call: the first message does not
      append, every later one appends and is sent right after the reply to
      its predecessor was taken in, and the k-th reply answers the k-th
      message with the k-th score. */
  ghost predicate Conversation(msgs: seq<Message>, replies: seq<Reply>, scores: nat -> Score) {
    && |replies| <= |msgs|
    && (|msgs| > 0 ==> !msgs[0].append)
    && |msgs| <= |replies| + 1
    && (forall k {:trigger replies[k]} :: 0 <= k < |replies| ==> replies[k] == ReplyTo(msgs[k], scores(k)))
    && (forall k {:trigger replies[k]} :: 0 <= k < |replies| && k + 1 < |msgs| ==>
          SentAfter(msgs[k + 1], replies[k], msgs[0].sys.hist.epochId))
  }

  /** `scores(lo), ..., scores(hi - 1)`. */
  function Answers(scores: nat -> Score, lo: nat, hi: nat): (r: seq<Score>)
    requires lo <= hi
    ensures |r| == hi - lo && forall i :: 0 <= i < hi - lo ==> r[i] == scores(lo + i)
    decreases hi - lo
  {
    if hi == lo then [] else Answers(scores, lo, hi - 1) + [scores(hi - 1)]
  }

  /** The training losses sent with messages `1 .. k`. */
  function SentLosses(msgs: seq<Message>, k: nat): (r: seq<Score>)
    requires k < |msgs|
    ensures |r| == k && forall i :: 0 <= i < k ==> r[i] == msgs[i + 1].lossTrain
  {
    if k == 0 then [] else SentLosses(msgs, k - 1) + [msgs[k].lossTrain]
  }

  /** The `batch_counter` values sent with messages `1 .. k`. */
  function SentCounts(msgs: seq<Message>, k: nat): (r: seq<int>)
    requires k < |msgs|
    ensures |r| == k && forall i :: 0 <= i < k ==> r[i] == msgs[i + 1].sys.batchCounter
  {
    if k == 0 then [] else SentCounts(msgs, k - 1) + [msgs[k].sys.batchCounter]
  }

  /** The times sent with messages `1 .. k`. */
  function SentTimes(msgs: seq<Message>, k: nat): (r: seq<real>)
    requires k < |msgs|
    ensures |r| == k && forall i :: 0 <= i < k ==> r[i] == msgs[i + 1].timeNow
  {
    if k == 0 then [] else SentTimes(msgs, k - 1) + [msgs[k].timeNow]
  }

  /** The k-th reply's `Loss_val`: the first message's list followed by the
      scores of messages `1 .. k`; the first score is never appended. */
  lemma {:induction false} RepliedLossVal(msgs: seq<Message>, replies: seq<Reply>, scores: nat -> Score, k: nat)
    requires Conversation(msgs, replies, scores) && k < |replies|
    ensures replies[k].hist.lossVal == msgs[0].sys.hist.lossVal + Answers(scores, 1, k + 1)
  {
    if k > 0 {
      RepliedLossVal(msgs, replies, scores, k - 1);
      assert Follows(msgs[k].sys, replies[k - 1], msgs[0].sys.hist.epochId);
      SnocStep(replies[k].hist.lossVal, replies[k - 1].hist.lossVal, msgs[0].sys.hist.lossVal,
               Answers(scores, 1, k), Answers(scores, 1, k + 1), scores(k));
    }
  }

  /** The k-th reply's `Loss_train`: one sent mean per later message. */
  lemma {:induction false} RepliedLossTrain(msgs: seq<Message>, replies: seq<Reply>, scores: nat -> Score, k: nat)
    requires Conversation(msgs, replies, scores) && k < |replies|
    ensures replies[k].hist.lossTrain == msgs[0].sys.hist.lossTrain + SentLosses(msgs, k)
  {
    if k > 0 {
      RepliedLossTrain(msgs, replies, scores, k - 1);
      assert Follows(msgs[k].sys, replies[k - 1], msgs[0].sys.hist.epochId);
      SnocStep(replies[k].hist.lossTrain, replies[k - 1].hist.lossTrain, msgs[0].sys.hist.lossTrain,
               SentLosses(msgs, k - 1), SentLosses(msgs, k), msgs[k].lossTrain);
    }
  }

  /** The k-th reply's `batch_id`: the `batch_counter` of each later message. */
  lemma {:induction false} RepliedBatchId(msgs: seq<Message>, replies: seq<Reply>, scores: nat -> Score, k: nat)
    requires Conversation(msgs, replies, scores) && k < |replies|
    ensures replies[k].hist.batchId == msgs[0].sys.hist.batchId + SentCounts(msgs, k)
  {
    if k > 0 {
      RepliedBatchId(msgs, replies, scores, k - 1);
      assert Follows(msgs[k].sys, replies[k - 1], msgs[0].sys.hist.epochId);
      SnocStep(replies[k].hist.batchId, replies[k - 1].hist.batchId, msgs[0].sys.hist.batchId,
               SentCounts(msgs, k - 1), SentCounts(msgs, k), msgs[k].sys.batchCounter);
    }
  }

  /** The k-th reply's `time`: the time sent with each later message. */
  lemma {:induction false} RepliedTime(msgs: seq<Message>, replies: seq<Reply>, scores: nat -> Score, k: nat)
    requires Conversation(msgs, replies, scores) && k < |replies|
    ensures replies[k].hist.time == msgs[0].sys.hist.time + SentTimes(msgs, k)
  {
    if k > 0 {
      RepliedTime(msgs, replies, scores, k - 1);
      assert Follows(msgs[k].sys, replies[k - 1], msgs[0].sys.hist.epochId);
      SnocStep(replies[k].hist.time, replies[k - 1].hist.time, msgs[0].sys.hist.time,
               SentTimes(msgs, k - 1), SentTimes(msgs, k), msgs[k].timeNow);
    }
  }

  /** Each reply's `bestfit` is the smaller of the previous reply's (the
      first message's, for the first reply) and the new score. */
  lemma ReplyBestStep(msgs: seq<Message>, replies: seq<Reply>, scores: nat -> Score, k: nat)
    requires Conversation(msgs, replies, scores) && k < |replies|
    ensures k == 0 ==> replies[k].bestfit == Min(msgs[0].sys.bestfit, scores(k))
    ensures k > 0 ==> replies[k].bestfit == Min(replies[k - 1].bestfit, scores(k))
  {
    if k > 0 {
      assert Follows(msgs[k].sys, replies[k - 1], msgs[0].sys.hist.epochId);
    }
  }

  /** A chain of bests, each the smaller of its predecessor (`b0` for the
      first) and the next score, holds the running minimum of the scores. */
  lemma {:induction false} BestChain(b0: Score, bests: seq<Score>, scores: nat -> Score, k: nat)
    requires k < |bests|
    requires bests[0] == Min(b0, scores(0))
    requires forall j :: 0 < j < |bests| ==> bests[j] == Min(bests[j - 1], scores(j))
    ensures bests[k] == RunningMin(b0, Answers(scores, 0, k + 1))
  {
    var before := Answers(scores, 0, k);
    if k == 0 {
      assert before == [];
      assert RunningMin(b0, before) == b0;
    } else {
      BestChain(b0, bests, scores, k - 1);
      assert bests[k] == Min(bests[k - 1], scores(k));
    }
    assert bests[k] == Min(RunningMin(b0, before), scores(k));
    RunningMinSnoc(b0, before, scores(k));
    assert Answers(scores, 0, k + 1) == before + [scores(k)];
  }

  /** The `bestfit` of each reply. */
  function Bests(replies: seq<Reply>): (r: seq<Score>)
    ensures |r| == |replies| && forall j :: 0 <= j < |replies| ==> r[j] == replies[j].bestfit
  {
    if replies == [] then [] else Bests(replies[..|replies| - 1]) + [replies[|replies| - 1].bestfit]
  }

  /** The k-th reply's `bestfit` is the running minimum of the starting
      `bestfit` and the first k + 1 scores, the first one included. */
  lemma RepliedBest(msgs: seq<Message>, replies: seq<Reply>, scores: nat -> Score, k: nat)
    requires Conversation(msgs, replies, scores) && k < |replies|
    ensures replies[k].bestfit == RunningMin(msgs[0].sys.bestfit, Answers(scores, 0, k + 1))
  {
    var bests := Bests(replies);
    ReplyBestStep(msgs, replies, scores, 0);
    forall j | 0 < j < |bests| ensures bests[j] == Min(bests[j - 1], scores(j)) {
      ReplyBestStep(msgs, replies, scores, j);
    }
    BestChain(msgs[0].sys.bestfit, bests, scores, k);
  }

  /** Because the engine never takes the fifth list back into `epoch_id`,
      every reply after the first holds the starting `epoch_id` plus only
      the latest message's `epoch_counter`. */
  lemma RepliedEpochId(msgs: seq<Message>, replies: seq<Reply>, scores: nat -> Score, k: nat)
    requires Conversation(msgs, replies, scores) && k < |replies|
    ensures k == 0 ==> replies[k].hist.epochId == msgs[0].sys.hist.epochId
    ensures k > 0 ==> replies[k].hist.epochId == msgs[0].sys.hist.epochId + [msgs[k].sys.epochCounter]
  {
    if k > 0 {
      assert Follows(msgs[k].sys, replies[k - 1], msgs[0].sys.hist.epochId);
    }
  }

  /** Lockstep on the engine side: if `Loss_val`, `Loss_train`, `batch_id`
      and `time` were equally long at the first message, then after the
      k-th reply each is longer by exactly k, while `epoch_id` has grown by
      at most one. */
  lemma RepliesLockstep(msgs: seq<Message>, replies: seq<Reply>, scores: nat -> Score, k: nat)
    requires Conversation(msgs, replies, scores) && k < |replies|
    requires var h := msgs[0].sys.hist; |h.lossVal| == |h.lossTrain| == |h.batchId| == |h.time|
    ensures var h := msgs[0].sys.hist; var r := replies[k].hist;
      && |r.lossVal| == |r.lossTrain| == |r.batchId| == |r.time| == |h.lossVal| + k
      && |r.epochId| == |h.epochId| + (if k == 0 then 0 else 1)
  {
    RepliedLossVal(msgs, replies, scores, k);
    RepliedLossTrain(msgs, replies, scores, k);
    RepliedBatchId(msgs, replies, scores, k);
    RepliedTime(msgs, replies, scores, k);
    RepliedEpochId(msgs, replies, scores, k);
  }

  /** Lines 298-312: the state the engine starts from, and `extra_t`. Only a
      first call initialises; every call then resumes `epoch_counter`,
      `batch_counter` and the time offset from the last history entries. */
  function BegunAsync(s: Snapshot, data: SysData, optKw: map<string, KwValue>, hooks: Hooks): (r: (Snapshot, real))
    ensures r.0.fitted
    ensures !s.fitted ==> r.0.hist == EmptyHistory && r.0.bestfit == PosInf
                          && r.0.batchCounter == 0 && r.0.epochCounter == 0.0 && r.1 == 0.0
    ensures s.fitted ==> r.0 == s.(batchCounter := LastOr(s.hist.batchId, 0),
                                   epochCounter := LastOr(s.hist.epochId, 0.0))
    ensures r.1 == LastOr(r.0.hist.time, 0.0)
  {
    var f := if s.fitted then s else FirstCall(s, data, optKw, hooks);
    (f.(epochCounter := LastOr(f.hist.epochId, 0.0), batchCounter := LastOr(f.hist.batchId, 0)),
     LastOr(f.hist.time, 0.0))
  }

  /** Both engines start from the same system and the same time offset; the
      multiprocess one also resumes `epoch_counter` from `epoch_id`. */
  lemma BeginningsAgree(s: Snapshot, data: SysData, optKw: map<string, KwValue>, hooks: Hooks)
    ensures var sync := Begun(s, data, optKw, hooks);
      && BegunAsync(s, data, optKw, hooks).0 == sync.0.(epochCounter := LastOr(sync.0.hist.epochId, 0.0))
      && BegunAsync(s, data, optKw, hooks).1 == sync.1
  {
    if !s.fitted {
      assert FirstCall(s, data, optKw, hooks).hist == EmptyHistory;
    }
  }

  /** `epoch_counter` after `j` steps of `epoch_counter += inc` from `start`. */
  function CounterAfter(start: real, inc: real, j: nat): real {
    if j == 0 then start else CounterAfter(start, inc, j - 1) + inc
  }

  /** `j` increments of `inc` add `j * inc` (over the reals). */
  lemma {:induction false} CounterAfterIsProduct(start: real, inc: real, j: nat)
    ensures CounterAfter(start, inc, j) == start + (j as real) * inc
  {
    if j > 0 {
      CounterAfterIsProduct(start, inc, j - 1);
      assert (j as real) * inc == ((j - 1) as real) * inc + inc;
    }
  }

  /** The engine's system after `j` training steps of which the replies so
      far were taken in: the counters advanced by one step each (the epoch
      counter by `inc = 1 / (N // B)`), and the lists, `epoch` and `bestfit`
      from the latest reply. */
  ghost function EngineAt(begun: Snapshot, replies: seq<Reply>, j: nat, inc: real): (t: Snapshot)
    ensures t.batchCounter == begun.batchCounter + j
    ensures t.epochCounter == CounterAfter(begun.epochCounter, inc, j)
    ensures t.hist.epochId == begun.hist.epochId
    ensures t.name == begun.name && t.checkpointDir == begun.checkpointDir
    ensures t.norm == begun.norm && t.fitted == begun.fitted && t.components == begun.components
    ensures replies != [] ==> Follows(t, replies[|replies| - 1], begun.hist.epochId)
  {
    var base := begun.(batchCounter := begun.batchCounter + j,
                       epochCounter := CounterAfter(begun.epochCounter, inc, j));
    if replies == [] then base else Absorbed(base, replies[|replies| - 1])
  }

  /** Taking in a reply replaces what the previous one brought. */
  lemma EngineTakesReply(begun: Snapshot, replies: seq<Reply>, j: nat, inc: real, r: Reply)
    ensures Absorbed(EngineAt(begun, replies, j, inc), r) == EngineAt(begun, replies + [r], j, inc)
  {
  }

  /** One more step advances only the counters. */
  lemma EngineSteps(begun: Snapshot, replies: seq<Reply>, j: nat, inc: real)
    ensures EngineAt(begun, replies, j + 1, inc)
         == EngineAt(begun, replies, j, inc).(batchCounter := begun.batchCounter + j + 1,
                                              epochCounter := CounterAfter(begun.epochCounter, inc, j) + inc)
  {
  }

  /** The checkpoint directory after the worker handled `msgs`, in order,
      the k-th with `scores(k)`. */
  ghost function WorkerFiles(files: Files, msgs: seq<Message>, scores: nat -> Score): Files {
    if msgs == [] then files
    else HandledFiles(msgs[|msgs| - 1], scores(|msgs| - 1), WorkerFiles(files, msgs[..|msgs| - 1], scores))
  }

  /** Every message carries the same system name, directory, norm and
      `fitted` flag as the first. */
  ghost predicate SameHome(msgs: seq<Message>) {
    forall k :: 0 <= k < |msgs| ==>
      && msgs[k].sys.name == msgs[0].sys.name && msgs[k].sys.checkpointDir == msgs[0].sys.checkpointDir
      && msgs[k].sys.norm == msgs[0].sys.norm && msgs[k].sys.fitted == msgs[0].sys.fitted
  }

  /** The "_best" checkpoint in the directory of `s` holds `best` as its
      `bestfit`, with the norm and `fitted` flag of `s`. */
  ghost predicate BestStored(s: Snapshot, f: Files, best: Score) {
    var path := NpzPath(s.checkpointDir, s.name, "_best");
    && path in f.npz
    && DecodeMeta(f.npz[path]).Some?
    && DecodeMeta(f.npz[path]).value.bestfit == best
    && DecodeMeta(f.npz[path]).value.norm == s.norm
    && DecodeMeta(f.npz[path]).value.fitted == s.fitted
  }

  /** The `bestfit` of each reply is the smaller of its message's and its
      score, and each later message carries the previous reply's. */
  ghost predicate BestThread(msgs: seq<Message>, replies: seq<Reply>, scores: nat -> Score) {
    && |replies| <= |msgs|
    && (forall k {:trigger replies[k]} :: 0 <= k < |replies| ==>
          replies[k].bestfit == Min(msgs[k].sys.bestfit, scores(k)))
    && (forall k {:trigger replies[k]} :: 0 <= k < |replies| && k + 1 < |msgs| ==>
          msgs[k + 1].sys.bestfit == replies[k].bestfit)
  }

  /** A `Conversation` chains `bestfit` from reply to message. */
  lemma ConversationChains(msgs: seq<Message>, replies: seq<Reply>, scores: nat -> Score)
    requires Conversation(msgs, replies, scores)
    ensures BestThread(msgs, replies, scores)
  {
    forall k | 0 <= k < |replies| && k + 1 < |msgs|
      ensures msgs[k + 1].sys.bestfit == replies[k].bestfit
    {
      assert Follows(msgs[k + 1].sys, replies[k], msgs[0].sys.hist.epochId);
    }
  }

  /** Because the worker assigns `bestfit` before it saves, and saves on
      every score that does not exceed it, once the first message saved
      the "_best" checkpoint always holds the `bestfit` of the latest
      reply, unlike the synchronous engine's. */
  lemma {:induction false} WorkerBest(msgs: seq<Message>, replies: seq<Reply>, scores: nat -> Score,
                                      files: Files, k: nat)
    requires BestThread(msgs, replies, scores) && SameHome(msgs) && k < |replies|
    requires AtMost(scores(0), msgs[0].sys.bestfit)
    ensures BestStored(msgs[0].sys, WorkerFiles(files, msgs[..k + 1], scores), replies[k].bestfit)
  {
    var m := msgs[k];
    var prev := WorkerFiles(files, msgs[..k], scores);
    WorkerFilesStep(files, msgs, scores, k);
    assert replies[k].bestfit == Min(m.sys.bestfit, scores(k));
    if AtMost(scores(k), m.sys.bestfit) {
      BestAfterSave(msgs[0].sys, m, scores(k), prev);
    } else {
      WorkerBest(msgs, replies, scores, files, k - 1);
      assert m.sys.bestfit == replies[k - 1].bestfit;
      BestAfterSkip(msgs[0].sys, m, scores(k), prev);
    }
  }

  /** A score that does not exceed `bestfit` is saved with itself as the
      stored `bestfit`. */
  lemma BestAfterSave(home: Snapshot, m: Message, score: Score, prev: Files)
    requires m.sys.name == home.name && m.sys.checkpointDir == home.checkpointDir
    requires m.sys.norm == home.norm && m.sys.fitted == home.fitted
    requires AtMost(score, m.sys.bestfit)
    ensures BestStored(home, HandledFiles(m, score, prev), Min(m.sys.bestfit, score))
  {
    StrictAndWeakUpdatesAgree(m.sys.bestfit, score);
  }

  /** A larger score writes nothing, and `bestfit` stays what is stored. */
  lemma BestAfterSkip(home: Snapshot, m: Message, score: Score, prev: Files)
    requires BestStored(home, prev, m.sys.bestfit) && !AtMost(score, m.sys.bestfit)
    ensures BestStored(home, HandledFiles(m, score, prev), Min(m.sys.bestfit, score))
  {
    StrictAndWeakUpdatesAgree(m.sys.bestfit, score);
  }

  /** Once every message is answered, the "_best" checkpoint holds the
      last reply's `bestfit`. */
  lemma WorkerBestLast(msgs: seq<Message>, replies: seq<Reply>, scores: nat -> Score, files: Files)
    requires Conversation(msgs, replies, scores) && SameHome(msgs) && 1 <= |replies| == |msgs|
    requires AtMost(scores(0), msgs[0].sys.bestfit)
    ensures BestStored(msgs[0].sys, WorkerFiles(files, msgs, scores), replies[|replies| - 1].bestfit)
  {
    var k := |replies| - 1;
    ConversationChains(msgs, replies, scores);
    WorkerBest(msgs, replies, scores, files, k);
    assert msgs[..k + 1] == msgs;
  }

  /** Mid-call, with one message outstanding: the exchange is a
      `Conversation` opened by `first`, the engine's system `now` is
      `EngineAt` the `j` steps and the replies taken in, and `files` holds
      the worker's writes for the answered messages. */
  ghost predicate Exchanging(msgs: seq<Message>, replies: seq<Reply>, first: Message, f0: Files,
                             scores: nat -> Score, now: Snapshot, files: Files, j: nat, inc: real)
  {
    && |msgs| == |replies| + 1 && msgs[0] == first && SameHome(msgs)
    && Conversation(msgs, replies, scores)
    && now == EngineAt(first.sys, replies, j, inc)
    && files == WorkerFiles(f0, msgs[..|replies|], scores)
  }

  /** The first message, sent before any step, opens the exchange. */
  lemma StartExchange(first: Message, f0: Files, scores: nat -> Score, inc: real)
    requires !first.append
    ensures Exchanging([first], [], first, f0, scores, first.sys, f0, 0, inc)
  {
    ConversationIntro([first], [], scores);
    assert [first][..0] == [];
  }

  /** `Conversation` from its parts. */
  lemma ConversationIntro(msgs: seq<Message>, replies: seq<Reply>, scores: nat -> Score)
    requires |replies| <= |msgs| <= |replies| + 1 && (|msgs| > 0 ==> !msgs[0].append)
    requires forall k {:trigger replies[k]} :: 0 <= k < |replies| ==> replies[k] == ReplyTo(msgs[k], scores(k))
    requires forall k {:trigger replies[k]} :: 0 <= k < |replies| && k + 1 < |msgs| ==>
      SentAfter(msgs[k + 1], replies[k], msgs[0].sys.hist.epochId)
    ensures Conversation(msgs, replies, scores)
  {
  }

  /** Every reply answers its message, also after the reply to the next
      message arrives. */
  lemma RepliesGrow(msgs: seq<Message>, replies: seq<Reply>, scores: nat -> Score, r: Reply, replies': seq<Reply>)
    requires |replies| < |msgs| && replies' == replies + [r]
    requires forall k {:trigger replies[k]} :: 0 <= k < |replies| ==> replies[k] == ReplyTo(msgs[k], scores(k))
    requires r == ReplyTo(msgs[|replies|], scores(|replies|))
    ensures forall k {:trigger replies'[k]} :: 0 <= k < |replies'| ==> replies'[k] == ReplyTo(msgs[k], scores(k))
  {
    forall k | 0 <= k < |replies'| ensures replies'[k] == ReplyTo(msgs[k], scores(k)) {
      if k < |replies| {
        assert replies'[k] == replies[k];
      }
    }
  }

  /** Every reply answers its message, also after a new message is sent. */
  lemma RepliesKept(msgs: seq<Message>, replies: seq<Reply>, scores: nat -> Score, m: Message, msgs': seq<Message>)
    requires |replies| <= |msgs| && msgs' == msgs + [m]
    requires forall k {:trigger replies[k]} :: 0 <= k < |replies| ==> replies[k] == ReplyTo(msgs[k], scores(k))
    ensures forall k {:trigger replies[k]} :: 0 <= k < |replies| ==> replies[k] == ReplyTo(msgs'[k], scores(k))
  {
    forall k | 0 <= k < |replies| ensures replies[k] == ReplyTo(msgs'[k], scores(k)) {
      assert msgs'[k] == msgs[k];
    }
  }

  /** A new message that follows the latest reply keeps every message
      after the first following the reply before it. */
  lemma FollowsGrow(msgs: seq<Message>, replies: seq<Reply>, m: Message, msgs': seq<Message>)
    requires 0 < |msgs| == |replies| && msgs' == msgs + [m]
    requires forall k {:trigger replies[k]} :: 0 <= k < |replies| && k + 1 < |msgs| ==>
      SentAfter(msgs[k + 1], replies[k], msgs[0].sys.hist.epochId)
    requires SentAfter(m, replies[|replies| - 1], msgs[0].sys.hist.epochId)
    ensures forall k {:trigger replies[k]} :: 0 <= k < |replies| && k + 1 < |msgs'| ==>
      SentAfter(msgs'[k + 1], replies[k], msgs'[0].sys.hist.epochId)
  {
    forall k {:trigger replies[k]} | 0 <= k < |replies| && k + 1 < |msgs'|
      ensures SentAfter(msgs'[k + 1], replies[k], msgs'[0].sys.hist.epochId)
    {
      assert msgs'[0] == msgs[0] && replies[k] == replies[k];
      if k + 1 < |msgs| {
        assert msgs'[k + 1] == msgs[k + 1];
      } else {
        assert msgs'[k + 1] == m && k == |replies| - 1;
      }
    }
  }

  /** The reply to the outstanding message continues a conversation. */
  lemma ConversationAnswered(msgs: seq<Message>, replies: seq<Reply>, scores: nat -> Score, r: Reply)
    requires Conversation(msgs, replies, scores) && |msgs| == |replies| + 1
    requires r == ReplyTo(msgs[|replies|], scores(|replies|))
    ensures Conversation(msgs, replies + [r], scores)
  {
    var replies' := replies + [r];
    RepliesGrow(msgs, replies, scores, r, replies');
    ConversationIntro(msgs, replies', scores);
  }

  /** The reply to the outstanding message, and a next message that
      follows it, continue a conversation. */
  lemma ConversationGrows(msgs: seq<Message>, replies: seq<Reply>, scores: nat -> Score, r: Reply, m: Message)
    requires Conversation(msgs, replies, scores) && |msgs| == |replies| + 1
    requires r == ReplyTo(msgs[|replies|], scores(|replies|))
    requires SentAfter(m, r, msgs[0].sys.hist.epochId)
    ensures Conversation(msgs + [m], replies + [r], scores)
  {
    var msgs', replies' := msgs + [m], replies + [r];
    ConversationAnswered(msgs, replies, scores, r);
    RepliesKept(msgs, replies', scores, m, msgs');
    FollowsGrow(msgs, replies', m, msgs');
    ConversationIntro(msgs', replies', scores);
  }

  lemma SameHomeGrows(msgs: seq<Message>, m: Message)
    requires SameHome(msgs) && |msgs| > 0
    requires m.sys.name == msgs[0].sys.name && m.sys.checkpointDir == msgs[0].sys.checkpointDir
    requires m.sys.norm == msgs[0].sys.norm && m.sys.fitted == msgs[0].sys.fitted
    ensures SameHome(msgs + [m])
  {
    var msgs' := msgs + [m];
    forall k | 0 <= k < |msgs'|
      ensures msgs'[k].sys.name == msgs'[0].sys.name && msgs'[k].sys.checkpointDir == msgs'[0].sys.checkpointDir
      ensures msgs'[k].sys.norm == msgs'[0].sys.norm && msgs'[k].sys.fitted == msgs'[0].sys.fitted
    {
      if k < |msgs| {
        assert msgs'[k] == msgs[k];
      }
    }
  }

  /** The worker's writes for one more answered message. */
  lemma WorkerFilesStep(f0: Files, msgs: seq<Message>, scores: nat -> Score, n: nat)
    requires n < |msgs|
    ensures WorkerFiles(f0, msgs[..n + 1], scores) == HandledFiles(msgs[n], scores(n), WorkerFiles(f0, msgs[..n], scores))
  {
    assert msgs[..n + 1][..n] == msgs[..n];
  }

  /** Taking in the reply to the outstanding message and sending the system
      that results keeps the exchange going. */
  lemma ExchangeStep(msgs: seq<Message>, replies: seq<Reply>, first: Message, f0: Files,
                     scores: nat -> Score, now: Snapshot, files: Files, j: nat, inc: real,
                     lossTrain: Score, timeNow: real)
    requires Exchanging(msgs, replies, first, f0, scores, now, files, j, inc)
    ensures var n := |replies|;
      var r := ReplyTo(msgs[n], scores(n));
      Exchanging(msgs + [Message(Absorbed(now, r), true, lossTrain, timeNow)], replies + [r], first, f0, scores,
                 Absorbed(now, r), HandledFiles(msgs[n], scores(n), files), j, inc)
  {
    var n := |replies|;
    var r := ReplyTo(msgs[n], scores(n));
    var m := Message(Absorbed(now, r), true, lossTrain, timeNow);
    EngineTakesReply(first.sys, replies, j, inc, r);
    ConversationGrows(msgs, replies, scores, r, m);
    SameHomeGrows(msgs, m);
    WorkerFilesStep(f0, msgs, scores, n);
    assert (msgs + [m])[..n + 1] == msgs[..n + 1];
  }

  /** A training step moves only the counters. */
  lemma StepOn(msgs: seq<Message>, replies: seq<Reply>, first: Message, f0: Files,
               scores: nat -> Score, now: Snapshot, files: Files, j: nat, inc: real)
    requires Exchanging(msgs, replies, first, f0, scores, now, files, j, inc)
    ensures Exchanging(msgs, replies, first, f0, scores,
                       now.(batchCounter := now.batchCounter + 1, epochCounter := now.epochCounter + inc),
                       files, j + 1, inc)
  {
    EngineSteps(first.sys, replies, j, inc);
  }

  /** The engine and the worker once every message has its reply: the
      engine holds the system the replies made and the store holds what the
      worker wrote for every message. */
  ghost predicate Finished(msgs: seq<Message>, replies: seq<Reply>, first: Message, f0: Files,
                           scores: nat -> Score, now: Snapshot, files: Files, j: nat, inc: real)
  {
    && |replies| == |msgs| >= 1 && msgs[0] == first && SameHome(msgs)
    && Conversation(msgs, replies, scores)
    && now == EngineAt(first.sys, replies, j, inc)
    && files == WorkerFiles(f0, msgs, scores)
  }

  /** Taking in the last reply answers every message. */
  lemma FinalRecv(msgs: seq<Message>, replies: seq<Reply>, first: Message, f0: Files,
                  scores: nat -> Score, now: Snapshot, files: Files, j: nat, inc: real)
    requires Exchanging(msgs, replies, first, f0, scores, now, files, j, inc)
    ensures var n := |replies|;
      var r := ReplyTo(msgs[n], scores(n));
      Finished(msgs, replies + [r], first, f0, scores, Absorbed(now, r), HandledFiles(msgs[n], scores(n), files), j, inc)
  {
    var n := |replies|;
    var r := ReplyTo(msgs[n], scores(n));
    EngineTakesReply(first.sys, replies, j, inc, r);
    ConversationAnswered(msgs, replies, scores, r);
    assert msgs[..n + 1] == msgs && msgs[..n] == msgs[..|msgs| - 1];
  }

  /** The pipe between the engine and a worker that answers messages in
      order. A reply becomes visible to `poll` once the worker is done,
      which `ready(j)` decides at the j-th check; the worker's validation of
      the k-th message gives `scores(k)`, and its checkpoint writes go to
      `store`. */
  class Channel {
    const store: CheckpointStore
    const scores: nat -> Score
    const ready: nat -> bool
    var inFlight: seq<Message>
    var answered: nat
    var closed: bool
    ghost var sent: seq<Message>
    ghost var replies: seq<Reply>
    ghost var peak: nat

    /** `inFlight` are the sent messages not yet answered, oldest first;
        `peak` is the most that were ever outstanding at once. */
    ghost predicate Valid()
      reads this
    {
      && |sent| == |replies| + |inFlight| && inFlight == sent[|replies|..]
      && answered == |replies|
      && (forall k {:trigger replies[k]} :: 0 <= k < |replies| ==> replies[k] == ReplyTo(sent[k], scores(k)))
      && |inFlight| <= peak
    }

    /** `Pipe()` and `Process(target=_worker, ...).start()`. */
    constructor(store: CheckpointStore, scores: nat -> Score, ready: nat -> bool)
      ensures Valid() && this.store == store && this.scores == scores && this.ready == ready
      ensures inFlight == [] && sent == [] && replies == [] && peak == 0 && !closed
    {
      this.store := store;
      this.scores := scores;
      this.ready := ready;
      inFlight := [];
      answered := 0;
      closed := false;
      sent := [];
      replies := [];
      peak := 0;
    }

    /** `remote.send(message)`. */
    method Send(m: Message)
      requires Valid() && !closed
      modifies this
      ensures Valid() && !closed && answered == old(answered)
      ensures inFlight == old(inFlight) + [m] && sent == old(sent) + [m] && replies == old(replies)
      ensures peak == if |inFlight| > old(peak) then |inFlight| else old(peak)
    {
      inFlight := inFlight + [m];
      sent := sent + [m];
      if |inFlight| > peak {
        peak := |inFlight|;
      }
    }

    /** `remote.poll()` at the j-th check: a reply is waiting only if a
        message is outstanding. */
    method Poll(j: nat) returns (b: bool)
      ensures b == (|inFlight| > 0 && ready(j))
    {
      b := |inFlight| > 0 && ready(j);
    }

    /** `remote.recv()`: the worker handles the oldest outstanding message
        (writing its checkpoint if the score is a new best) and its reply is
        returned. With nothing outstanding `recv` would block forever. */
    method Recv() returns (r: Reply)
      requires Valid() && |inFlight| > 0
      modifies this, store
      ensures Valid() && closed == old(closed) && peak == old(peak)
      ensures r == ReplyTo(old(inFlight[0]), scores(old(answered)))
      ensures store.files == HandledFiles(old(inFlight[0]), scores(old(answered)), old(store.files))
      ensures sent == old(sent) && replies == old(replies) + [r]
      ensures inFlight == old(inFlight[1..]) && answered == old(answered) + 1
    {
      var m := inFlight[0];
      var score := scores(answered);
      store.files := HandledFiles(m, score, store.files);
      r := ReplyTo(m, score);
      inFlight := inFlight[1..];
      answered := answered + 1;
      replies := replies + [r];
    }

    /** `remote.close()`. */
    method Close()
      requires Valid()
      modifies this
      ensures Valid() && closed
      ensures inFlight == old(inFlight) && sent == old(sent) && replies == old(replies) && peak == old(peak)
      ensures answered == old(answered)
    {
      closed := true;
    }
  }
}
