# deepSI fit engine: a Dafny model

This project models the training bookkeeping of deepSI's torch systems, found in
`deepSI/fit_systems/fit_system.py`. The numerics are abstract. Losses and
validation scores are values from an ordered set with `+inf`; the rest is
modelled:

- **Batch scheduling.** The batch size is clamped to the number of samples,
  every epoch takes `N // B` steps, and each step takes the window `ids[i-B:i]`
  for `i` in `range(B, N + 1, B)`.
- **Synchronous `fit`.** A first call initialises the system and a later call
  resumes from its histories. After every epoch, `Loss_train`, `time` and
  `batch_id` each get one entry, `validation()` appends to `Loss_val`, and the
  "_best" checkpoint is written on a strict improvement. At the end the
  "_last" checkpoint is saved and "_best" is loaded back.
- **`fit_val_multiprocess` and `_worker`.** The protocol runs as one sequential
  state machine over a `Channel`. The engine sends at start and right after each
  reply, and drains the pipe at the end. The worker validates the copy it is
  sent, appends to five lists, keeps the running minimum with `>=`, saves, and
  replies.
- **Checkpoints.** `checkpoint_save_system` / `checkpoint_load_system` write and
  read an in-memory store. It holds `.npz` metadata (eleven positional arrays,
  zero-dimensional ones unwrapped on load) and `.pth` dictionaries of component
  states keyed by attribute name.
- **Small helpers.** `init_optimizer`, `eval` / `train` / `to_device`, and
  `System_fittable.fit`.

The system is a class (`FitSystem.System`) whose methods update its attributes
in place. Each method is proved to leave exactly the state that a specification
function of the modules `Session`, `Async` and `Checkpoint` gives. The properties
the engine promises are proved about those functions as lemmas:

- lockstep histories;
- the running minimum;
- what the "_best" checkpoint holds;
- save/load round trips;
- the window cover.

The surroundings of a call are parameters:

- **`Hooks`:** `norm.fit`, `init_nets`.
- **`Oracles`:**
  - the number of training samples;
  - the shuffled index array of each epoch;
  - the loss of each optimisation step;
  - the k-th validation score;
  - the clock readings;
  - what `remote.poll()` sees.

Where the source and its description disagree, the model follows the source:

- **The reloaded `bestfit`.** The synchronous path saves "_best" before it
  assigns `bestfit`. Reloading it therefore gives the system the older, larger
  `bestfit` together with the history up to the best epoch, not "the best-known
  state" (`FitSystem.FitReloadsBest`).
- **Mismatched component states.** Only `ValueError` and `AttributeError` from
  `load_state_dict` are caught. A module's strict load of a mismatching
  dictionary raises `RuntimeError`, and that ends the load. A stored key with no
  attribute of that name fails in `__getattribute__`, outside the `try`.
- **Modes after validation.** Validation does not restore the previous
  modes. It leaves every module in training mode, on the CPU or on cuda as
  asked.
- **The worker's comparison.** The worker's test is `bestfit >= score`, so an
  equal score also saves.
- **Where replies go.** The engine unpacks the reply's fifth list into
  `self.epoch`, so its own `epoch_id` never grows.
- **A zero batch size.** A batch size of zero, also after clamping to zero
  samples, raises `ZeroDivisionError` at `N // batch_size`. The model returns it
  as an outcome.

## Model

| member | source | states |
|---|---|---|
| Scores.Min | deepSI/fit_systems/fit_system.py:166-169 | the result is one of the two scores and at most both |
| Scores.RunningMin | deepSI/fit_systems/fit_system.py:166-169 | a running minimum started at `start` is `start` or one of the offered scores, and at most each of them |
| Scores.RunningMinFirst | deepSI/fit_systems/fit_system.py:166-169 | a running minimum over a first score and then others is the running minimum, started at `Min(start, first)`, over the others |
| Scores.RunningMinSnoc | deepSI/fit_systems/fit_system.py:166-169 | offering one more score takes the `Min` of the running minimum and that score |
| Scores.StrictAndWeakUpdatesAgree | deepSI/fit_systems/fit_system.py:487-488 | the worker's `best >= x` update and the engine's `best > x` update (line 166) both leave `Min(best, x)` |
| Optimizers.InitOptimizer | deepSI/fit_systems/fit_system.py:113-120 | the factory is `kwargs['optimizer']` when present and not None, else Adam with the arguments unchanged; the key is dropped and every other argument is kept with its value |
| Components.RestoreState | deepSI/fit_systems/fit_system.py:436-439 | a stored state is loaded exactly when it matches the live one; a mismatch is a caught error exactly for an optimizer, otherwise an uncaught one |
| Components.WithTraining | deepSI/fit_systems/fit_system.py:451-460 | every module gets the mode, and nothing else about any component changes |
| Components.OnDevice | deepSI/fit_systems/fit_system.py:446-450 | every module moves to the device, and nothing else about any component changes |
| Batching.EffectiveBatchSize | deepSI/fit_systems/fit_system.py:217 | the clamped size is the requested size or the sample count, and at most both |
| Batching.StepsPerEpoch | deepSI/fit_systems/fit_system.py:218 | `k` steps of `b` fit in `n` samples and `k + 1` do not |
| Batching.WindowFits | deepSI/fit_systems/fit_system.py:227 | window `k` ends inside the samples if and only if `k < N // B` |
| Batching.WindowsCover | deepSI/fit_systems/fit_system.py:227-228 | the windows joined together are exactly `ids[:(N // B) * B]` |
| Batching.WindowsDisjoint | deepSI/fit_systems/fit_system.py:227-228 | over distinct indices, no sample is in two windows of an epoch |
| Batching.LeftoverUnused | deepSI/fit_systems/fit_system.py:227-228 | the trailing `N % B` shuffled indices are in no window |
| Batching.ClampedToOneStep | deepSI/fit_systems/fit_system.py:216-218 | a batch size at least `N >= 1` is clamped to `N`, and the epoch is one step over all samples |
| Checkpoint.AsArray | deepSI/fit_systems/fit_system.py:419 | unwrapping a saved value gives it back, and exactly scalars are stored zero-dimensional |
| Checkpoint.EncodeListAt | deepSI/fit_systems/fit_system.py:414 | element `i` of a saved list's array is element `i` of the list, encoded |
| Checkpoint.DecodeListAt | deepSI/fit_systems/fit_system.py:419 | a loaded array reads back as a list if and only if every element does, element by element |
| Checkpoint.ListRoundTrip | deepSI/fit_systems/fit_system.py:414-419 | a history list written as an array reads back unchanged |
| Checkpoint.EncodeMeta | deepSI/fit_systems/fit_system.py:413-414 | eleven arrays, `fitted` and `bestfit` zero-dimensional at positions 4 and 5, the five histories one-dimensional |
| Checkpoint.DecodeMeta | deepSI/fit_systems/fit_system.py:418-420 | any count other than eleven fails to unpack, and whatever decodes re-encodes to the same arrays |
| Checkpoint.EncodeBack | deepSI/fit_systems/fit_system.py:418-420 | eleven arrays whose unwrapped values read as the fields of `m` are the arrays `m` saves as |
| Checkpoint.MetaRoundTrip | deepSI/fit_systems/fit_system.py:413-420 | loading saved metadata gives back all eleven values, in order |
| Checkpoint.UnpackEncoded | deepSI/fit_systems/fit_system.py:419-420 | the unwrapped values of saved metadata unpack to that metadata |
| Checkpoint.PathsDistinct | deepSI/fit_systems/fit_system.py:412-414 | files of different tags never share a path, and a `.pth` path is never an `.npz` path |
| Checkpoint.SavedStates | deepSI/fit_systems/fit_system.py:423-431 | the saved dictionary has every component but `random`, each with its state |
| Checkpoint.SaveCheckpoint | deepSI/fit_systems/fit_system.py:410-414 | the tag's `.pth` holds the saved states and its `.npz` decodes to the system's metadata; every other file is unchanged |
| Checkpoint.Restored | deepSI/fit_systems/fit_system.py:432-439 | a component without a stored entry, or whose restore is a caught error, is unchanged; a matching one gets the stored state |
| Checkpoint.SaveLoadRoundTrip | deepSI/fit_systems/fit_system.py:410-439 | loading a tag just saved, into a system with the same name, directory and matching components, succeeds and gives back the saved metadata and the saved state of every component but `random`; everything else stays the loader's |
| Checkpoint.LoadBestAfterLast | deepSI/fit_systems/fit_system.py:259-260 | loading "_best" right after saving "_last" reads the "_best" metadata that was there before, and changes only components, norm, `fitted`, `bestfit` and histories |
| Session.FirstCall | deepSI/fit_systems/fit_system.py:175-187 | first call: norm fitted only when used, dimensions from the data, the `init_nets` modules and the `init_optimizer` optimizer added, every other component kept as it was, `bestfit` +inf, empty histories, `fitted` true; nothing else changes |
| Session.Begun | deepSI/fit_systems/fit_system.py:175-190 | after initialisation `fitted` holds; a later call changes only `batch_counter` (last `batch_id` or 0) and gets the time offset from the last `time` or 0 |
| Session.Cycled | deepSI/fit_systems/fit_system.py:155-172 | after `validation()` every module is in training mode, on cuda exactly when asked; kinds and states are unchanged, and an optimizer is untouched |
| Session.CycledTwice | deepSI/fit_systems/fit_system.py:155-172 | a second validation leaves the modes and devices as the first left them |
| Session.SaveIgnoresModes | deepSI/fit_systems/fit_system.py:423-431 | a checkpoint depends on the component states only, not on modes or devices |
| Session.ValidatedProgress | deepSI/fit_systems/fit_system.py:165-169 | `bestfit` becomes `Min(bestfit, score)`; the score is appended to `Loss_val` exactly when `append`; the step count is unchanged |
| Session.Validated | deepSI/fit_systems/fit_system.py:154-173 | the validated system differs only in `bestfit` (the minimum), `Loss_val` and the cycled components |
| Session.ValidatedFiles | deepSI/fit_systems/fit_system.py:166-169 | only a strict improvement writes "_best", and what it stores is the previous `bestfit` with the new `Loss_val` |
| Session.StepLosses | deepSI/fit_systems/fit_system.py:227-244 | an epoch has one step loss per window |
| Session.TrainedProgress | deepSI/fit_systems/fit_system.py:245-249 | one epoch adds its steps to the count and appends the mean loss, the time and the new count, leaving `bestfit` |
| Session.SyncAdvance | deepSI/fit_systems/fit_system.py:223-250 | one epoch from the state after `e` epochs gives the state and directory after `e + 1` |
| Session.EpochOnSystem | deepSI/fit_systems/fit_system.py:245-250 | training bookkeeping then `validation()` is the epoch's progress plus cycled modes |
| Session.EpochSettles | deepSI/fit_systems/fit_system.py:245-250 | once the modes are as `validation()` leaves them, an epoch changes only the progress |
| Session.Ended | deepSI/fit_systems/fit_system.py:257 | every module in training mode on the CPU, optimizers untouched, nothing else changed |
| Session.CountsAt | deepSI/fit_systems/fit_system.py:245-249 | the e-th recorded `batch_id` is the start plus the steps of epochs `0..e` |
| Session.LossTrainGrows | deepSI/fit_systems/fit_system.py:246-247 | `k` epochs append exactly their `k` mean losses to `Loss_train`, in order |
| Session.TimeGrows | deepSI/fit_systems/fit_system.py:248 | `k` epochs append exactly their `k` clock readings to `time` |
| Session.LossValGrows | deepSI/fit_systems/fit_system.py:250 | `k` epochs append exactly their `k` validation scores to `Loss_val` |
| Session.EpochIdKept | deepSI/fit_systems/fit_system.py:245-250 | the synchronous loop never changes `epoch_id` |
| Session.StepCountGrows | deepSI/fit_systems/fit_system.py:245 | the step count grows by the steps of every epoch |
| Session.BatchIdGrows | deepSI/fit_systems/fit_system.py:249 | `batch_id` gains the step count after each epoch |
| Session.BestIsRunningMin | deepSI/fit_systems/fit_system.py:166-169 | after `k` epochs `bestfit` is the running minimum of the start and the `k` scores |
| Session.SyncStepsConstant | deepSI/fit_systems/fit_system.py:218 | every synchronous epoch takes `N // B` steps |
| Session.SyncHistoryEffect | deepSI/fit_systems/fit_system.py:245-250 | `k` epochs append to `Loss_train` the mean step loss of each epoch, to `time` the offset plus each reading, to `Loss_val` each score; `epoch_id` kept; `bestfit` the running minimum |
| Session.SyncStepsEffect | deepSI/fit_systems/fit_system.py:245-249 | the count grows by `k * (N // B)` and the e-th new `batch_id` is start plus `(e + 1) * (N // B)` |
| Session.SyncLockstep | deepSI/fit_systems/fit_system.py:245-250 | four equally long lists stay equally long, each `k` longer, and `epoch_id` is unchanged |
| Session.NoSaveWithoutImprovement | deepSI/fit_systems/fit_system.py:166-168 | a validation whose score does not lower `bestfit` writes nothing |
| Session.SyncFilesUntouched | deepSI/fit_systems/fit_system.py:166-168 | epochs that never lowered `bestfit` write no checkpoint |
| Session.BestHoldsAfterImprovement | deepSI/fit_systems/fit_system.py:166-169 | an improving validation leaves "_best" holding the new history, ending in the new best score, with the older, larger `bestfit` |
| Session.BestHoldsAfterAppend | deepSI/fit_systems/fit_system.py:245-250 | later epochs that do not improve keep the "_best" checkpoint a prefix of the histories |
| Session.SyncBestCheckpoint | deepSI/fit_systems/fit_system.py:166-169 | after epochs that lowered `bestfit`, "_best" holds a prefix of every history, whose `Loss_val` ends in the current `bestfit`, saved with a strictly larger `bestfit` |
| Async.Handled | deepSI/fit_systems/fit_system.py:469-490 | with `append`, each of the five lists grows by exactly the score, the sent loss, `batch_counter`, `time_now` and `epoch_counter`; without, none changes; `bestfit` the minimum; modes cycled |
| Async.HandledFiles | deepSI/fit_systems/fit_system.py:487-489 | `bestfit >= score` saves "_best" holding the new score as `bestfit`; otherwise nothing is written |
| Async.Absorbed | deepSI/fit_systems/fit_system.py:379 | four lists and `bestfit` come from the reply, its fifth list goes to `epoch`, and `epoch_id` is kept |
| Async.RepliedLossVal | deepSI/fit_systems/fit_system.py:479-480 | the k-th reply's `Loss_val` is the first message's plus scores `1..k`; the first score is never appended |
| Async.RepliedLossTrain | deepSI/fit_systems/fit_system.py:481 | the k-th reply's `Loss_train` gained the loss sent with each later message |
| Async.RepliedBatchId | deepSI/fit_systems/fit_system.py:482 | the k-th reply's `batch_id` gained the `batch_counter` of each later message |
| Async.RepliedTime | deepSI/fit_systems/fit_system.py:483 | the k-th reply's `time` gained the time sent with each later message |
| Async.ReplyBestStep | deepSI/fit_systems/fit_system.py:487-488 | each reply's `bestfit` is the minimum of the previous one (or the first message's) and the new score |
| Async.BestChain | deepSI/fit_systems/fit_system.py:487-488 | a chain of such minima is the running minimum of the scores |
| Async.RepliedBest | deepSI/fit_systems/fit_system.py:487-490 | the k-th reply's `bestfit` is the running minimum of the starting `bestfit` and scores `0..k`, the first included |
| Async.RepliedEpochId | deepSI/fit_systems/fit_system.py:379 | because replies go to `epoch`, a later reply's `epoch_id` is the start plus only the latest message's counter |
| Async.RepliesLockstep | deepSI/fit_systems/fit_system.py:479-484 | engine-side `Loss_val`, `Loss_train`, `batch_id`, `time` stay equally long, `k` longer after reply `k`; `epoch_id` at most one longer |
| Async.BegunAsync | deepSI/fit_systems/fit_system.py:298-312 | a first call initialises and counts from zero; a later call changes only the two counters, from the last `epoch_id` / `batch_id` or 0; the time offset is the last `time` or 0 |
| Async.BeginningsAgree | deepSI/fit_systems/fit_system.py:298-312 | both engines start from the same system and offset, except that the multiprocess one also resumes `epoch_counter` |
| Async.CounterAfterIsProduct | deepSI/fit_systems/fit_system.py:385 | `j` steps of `epoch_counter += inc` add `j * inc` to the starting counter |
| Async.EngineAt | deepSI/fit_systems/fit_system.py:378-385 | after `j` steps `batch_counter` advanced by `j` and `epoch_counter` by `j` increments, `epoch_id`, norm, `fitted` and components are unchanged, and the lists and `bestfit` are the last reply's |
| Async.EngineTakesReply | deepSI/fit_systems/fit_system.py:379 | taking in one more reply replaces what the previous one brought |
| Async.EngineSteps | deepSI/fit_systems/fit_system.py:384-385 | a step moves only `batch_counter` by one and `epoch_counter` by the increment |
| Async.ConversationChains | deepSI/fit_systems/fit_system.py:379-380 | each message after the first carries the previous reply's `bestfit` |
| Async.WorkerBest | deepSI/fit_systems/fit_system.py:487-489 | once the first message saved, "_best" always holds the latest reply's `bestfit` |
| Async.BestAfterSave | deepSI/fit_systems/fit_system.py:487-489 | a score not above `bestfit` is stored as the new best |
| Async.BestAfterSkip | deepSI/fit_systems/fit_system.py:487-489 | a larger score keeps the stored best, which is still the minimum |
| Async.WorkerBestLast | deepSI/fit_systems/fit_system.py:487-489 | when every message is answered, "_best" holds the last reply's `bestfit` |
| Async.StartExchange | deepSI/fit_systems/fit_system.py:339 | the first, non-appending message opens the exchange |
| Async.ConversationAnswered | deepSI/fit_systems/fit_system.py:398 | the reply to the outstanding message continues the conversation |
| Async.ConversationGrows | deepSI/fit_systems/fit_system.py:379-380 | a reply and the message sent right after it continue the conversation |
| Async.ExchangeStep | deepSI/fit_systems/fit_system.py:378-381 | taking in the reply and sending the resulting system keeps one message outstanding, the engine at the new reply, the directory with the worker's write |
| Async.StepOn | deepSI/fit_systems/fit_system.py:384-385 | a training step keeps the exchange, one step further |
| Async.FinalRecv | deepSI/fit_systems/fit_system.py:398-402 | the last `recv` answers every message sent |
| Async.Channel.constructor | deepSI/fit_systems/fit_system.py:328-333 | a new pipe has nothing sent, outstanding or answered |
| Async.Channel.Send | deepSI/fit_systems/fit_system.py:339 | the message is appended to what is sent and outstanding, and `peak` tracks the most outstanding |
| Async.Channel.Poll | deepSI/fit_systems/fit_system.py:378 | a reply is seen only when a message is outstanding |
| Async.Channel.Recv | deepSI/fit_systems/fit_system.py:469-490 | the oldest outstanding message is answered as the worker answers it, with its checkpoint write, and leaves the queue |
| Async.Channel.Close | deepSI/fit_systems/fit_system.py:402 | the pipe is closed and nothing else changes |
| FitSystem.SetModes | deepSI/fit_systems/fit_system.py:451-460 | the attribute loop, in any order, gives `WithTraining` |
| FitSystem.MoveTo | deepSI/fit_systems/fit_system.py:446-450 | the attribute loop, in any order, gives `OnDevice` |
| FitSystem.RestoreAll | deepSI/fit_systems/fit_system.py:434-439 | the key loop, in any order, succeeds if and only if every key has a component whose restore is not an uncaught error, and then gives `Restored`; the component names stay the same |
| FitSystem.EpochLossSum | deepSI/fit_systems/fit_system.py:226-244 | `Loss_acc` is the sum of the loss of every window of the epoch |
| FitSystem.FitBestIsRunningMin | deepSI/fit_systems/fit_system.py:214-250 | over a whole synchronous call, the first `validation(append=False)` included, `bestfit` ends as the running minimum of the starting one and scores `0..epochs` |
| FitSystem.FitReloadsBest | deepSI/fit_systems/fit_system.py:259-260 | after an improving fit and a successful reload, the histories are a prefix ending at the best score, `bestfit` is the older strictly larger value, and the norm is the call's |
| FitSystem.AccountedStep | deepSI/fit_systems/fit_system.py:375-376 | a step adds its loss to `Loss_acc`, which stays the sum of the losses since the last message, and one step to `N_batch_acc` |
| FitSystem.AccountedSend | deepSI/fit_systems/fit_system.py:380-381 | a message sent with `N_batch_acc >= 1` carries `Loss_acc / N_batch_acc`, the mean loss of the steps since the last message; both accumulators restart at 0 |
| FitSystem.ReportsLonger | deepSI/fit_systems/fit_system.py:375 | what earlier messages reported stays true as more steps are taken |
| FitSystem.ReportsSend | deepSI/fit_systems/fit_system.py:378-400 | a message carrying the mean loss since the last mark, its time and the counters at its send extends the reports by one |
| FitSystem.LossesSnoc | deepSI/fit_systems/fit_system.py:359-360 | the loss of the k-th window, taken as the next step, extends the epoch's losses so far by one |
| FitSystem.LossesBeforePrefix | deepSI/fit_systems/fit_system.py:359-375 | the losses of the first `k` windows are the first `k` step losses of the epoch |
| FitSystem.LossesOfEpoch | deepSI/fit_systems/fit_system.py:359-375 | the losses of all `N // B` windows are the epoch's step losses, as the synchronous engine takes them |
| FitSystem.StepTraceSnoc | deepSI/fit_systems/fit_system.py:356-385 | one more epoch extends the trace of all step losses by that epoch's, after `(e + 1) * (N // B)` steps |
| FitSystem.SentReportAt | deepSI/fit_systems/fit_system.py:378-400 | message `i + 1` carries the mean loss of the steps since message `i`, `time_now` = offset + clock reading, and `batch_counter` / `epoch_counter` after the steps before it (one fewer inside the loop, where the counters advance after the poll) |
| FitSystem.AsyncHistoryEffect | deepSI/fit_systems/fit_system.py:469-490 | the last reply, which the engine takes in, extends `Loss_train`, `time` and `batch_id` by what each later message sent, `Loss_val` by every score but the first, `epoch_id` by the last message's `epoch_counter`; `bestfit` is the running minimum of all scores |
| FitSystem.AsyncFitReloadsBest | deepSI/fit_systems/fit_system.py:405-406 | after a multiprocess fit whose first validation saved and a successful reload, `bestfit` is the running minimum of the start and every score |
| FitSystem.System.SetTraining | deepSI/fit_systems/fit_system.py:451-460 | only the modules' modes change |
| FitSystem.System.Eval | deepSI/fit_systems/fit_system.py:451-455 | every module in evaluation mode, nothing else changed |
| FitSystem.System.Train | deepSI/fit_systems/fit_system.py:456-460 | every module in training mode, nothing else changed |
| FitSystem.System.ToDevice | deepSI/fit_systems/fit_system.py:446-450 | every module on the device, nothing else changed |
| FitSystem.System.ToCuda | deepSI/fit_systems/fit_system.py:442-443 | every module on cuda |
| FitSystem.System.ToCpu | deepSI/fit_systems/fit_system.py:444-445 | every module on the CPU |
| FitSystem.System.SaveSystemTorch | deepSI/fit_systems/fit_system.py:423-431 | the file holds `SavedStates`, and no other file changes |
| FitSystem.System.CheckpointSaveSystem | deepSI/fit_systems/fit_system.py:410-414 | the store becomes `SaveCheckpoint` of the system and tag |
| FitSystem.System.LoadSystemTorch | deepSI/fit_systems/fit_system.py:432-439 | it succeeds if and only if the file exists and every key loads or is caught, and then gives `Restored`; only components change |
| FitSystem.System.SetMeta | deepSI/fit_systems/fit_system.py:420 | the eleven loaded values go to norm, `fitted`, `bestfit` and the histories |
| FitSystem.System.CheckpointLoadSystem | deepSI/fit_systems/fit_system.py:415-420 | it succeeds if and only if `LoadCheckpoint` gives a system, and then the system is that; on failure only components changed |
| FitSystem.System.AppendValLoss | deepSI/fit_systems/fit_system.py:165 | `Loss_val` gains the score |
| FitSystem.System.Validation | deepSI/fit_systems/fit_system.py:154-173 | the system becomes `Validated` and the store `ValidatedFiles` |
| FitSystem.System.ValidateScore | deepSI/fit_systems/fit_system.py:155-169 | evaluation mode on the CPU, then the score's progress, with "_best" saved before `bestfit` is assigned |
| FitSystem.System.InitSession | deepSI/fit_systems/fit_system.py:175-190 | the system and time offset are `Begun` |
| FitSystem.System.FirstInit | deepSI/fit_systems/fit_system.py:175-187 | the first-call initialisation, `FirstCall` with the count at 0 |
| FitSystem.System.FitShape | deepSI/fit_systems/fit_system.py:176-180 | the norm is fitted only when used, and the dimensions come from the data |
| FitSystem.System.InstallComponents | deepSI/fit_systems/fit_system.py:181-182 | the networks become training modules on the CPU and the optimizer of `InitOptimizer` is added |
| FitSystem.System.ResetProgress | deepSI/fit_systems/fit_system.py:183-187 | `bestfit` +inf, empty histories, count 0, `fitted` true |
| FitSystem.System.RecordEpoch | deepSI/fit_systems/fit_system.py:245-249 | the progress becomes `TrainedProgress` |
| FitSystem.System.TrainEpochs | deepSI/fit_systems/fit_system.py:223-250 | the epoch loop leaves the system at `SyncProgress` and the directory at `SyncFiles` of the observed epochs |
| FitSystem.System.Epoch | deepSI/fit_systems/fit_system.py:224-250 | one epoch moves the progress by `EpochProgress` and writes "_best" as `ValidatedFiles` says; components unchanged |
| FitSystem.System.EndSession | deepSI/fit_systems/fit_system.py:257-260 | "_last" of the ended system is saved, and "_best" is loaded back or the load fails |
| FitSystem.System.Fit | deepSI/fit_systems/fit_system.py:122-260 | `ZeroDivision` if and only if the clamped batch size is 0, leaving the initialised and validated system; otherwise the call ends as `SyncConcluded` |
| FitSystem.System.InitSessionAsync | deepSI/fit_systems/fit_system.py:298-312 | the system and time offset are `BegunAsync` |
| FitSystem.System.ResumeCounters | deepSI/fit_systems/fit_system.py:310-311 | the counters come from the last `epoch_id` and `batch_id`, or 0 |
| FitSystem.System.AbsorbReply | deepSI/fit_systems/fit_system.py:379 | the system becomes `Absorbed` by the reply |
| FitSystem.System.AdvanceCounters | deepSI/fit_systems/fit_system.py:384-385 | `batch_counter` +1 and `epoch_counter` + the increment |
| FitSystem.System.Exchange | deepSI/fit_systems/fit_system.py:378-381 | the reply is taken in and exactly one appending message is sent, so one message stays outstanding |
| FitSystem.System.AsyncEpoch | deepSI/fit_systems/fit_system.py:356-385 | an epoch takes `N // B` steps whose losses, those of its windows, extend the trace; `Loss_acc` stays the sum since the last message, and every message sent reports as `ReportsAll` says |
| FitSystem.System.NextWindow | deepSI/fit_systems/fit_system.py:359-360 | `ids[i-B:i]` has `B` indices and its loss is the next of the epoch's window losses |
| FitSystem.System.AsyncStep | deepSI/fit_systems/fit_system.py:359-385 | a step appends the batch's loss to the trace, keeps `Loss_acc` the sum of losses since the last message and the reports of every message, and the exchange one step further |
| FitSystem.System.PollExchange | deepSI/fit_systems/fit_system.py:378-381 | a seen reply is exchanged for a message with the mean of the `N_batch_acc >= 1` losses since the last one, its time and the counters, then the accumulators restart |
| FitSystem.System.SendReport | deepSI/fit_systems/fit_system.py:379-400 | the reply is taken in and one message with the mean loss since the last mark is sent, extending the reports |
| FitSystem.System.Advance | deepSI/fit_systems/fit_system.py:384-385 | a step keeps the exchange one step further |
| FitSystem.System.Hangup | deepSI/fit_systems/fit_system.py:398-402 | the last reply is taken in and the pipe is closed, with every message answered |
| FitSystem.System.Drain | deepSI/fit_systems/fit_system.py:398-402 | a final message is sent exactly when steps are unreported (`flushed`), with their mean loss and the counters after the last step; afterwards every message is answered, the pipe is closed, and nothing is unreported |
| FitSystem.System.FitValMultiprocess | deepSI/fit_systems/fit_system.py:262-406 | the first message opens a conversation in which every later message follows a reply; `ZeroDivision` if and only if the clamped batch size is 0, with only the first message sent; otherwise at most one message was ever outstanding, every message is answered, the pipe closed, all steps reported, every later message carries the mean loss of the steps since the previous one, its time and counters (`ReportsAll` over the trace of all step losses), and the call ends as `AsyncConcluded` |
| FitSystem.System.RunAsync | deepSI/fit_systems/fit_system.py:341-406 | training with the worker: the trace holds every step loss, every message reports as `ReportsAll` says, all steps are reported, and the session ends as `AsyncConcluded` |
| FitSystem.System.Open | deepSI/fit_systems/fit_system.py:298-339 | initialisation, then the first message, non-appending with an infinite loss, is the only one sent |
| FitSystem.System.TrainAsync | deepSI/fit_systems/fit_system.py:341-402 | `epochs * (N // B)` steps whose losses form the trace, every message reporting as `ReportsAll` says, then every message answered, the pipe closed and nothing unreported |
| FitSystem.System.AsyncEpochs | deepSI/fit_systems/fit_system.py:356-385 | the epoch loop takes `epochs * (N // B)` steps whose losses form the trace, keeps `Loss_acc` the sum since the last message and the reports of every message |
| Fittable.FitOnce | deepSI/fit_systems/fit_system.py:21-29 | only an unfitted system fits the norm (when used) and takes the dimensions; the system is fitted afterwards if and only if it was before or `_fit` returned |
| Fittable.FrozenAfterFit | deepSI/fit_systems/fit_system.py:21-29 | after a call that returned, no later call changes the norm or the dimensions |
| Fittable.RefitAfterRaise | deepSI/fit_systems/fit_system.py:21-29 | a first call whose `_fit` raised leaves the system unfitted, so the next call fits the norm again on its own data |
| Fittable.FitSettles | deepSI/fit_systems/fit_system.py:21-29 | repeating a call that returned, on the same data, changes nothing |
| Fittable.FittableSystem.Fit | deepSI/fit_systems/fit_system.py:21-29 | the attributes and whether `_fit` raised are `FitOnce` of the old state |

## Left out

- Numerics: tensors, autograd, `optimizer.step`, `loss.backward`, `.item()` and the NRMS metric are abstract. A step's loss and a validation's score come from oracles, and a score is a real or `+inf`.
- Floating point: the mean `Loss_acc / N_batch_updates_per_epoch`, `Loss_acc / N_batch_acc` and the increment `1 / N_batch_updates_per_epoch` are exact real divisions; `epoch_counter` is repeated exact addition of the increment (`CounterAfter`), equal to the product over the reals. NaN scores, which `>` and `>=` treat specially, are not modelled.
- Timing: `time.time()`, `start_t` and the global `time_val` / `time_loss` / `time_back` are out. The recorded time is the offset plus an oracle reading.
- Concurrency: `Pipe`, `Process`, `daemon` and `join` are out. The worker runs inside `Channel.Recv`, in order, and a reply becomes visible to `poll` when an oracle says so.
- Async.Channel.Recv: the worker's "_best" write is placed at the engine's `recv`. The engine reads no checkpoint during training, so the final directory is the same.
- FitSystem.System.FitValMultiprocess: on `ZeroDivisionError` the first message is still outstanding, and the worker's write for it is not modelled.
- The worker's `test.txt` write and `parent_remote.close()` are out, as I/O without effect on the engine.
- `np.random.shuffle` and `train_test_split`: the epoch's index array and the training set size are oracles. The arrays are assumed to have `N` entries, and `Distinct` is assumed where disjointness is stated.
- `norm.transform`, `make_training_data`, `apply_experiment` and the validation data are out. Only their effect on the score and the sample count is kept.
- File I/O: `torch.save`, `np.savez` and `np.load` become an in-memory store. The directory is a fixed string per system, because `get_work_dirs()` and the `directory` argument are not part of this model.
- `dir()` reflection becomes the map `components` of named modules and optimizers. An attribute that is neither is not a component. A stored key naming such an attribute raises `AttributeError` at `load_state_dict` inside the `try` (lines 437-439), which is caught; the model fails the load instead.
- Interrupts: a `KeyboardInterrupt` is modelled only at an epoch boundary, as fewer epochs. An interrupt in the middle of an epoch is out.
- Printing, `tqdm`, `verbose` and `sqrt_train` are out; they only format output.
- The optimizer's own state updates are out. Training changes no component state in the model.
- Async cuda: `cuda` in `fit_val_multiprocess` only moves batches, and that is out.
- FitSystem.System.LoadSystemTorch: after an uncaught error, which components were already restored depends on the key order. The model does not state it.
- Fittable.FitOnce: what `_fit` does besides raising or returning is left to subclasses and is out.
- Checkpoint.DecodeMeta: only the eleven-array layout written by `checkpoint_save_system` is modelled. A foreign `.npz` decodes to failure, not to whatever numpy would unpack.
