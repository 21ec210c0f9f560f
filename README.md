# Epoch controller of the VGGFace2 ConViT training script

This project models the control flow of `main` in `train_vggface2.py` after the
model, optimizer and scheduler exist:

- **Resume decision.** Load a checkpoint when `--resume` is given. Restore the
  weights always. Restore optimizer, scheduler, start epoch and EMA shadow only
  on a full resume.
- **Eval-only exit.**
- **Epoch loop.** For each epoch in `range(start_epoch, epochs)`: reseed the
  sampler, train one epoch, step the scheduler, write the rolling checkpoint and
  any named snapshot, validate on the cadence or at the final epoch (updating
  `max_accuracy`), compute diagnostics, and append to the log on the main
  process.

Calls into code outside the script (training, the scheduler step, evaluation)
are the total functions of an `Engine` value. The scheduler step acts on the
whole live state, because it writes the epoch's learning rate into the
optimizer it was built on. Every other observable call of `main` from line 398
on is recorded as an `Event` in a trace.

Modules:

- `Wrappers`: `Option`.
- `Checkpoint`: the arguments, the live state, the checkpoint record, the file
  names, and the resume decision as a function.
- `Schedule`: the per-epoch and whole-run traces as specification functions. It
  also holds the reference schedules of every kind of call, the order of calls,
  the running maximum, and `main` from line 398 on (`MainResult`).
- `Trainer`: the class `TrainingRun`. Its fields (arguments, state,
  `maxAccuracy`, trace) are updated by methods that mirror the script
  statement by statement; evaluation inside the loop happens only on the
  epochs that validate. The epoch loop is a `while` loop proved against
  `RunTrace`, `StateAfter` and `BestAfter`.

Epochs are unbounded integers, as in Python. `save_every` and the validation
cadence have the type `Modulus` (any non-zero integer). For every non-zero `k`,
the test `epoch % k == 0` gives the same answer under Python's floor modulo and
Dafny's Euclidean modulo.

## Model

| member | source | states |
|---|---|---|
| Checkpoint.NatToString | train_vggface2.py:454 | the decimal rendering of an epoch is non-empty and all digits, with at least two digits from 10 on |
| Checkpoint.NatToStringValue | train_vggface2.py:454 | the rendering is `str(n)`: its digits denote n in decimal, most significant first, with no leading zero |
| Checkpoint.NatToStringInjective | train_vggface2.py:454 | distinct natural numbers render to distinct decimal strings |
| Checkpoint.IntToStringSign | train_vggface2.py:454 | `str(epoch)` starts with '-' exactly for negative epochs |
| Checkpoint.IntToStringInjective | train_vggface2.py:454 | distinct epochs give distinct `str(epoch)` |
| Checkpoint.FileNameInjective | train_vggface2.py:450-454 | two checkpoint paths name the same file iff they are the same path, so a snapshot never overwrites checkpoint.pth or another epoch's snapshot |
| Checkpoint.CheckpointPathsSpec | train_vggface2.py:449-454 | no path iff output_dir is empty; otherwise checkpoint.pth comes first; the epoch's snapshot is written iff save_every is set and divides the epoch; nothing else is written and no path repeats |
| Checkpoint.ResumeStateSpec | train_vggface2.py:405-411 | a missing 'model' changes nothing (KeyError). Only start_epoch can change in the arguments, to saved epoch + 1 on a full resume (not eval, with optimizer, lr_scheduler and epoch present), which also restores optimizer and scheduler. Otherwise only the weights change. KeyError('model_ema') happens exactly on a full resume with EMA and the key absent. The EMA shadow changes only on such a resume, and then to the stored shadow; on such a resume with a stored shadow it always becomes that shadow |
| Checkpoint.ResumeAfterSave | train_vggface2.py:457-463 | resuming (not eval, same EMA setting) from the record saved at epoch e restores model, optimizer, scheduler and, with EMA, the shadow, and continues at e + 1 |
| Schedule.SaveCallsSpec | train_vggface2.py:456-464 | exactly one save per path, in path order, each of the same record |
| Schedule.SaveCallsShape | train_vggface2.py:449-464 | the saves of one epoch are none, the rolling one, or the rolling one then the snapshot, as output_dir and save_every decide |
| Schedule.Epochs | train_vggface2.py:430 | `range(start, stop)`: stop - start epochs (none if stop <= start), the i-th being start + i |
| Schedule.Selected | train_vggface2.py:452-453 | the epochs of a range that are multiples of k (plus the last one when asked), strictly increasing |
| Schedule.SelectedEveryFifth | train_vggface2.py:452-454 | with save_every = 5, the multiples among 0..10 are exactly 0, 5, 10 |
| Schedule.OccurrencesAtEpoch | train_vggface2.py:435-505 | one loop iteration makes each kind of call (training, scheduler step, rolling save, snapshot save, validation, log append) at most once, exactly when its condition holds |
| Schedule.RunOccurrences | train_vggface2.py:430-505 | over the loop from the start epoch, training and scheduler steps happen at exactly range(start, epochs). Rolling saves happen at every such epoch iff output_dir is set, and snapshots at the multiples of save_every. Validation happens at the multiples of the cadence plus the final epoch, and log appends at every epoch iff output_dir is set on the main process |
| Schedule.FinalEpochValidated | train_vggface2.py:466 | a non-empty run always validates the final epoch epochs - 1 |
| Schedule.SnapshotScenario | train_vggface2.py:449-454 | with save_every = 5 over epochs 0..10, snapshots are written at exactly 0, 5, 10 and the rolling checkpoint at all 11 epochs |
| Schedule.SingleEpochScenario | train_vggface2.py:430-466 | one epoch, cadence 1, no save_every: one training pass, one validation, one rolling checkpoint, no snapshot |
| Schedule.EpochInOrder | train_vggface2.py:435-505 | within one epoch every call carries that epoch and the order is sampler reseed, training, scheduler step, rolling save, snapshot, validation, diagnostics, log append |
| Schedule.RunInOrder | train_vggface2.py:430-505 | the whole loop is ordered by (epoch, phase), and every call belongs to an epoch of range(start, epochs) |
| Schedule.BestAccuracyBounds | train_vggface2.py:476 | the running max is at least its start and every validated accuracy, and equals its start or one of them |
| Schedule.BestAccuracyMonotone | train_vggface2.py:476 | the running max never decreases as the trace grows |
| Schedule.BestAccuracyAtEpoch | train_vggface2.py:466-477 | one epoch moves max_accuracy to max(m, acc1) when it validates and leaves it unchanged otherwise |
| Schedule.BestAfterIsRunningMax | train_vggface2.py:427-477 | the loop's max_accuracy is the running maximum of the validated accuracies in its trace |
| Schedule.MainResultSpec | train_vggface2.py:398-505 | a KeyError happens only with --resume and ends `main` right after the load. Eval mode never trains, saves or logs, and leaves the arguments, the optimizer and the scheduler as they were. A completed training run trains at exactly range(start_epoch, epochs), with start_epoch as resumed, and ends with max_accuracy equal to the running maximum from 0.0 |
| Schedule.ResumeContinues | train_vggface2.py:405-430 | resuming from the checkpoint saved at epoch e completes and trains at exactly e + 1 .. epochs - 1 |
| Schedule.LoopAsWrittenStops | train_vggface2.py:466 | as written, a non-empty loop raises AttributeError in its first epoch, after training, stepping and saving once, and before any validation or log append |
| Schedule.LoopAsWrittenDiffers | train_vggface2.py:466 | with two epochs, the intended loop trains and validates at 0 and 1; the loop as written trains only at 0 and never validates |
| Trainer.TrainingRun.Resume | train_vggface2.py:398-411 | the load is recorded (URL or file); arguments, state and outcome are those of the resume decision on the loaded record |
| Trainer.TrainingRun.EvaluateModel | train_vggface2.py:415-420 | eval-only mode computes throughput and evaluates once, changing nothing else |
| Trainer.TrainingRun.SaveCheckpoints | train_vggface2.py:449-464 | the loop over the checkpoint paths saves the same record to each path of the epoch in order, changing nothing else |
| Trainer.TrainingRun.TrainAndStep | train_vggface2.py:434-446 | sampler reseed when distributed, one training epoch, then the scheduler step with the same epoch |
| Trainer.TrainingRun.ValidateEpoch | train_vggface2.py:466-477 | on the cadence or the final epoch, evaluate, record the validation and fold the accuracy into max_accuracy, returning it; otherwise evaluate nothing and change nothing |
| Trainer.TrainingRun.LogEpoch | train_vggface2.py:480-505 | diagnostics, then the log append iff output_dir is set on the main process |
| Trainer.TrainingRun.RunEpoch | train_vggface2.py:430-505 | one iteration: the state is trained and stepped, the trace grows by that epoch's calls, max_accuracy is updated as validation decides |
| Trainer.TrainingRun.Fit | train_vggface2.py:427-505 | max_accuracy starts at 0.0. The loop leaves the trace, the state and max_accuracy equal to the specification run from start_epoch, and the arguments unchanged |
| Trainer.TrainingRun.Proceed | train_vggface2.py:415-505 | after resuming: the eval-only exit or the epoch loop, as `AfterResume` specifies |
| Trainer.TrainingRun.Run | train_vggface2.py:398-505 | `main` from the resume branch on: outcome, arguments, state, trace and max_accuracy are those of `MainResult` |

## Left out

- Tensors and the network are not modelled. A state dict is an opaque `seq<real>`. Training, the scheduler step and evaluation are the `Engine` functions. Their numerics, mixed precision, gradient clipping and mixup are not modelled.
- Reading the checkpoint is a parameter (`loaded`): no URL fetch, no hash check, no file system. Only the URL test on the path (line 399) is kept.
- Writing checkpoints and `log.txt` is recorded as events, not as files. The JSON log line has no contents here.
- `torch.save(args, output_dir / "args.pyT")` (line 395) is not modelled. It happens in every run before the resume branch, eval mode and an empty output_dir included, and the model starts at line 398.
- The `save_on_master` rank test lives in a module that is not part of this model. A save event stands for the call, whichever process makes it.
- The diagnostics of lines 480-497 (attention maps, gating parameters, distances) are one `Diagnostics` event. `gc.collect`, the timer and every `print` are left out.
- Concurrency and distributed communication are not modelled. `distributed` and `is_main_process()` are plain booleans.
- Argument parsing, data sets, data loaders, model construction and the optimizer and scheduler factories (before line 398) are not modelled. `Args` holds the fields the loop reads.
- The code before line 398 fails as written, and that is not modelled. Line 391 calls `CustomContrastiveLoss()` without the `margin` its constructor requires (line 251), a TypeError. Earlier still, the module-level class at line 197 names `datasets`, which the imports (line 35) do not bind. The model starts as if line 398 is reached.
- A zero `save_every` or cadence (ZeroDivisionError in Python) is ruled out by the `Modulus` type and not modelled as an error.
- Trainer.TrainingRun.Resume: `_load_checkpoint_for_ema` with a stored `None` shadow is modelled as leaving the shadow unchanged, because that function is not part of this model.
- The cadence is the single field `evalEvery`, the value the parser defines as `--eval_every_x_epochs` (line 192). The loop as written reads a different attribute; see Findings.
- Line 500 prints `log_stats`, which is never assigned (a NameError). The model treats the print and the log line as the intended per-epoch log. As written, the AttributeError at line 466 is raised before line 500 is reached.
- `max_accuracy` is not saved in checkpoints and restarts at 0.0 after a resume, as in the code. A run that is not a full resume keeps the configured `start_epoch` rather than forcing 0, as the code does.
- Floating-point accuracies are modelled as `real`, and `max` as an exact comparison.

## Findings

| source | as written | input that shows it | evidently intended | confidence | as-written member | corrected member |
|---|---|---|---|---|---|---|
| train_vggface2.py:466 | the validation test reads `args.eval_every`, but the parser defines only `eval_every_x_epochs` (line 192), so the first epoch raises AttributeError after its checkpoint saves | once the loop is entered, any run with start_epoch < epochs, e.g. epochs = 2 from epoch 0: training only at epoch 0, no validation | validate on the `--eval_every_x_epochs` cadence and at the final epoch, and continue the loop | high (not executed) | Schedule.LoopAsWrittenDiffers | Schedule.RunOccurrences |
