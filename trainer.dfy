/**
 * The mutable run of train_vggface2.py `main`: the command-line namespace
 * (whose start epoch a full resume overwrites), the live training state, the
 * running `max_accuracy` and the calls made so far. Each method changes these
 * fields step by step as the source does, and is proved against the
 * specification functions of the Checkpoint and Schedule modules.
 */
module Trainer {
  import opened Wrappers
  import opened Checkpoint
  import opened Schedule

  class TrainingRun {
    var args: Args
    var state: TrainingState
    var maxAccuracy: real
    var trace: seq<Event>
    const isMain: bool      // utils.is_main_process()
    const engine: Engine    // training, scheduler and evaluation code outside the model

    constructor (args: Args, isMain: bool, engine: Engine, st: TrainingState)
      ensures this.args == args && this.isMain == isMain && this.engine == engine
      ensures state == st && maxAccuracy == 0.0 && trace == []
    {
      this.args := args;
      this.isMain := isMain;
      this.engine := engine;
      state := st;
      maxAccuracy := 0.0;
      trace := [];
    }

    /**
     * The resume branch (train_vggface2.py:398-411) once `loaded` has been read
     * from args.resume: load the weights, and outside eval mode with all of
     * optimizer, lr_scheduler and epoch present also restore those, continue
     * at the saved epoch + 1 and, with EMA enabled, restore the shadow. A
     * missing key ends the branch with KeyError after what was already done.
     */
    method Resume(loaded: Record) returns (outcome: Outcome)
      requires args.resume != ""
      modifies this
      ensures var r := ResumeState(old(args), old(state), loaded);
        && args == r.args && state == r.state
        && outcome == (if r.missing.Some? then KeyError(r.missing.value) else Completed)
      ensures trace == old(trace) + [LoadCheckpoint(IsUrl(old(args).resume))]
      ensures maxAccuracy == old(maxAccuracy)
    {
      trace := trace + [LoadCheckpoint(IsUrl(args.resume))];
      if loaded.model.None? {
        return KeyError("model");
      }
      state := state.(model := loaded.model.value);
      if !args.eval && loaded.optimizer.Some? && loaded.lrScheduler.Some? && loaded.epoch.Some? {
        state := state.(optimizer := loaded.optimizer.value, scheduler := loaded.lrScheduler.value);
        args := args.(startEpoch := loaded.epoch.value + 1);
        if args.modelEma {
          if loaded.modelEma.None? {
            return KeyError("model_ema");
          }
          if loaded.modelEma.value.Some? {
            state := state.(ema := loaded.modelEma.value.value);
          }
        }
      }
      outcome := Completed;
    }

    /** The eval-only exit (train_vggface2.py:415-420): throughput, one evaluation, nothing else. */
    method EvaluateModel()
      modifies this
      ensures trace == old(trace) + [Throughput, EvaluateOnly(engine.evaluate(state.model))]
      ensures args == old(args) && state == old(state) && maxAccuracy == old(maxAccuracy)
    {
      trace := trace + [Throughput];
      var acc1 := engine.evaluate(state.model);
      trace := trace + [EvaluateOnly(acc1)];
    }

    /**
     * The checkpoint writes of one epoch (train_vggface2.py:449-464): the
     * rolling path, the snapshot path on the save_every cadence, and one save
     * of the same record per path.
     */
    method SaveCheckpoints(epoch: int)
      modifies this
      ensures args == old(args) && state == old(state) && maxAccuracy == old(maxAccuracy)
      ensures trace == old(trace) + SaveCalls(CheckpointPaths(args, epoch), SaveRecord(args, state, epoch))
    {
      if args.outputDir != "" {
        var paths := [Rolling];
        if args.saveEvery.Some? {
          if epoch % args.saveEvery.value == 0 {
            paths := paths + [Snapshot(epoch)];
          }
        }
        assert paths == CheckpointPaths(args, epoch);
        var rec := SaveRecord(args, state, epoch);
        ghost var t0 := trace;
        var i := 0;
        while i < |paths|
          invariant 0 <= i <= |paths|
          invariant args == old(args) && state == old(state) && maxAccuracy == old(maxAccuracy)
          invariant trace == t0 + SaveCalls(paths[..i], rec)
        {
          assert paths[..i + 1] == paths[..i] + [paths[i]];
          SaveCallsAppend(paths[..i], [paths[i]], rec);
          trace := trace + [SaveOnMaster(paths[i], rec)];
          i := i + 1;
        }
        assert paths[..i] == paths;
      }
    }

    /**
     * The start of one loop iteration (train_vggface2.py:435-447): the sampler
     * reseed when distributed, one training epoch, then the scheduler step
     * with the same epoch.
     */
    method TrainAndStep(epoch: int)
      modifies this
      ensures args == old(args) && maxAccuracy == old(maxAccuracy)
      ensures state == EpochStep(engine, old(state), epoch)
      ensures trace == old(trace) + SamplerCalls(args, epoch) + [TrainOneEpoch(epoch), SchedulerStep(epoch)]
    {
      if args.distributed {
        trace := trace + [SetSamplerEpoch(epoch)];
      }
      state := engine.train(state, epoch);
      trace := trace + [TrainOneEpoch(epoch)];
      state := engine.stepScheduler(state, epoch);
      trace := trace + [SchedulerStep(epoch)];
    }

    /**
     * The validation block (train_vggface2.py:466-477): on the cadence or at
     * the final epoch, evaluate and fold the accuracy into max_accuracy.
     */
    method ValidateEpoch(epoch: int) returns (acc1: Option<real>)
      modifies this
      ensures args == old(args) && state == old(state)
      ensures acc1 == if ShouldValidate(args, epoch) then Some(engine.evaluate(state.model)) else None
      ensures trace == old(trace) + ValidationCalls(args, epoch, engine.evaluate(state.model))
      ensures maxAccuracy ==
                if ShouldValidate(args, epoch) then Max(old(maxAccuracy), engine.evaluate(state.model))
                else old(maxAccuracy)
    {
      acc1 := None;
      if epoch % args.evalEvery == 0 || epoch == args.epochs - 1 {
        var a := engine.evaluate(state.model);
        trace := trace + [Validate(epoch, a)];
        maxAccuracy := Max(maxAccuracy, a);
        acc1 := Some(a);
      }
    }

    /**
     * The end of one loop iteration (train_vggface2.py:479-505): the
     * diagnostics, then the log append on the main process when there is an
     * output directory.
     */
    method LogEpoch(epoch: int)
      modifies this
      ensures args == old(args) && state == old(state) && maxAccuracy == old(maxAccuracy)
      ensures trace == old(trace) + [Diagnostics(epoch)] + LogCalls(args, isMain, epoch)
    {
      trace := trace + [Diagnostics(epoch)];
      if args.outputDir != "" && isMain {
        trace := trace + [AppendLog(epoch)];
      }
    }

    /**
     * One iteration of the epoch loop (train_vggface2.py:430-505): training and
     * the scheduler step, the checkpoint writes of the stepped state,
     * validation with max_accuracy updated, then diagnostics and the log.
     */
    method RunEpoch(epoch: int)
      modifies this
      ensures args == old(args)
      ensures state == EpochStep(engine, old(state), epoch)
      ensures trace == old(trace) + EpochEvents(args, isMain, engine, old(state), epoch)
      ensures maxAccuracy ==
                if ShouldValidate(args, epoch) then Max(old(maxAccuracy), engine.evaluate(state.model))
                else old(maxAccuracy)
    {
      ghost var t0 := trace;
      TrainAndStep(epoch);
      ghost var t1 := trace;
      SaveCheckpoints(epoch);
      ghost var t2 := trace;
      var _ := ValidateEpoch(epoch);
      ghost var t3 := trace;
      LogEpoch(epoch);
      ghost var p0, p1 := SamplerCalls(args, epoch), [TrainOneEpoch(epoch), SchedulerStep(epoch)];
      ghost var p2 := SaveCalls(CheckpointPaths(args, epoch), SaveRecord(args, state, epoch));
      ghost var p3 := ValidationCalls(args, epoch, engine.evaluate(state.model));
      ghost var p4, p5 := [Diagnostics(epoch)], LogCalls(args, isMain, epoch);
      AppendParts(t0, p0, p1, p2, p3, p4, p5, t1, t2, t3, trace);
    }

    /**
     * The epoch loop (train_vggface2.py:427-505): max_accuracy starts at 0.0
     * and `for epoch in range(args.start_epoch, args.epochs)` runs one
     * iteration per epoch; the trace, the final state and max_accuracy are
     * those of the specification run from the start epoch.
     */
    method Fit()
      modifies this
      ensures args == old(args)
      ensures trace == old(trace) + RunTrace(args, isMain, engine, old(state), args.startEpoch)
      ensures state == StateAfter(args, engine, old(state), args.startEpoch)
      ensures maxAccuracy == BestAfter(args, engine, old(state), args.startEpoch, 0.0)
    {
      maxAccuracy := 0.0;
      var epoch := args.startEpoch;
      while epoch < args.epochs
        invariant args == old(args)
        invariant old(trace) + RunTrace(args, isMain, engine, old(state), args.startEpoch)
                  == trace + RunTrace(args, isMain, engine, state, epoch)
        invariant StateAfter(args, engine, old(state), args.startEpoch) == StateAfter(args, engine, state, epoch)
        invariant BestAfter(args, engine, old(state), args.startEpoch, 0.0)
                  == BestAfter(args, engine, state, epoch, maxAccuracy)
        decreases args.epochs - epoch
      {
        ghost var before, tb := state, trace;
        RunEpoch(epoch);
        ConcatAssoc(tb, EpochEvents(args, isMain, engine, before, epoch),
                    RunTrace(args, isMain, engine, state, epoch + 1));
        epoch := epoch + 1;
      }
    }

    /**
     * `main` after the resume branch (train_vggface2.py:415-505): the
     * eval-only exit, or the epoch loop.
     */
    method Proceed()
      modifies this
      ensures var f := AfterResume(old(args), isMain, engine, old(state));
        && args == f.args && state == f.state
        && trace == old(trace) + f.trace
        && maxAccuracy == (if f.best.Some? then f.best.value else old(maxAccuracy))
    {
      if args.eval {
        EvaluateModel();
      } else {
        Fit();
      }
    }

    /**
     * `main` from the resume branch on (train_vggface2.py:398-505): resume when
     * --resume is given, stopping on KeyError; then the eval-only exit or the
     * epoch loop. `loaded` is what reading args.resume yields.
     */
    method Run(loaded: Record) returns (outcome: Outcome)
      modifies this
      ensures var r := MainResult(old(args), isMain, engine, old(state), loaded);
        && outcome == r.outcome && args == r.args && state == r.state
        && trace == old(trace) + r.trace
        && maxAccuracy == (if r.best.Some? then r.best.value else old(maxAccuracy))
    {
      outcome := Completed;
      if args.resume != "" {
        outcome := Resume(loaded);
        if outcome.KeyError? {
          return;
        }
      }
      ghost var loadedTrace := trace;
      Proceed();
      ConcatAssoc(old(trace), LoadCalls(old(args)), trace[|loadedTrace|..]);
    }
  }
}
