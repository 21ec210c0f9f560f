/**
 * The epoch controller of train_vggface2.py `main`, as specification
 * functions over an event trace: which calls one epoch makes and in what
 * order, the whole run from the start epoch, the best-accuracy running
 * maximum, and the complete effect of `main`. The calls into code outside
 * the file (training, the scheduler, evaluation) are the `Engine` stubs; the
 * trace records every such call.
 */
module Schedule {
  import opened Wrappers
  import opened Checkpoint

  /** One observable call made by `main`. */
  datatype Event =
    | LoadCheckpoint(fromUrl: bool)                       // torch.hub / torch.load of args.resume
    | Throughput                                          // utils.compute_throughput (eval only)
    | EvaluateOnly(acc1: real)                            // evaluate(...) in eval-only mode
    | SetSamplerEpoch(epoch: int)                         // sampler.set_epoch(epoch)
    | TrainOneEpoch(epoch: int)                           // engine.train_one_epoch(..., epoch, ...)
    | SchedulerStep(epoch: int)                           // lr_scheduler.step(epoch)
    | SaveOnMaster(path: CheckpointPath, record: Record)  // utils.save_on_master(record, path)
    | Validate(epoch: int, acc1: real)                    // evaluate(...) inside the loop
    | Diagnostics(epoch: int)                             // per-layer locality statistics
    | AppendLog(epoch: int)                               // one line appended to log.txt

  /**
   * The code `main` calls but that is not part of this model: the effect of
   * one training epoch on the live state, of a scheduler step on the live
   * state (the scheduler writes the epoch's learning rate into the optimizer
   * it was built on, so both may change), and the top-1 accuracy evaluation
   * reports for weights.
   */
  datatype Engine = Engine(
    train: (TrainingState, int) -> TrainingState,
    stepScheduler: (TrainingState, int) -> TrainingState,
    evaluate: StateDict -> real)

  /** `str(args.resume).startswith('https')` (train_vggface2.py:399). */
  predicate IsUrl(resume: string) {
    |resume| >= 5 && resume[..5] == "https"
  }

  /** The validation condition of train_vggface2.py:466. */
  predicate ShouldValidate(args: Args, epoch: int)
  {
    epoch % args.evalEvery == 0 || epoch == args.epochs - 1
  }

  /** The live state after training `epoch` and then stepping the scheduler with the same epoch. */
  function EpochStep(eng: Engine, st: TrainingState, epoch: int): TrainingState {
    eng.stepScheduler(eng.train(st, epoch), epoch)
  }

  /** One save call per path, in path order, all with the same record. */
  function SaveCalls(paths: seq<CheckpointPath>, rec: Record): seq<Event> {
    if paths == [] then [] else [SaveOnMaster(paths[0], rec)] + SaveCalls(paths[1..], rec)
  }

  /** Exactly one save per path, in path order, each of the same record. */
  lemma {:induction false} SaveCallsSpec(paths: seq<CheckpointPath>, rec: Record)
    ensures |SaveCalls(paths, rec)| == |paths|
    ensures forall i :: 0 <= i < |paths| ==> SaveCalls(paths, rec)[i] == SaveOnMaster(paths[i], rec)
    decreases |paths|
  {
    if paths != [] {
      SaveCallsSpec(paths[1..], rec);
    }
  }

  lemma {:induction false} SaveCallsAppend(a: seq<CheckpointPath>, b: seq<CheckpointPath>, rec: Record)
    ensures SaveCalls(a + b, rec) == SaveCalls(a, rec) + SaveCalls(b, rec)
    decreases |a|
  {
    if a == [] {
      assert a + b == b;
    } else {
      assert (a + b)[0] == a[0];
      assert (a + b)[1..] == a[1..] + b;
      SaveCallsAppend(a[1..], b, rec);
    }
  }

  lemma ConcatAssoc(a: seq<Event>, b: seq<Event>, c: seq<Event>)
    ensures a + b + c == a + (b + c)
  {
  }

  /** A trace grown by six parts in turn is the original trace followed by their concatenation. */
  lemma AppendParts(t0: seq<Event>, p0: seq<Event>, p1: seq<Event>, p2: seq<Event>, p3: seq<Event>,
                    p4: seq<Event>, p5: seq<Event>, t1: seq<Event>, t2: seq<Event>, t3: seq<Event>, t4: seq<Event>)
    requires t1 == t0 + p0 + p1 && t2 == t1 + p2 && t3 == t2 + p3 && t4 == t3 + p4 + p5
    ensures t4 == t0 + (p0 + p1 + p2 + p3 + p4 + p5)
  {
  }

  function SamplerCalls(args: Args, epoch: int): seq<Event> {
    if args.distributed then [SetSamplerEpoch(epoch)] else []
  }

  function ValidationCalls(args: Args, epoch: int, acc1: real): seq<Event>
  {
    if ShouldValidate(args, epoch) then [Validate(epoch, acc1)] else []
  }

  function LogCalls(args: Args, isMain: bool, epoch: int): seq<Event> {
    if args.outputDir != "" && isMain then [AppendLog(epoch)] else []
  }

  /**
   * The calls of one loop iteration (train_vggface2.py:435-505), in order:
   * sampler reseed, training, scheduler step, checkpoint saves of the state
   * `after` the step, optional validation reporting `acc1`, diagnostics, and
   * the main-process log append.
   */
  function EpochCalls(args: Args, isMain: bool, epoch: int, after: TrainingState, acc1: real): seq<Event>
  {
    SamplerCalls(args, epoch)
    + [TrainOneEpoch(epoch), SchedulerStep(epoch)]
    + SaveCalls(CheckpointPaths(args, epoch), SaveRecord(args, after, epoch))
    + ValidationCalls(args, epoch, acc1)
    + [Diagnostics(epoch)]
    + LogCalls(args, isMain, epoch)
  }

  /** One loop iteration from the state `st` on entry; saves and validation see the state after the step. */
  function EpochEvents(args: Args, isMain: bool, eng: Engine, st: TrainingState, epoch: int): seq<Event>
  {
    var after := EpochStep(eng, st, epoch);
    EpochCalls(args, isMain, epoch, after, eng.evaluate(after.model))
  }

  /** The calls of `for epoch in range(epoch, args.epochs)` (train_vggface2.py:430). */
  function RunTrace(args: Args, isMain: bool, eng: Engine, st: TrainingState, epoch: int): seq<Event>
    decreases args.epochs - epoch
  {
    if epoch >= args.epochs then []
    else EpochEvents(args, isMain, eng, st, epoch)
         + RunTrace(args, isMain, eng, EpochStep(eng, st, epoch), epoch + 1)
  }

  /** The live state once the loop from `epoch` has finished. */
  function StateAfter(args: Args, eng: Engine, st: TrainingState, epoch: int): TrainingState
    decreases args.epochs - epoch
  {
    if epoch >= args.epochs then st else StateAfter(args, eng, EpochStep(eng, st, epoch), epoch + 1)
  }

  /**
   * max_accuracy once the loop from `epoch` has finished, starting from m:
   * each epoch that validates folds in the accuracy of the stepped weights.
   */
  function BestAfter(args: Args, eng: Engine, st: TrainingState, epoch: int, m: real): real
    decreases args.epochs - epoch
  {
    if epoch >= args.epochs then m
    else
      var after := EpochStep(eng, st, epoch);
      BestAfter(args, eng, after, epoch + 1,
                if ShouldValidate(args, epoch) then Max(m, eng.evaluate(after.model)) else m)
  }

  // ---------------------------------------------------------------------------
  // Reference schedules

  /** The epochs start..stop-1 in increasing order: Python's `range(start, stop)`. */
  function Epochs(start: int, stop: int): (r: seq<int>)
    decreases stop - start
    ensures |r| == if stop > start then stop - start else 0
    ensures forall i :: 0 <= i < |r| ==> r[i] == start + i
  {
    if start >= stop then [] else [start] + Epochs(start + 1, stop)
  }

  /**
   * The epochs of range(start, stop) that are multiples of k, together with the
   * last one (stop - 1) when `final` holds, in increasing order.
   */
  function Selected(start: int, stop: int, k: int, final: bool): (r: seq<int>)
    requires k != 0
    decreases stop - start
    ensures forall e :: e in r <==> start <= e < stop && (e % k == 0 || (final && e == stop - 1))
    ensures forall i, j :: 0 <= i < j < |r| ==> r[i] < r[j]
    ensures forall i :: 0 <= i < |r| ==> start <= r[i]
  {
    if start >= stop then []
    else (if start % k == 0 || (final && start == stop - 1) then [start] else [])
         + Selected(start + 1, stop, k, final)
  }

  /** With save_every = 5, the epochs 0..10 receive named snapshots exactly at 0, 5 and 10. */
  lemma SelectedEveryFifth()
    ensures Selected(0, 11, 5, false) == [0, 5, 10]
  {
    assert Selected(11, 11, 5, false) == [];
    assert Selected(10, 11, 5, false) == [10];
    assert Selected(9, 11, 5, false) == [10];
    assert Selected(8, 11, 5, false) == [10];
    assert Selected(7, 11, 5, false) == [10];
    assert Selected(6, 11, 5, false) == [10];
    assert Selected(5, 11, 5, false) == [5, 10];
    assert Selected(4, 11, 5, false) == [5, 10];
    assert Selected(3, 11, 5, false) == [5, 10];
    assert Selected(2, 11, 5, false) == [5, 10];
    assert Selected(1, 11, 5, false) == [5, 10];
  }

  // ---------------------------------------------------------------------------
  // Which epochs each kind of call happens at

  datatype Kind = Training | SchedulerSteps | RollingSaves | SnapshotSaves | Validations | LogAppends

  /** The epoch an event stands for under a kind: for a rolling save, the epoch its record carries. */
  function Tag(ev: Event, k: Kind): Option<int> {
    match (k, ev)
    case (Training, TrainOneEpoch(e)) => Some(e)
    case (SchedulerSteps, SchedulerStep(e)) => Some(e)
    case (RollingSaves, SaveOnMaster(Rolling, r)) => r.epoch
    case (SnapshotSaves, SaveOnMaster(Snapshot(e), _)) => Some(e)
    case (Validations, Validate(e, _)) => Some(e)
    case (LogAppends, AppendLog(e)) => Some(e)
    case _ => None
  }

  /** The epochs of the events of kind k in a trace, in trace order. */
  function Occurrences(t: seq<Event>, k: Kind): seq<int> {
    if t == [] then []
    else (if Tag(t[0], k).Some? then [Tag(t[0], k).value] else []) + Occurrences(t[1..], k)
  }

  lemma {:induction false} OccurrencesAppend(a: seq<Event>, b: seq<Event>, k: Kind)
    ensures Occurrences(a + b, k) == Occurrences(a, k) + Occurrences(b, k)
    decreases |a|
  {
    if a != [] {
      assert (a + b)[0] == a[0];
      assert (a + b)[1..] == a[1..] + b;
      OccurrencesAppend(a[1..], b, k);
    } else {
      assert a + b == b;
    }
  }

  /** The epoch-`epoch` entry of the reference schedule of kind k, if any. */
  function ExpectedAt(args: Args, isMain: bool, epoch: int, k: Kind): seq<int>
  {
    match k
    case Training => [epoch]
    case SchedulerSteps => [epoch]
    case RollingSaves => if args.outputDir != "" then [epoch] else []
    case SnapshotSaves =>
      if args.outputDir != "" && args.saveEvery.Some? && epoch % args.saveEvery.value == 0
      then [epoch] else []
    case Validations => if ShouldValidate(args, epoch) then [epoch] else []
    case LogAppends => if args.outputDir != "" && isMain then [epoch] else []
  }

  lemma OccurrencesConcat(p0: seq<Event>, p1: seq<Event>, p2: seq<Event>, p3: seq<Event>,
                          p4: seq<Event>, p5: seq<Event>, k: Kind)
    ensures Occurrences(p0 + p1 + p2 + p3 + p4 + p5, k) ==
            Occurrences(p0, k) + Occurrences(p1, k) + Occurrences(p2, k)
            + Occurrences(p3, k) + Occurrences(p4, k) + Occurrences(p5, k)
  {
    OccurrencesAppend(p0, p1, k);
    OccurrencesAppend(p0 + p1, p2, k);
    OccurrencesAppend(p0 + p1 + p2, p3, k);
    OccurrencesAppend(p0 + p1 + p2 + p3, p4, k);
    OccurrencesAppend(p0 + p1 + p2 + p3 + p4, p5, k);
  }

  /** The occurrences in six consecutive parts of which the first and fifth hold none. */
  lemma OccurrencesOfParts(p0: seq<Event>, p1: seq<Event>, p2: seq<Event>, p3: seq<Event>,
                           p4: seq<Event>, p5: seq<Event>, k: Kind,
                           o1: seq<int>, o2: seq<int>, o3: seq<int>, o5: seq<int>)
    requires Occurrences(p0, k) == [] && Occurrences(p4, k) == []
    requires Occurrences(p1, k) == o1 && Occurrences(p2, k) == o2
    requires Occurrences(p3, k) == o3 && Occurrences(p5, k) == o5
    ensures Occurrences(p0 + p1 + p2 + p3 + p4 + p5, k) == o1 + o2 + o3 + o5
  {
    OccurrencesConcat(p0, p1, p2, p3, p4, p5, k);
    assert [] + o1 + o2 + o3 + [] + o5 == o1 + o2 + o3 + o5;
  }

  lemma OccurrencesOne(ev: Event, k: Kind)
    ensures Occurrences([ev], k) == if Tag(ev, k).Some? then [Tag(ev, k).value] else []
  {
    assert [ev][1..] == [];
  }

  /** The saves of one epoch are the rolling one and, on the save_every cadence, the snapshot. */
  lemma SaveCallsShape(args: Args, epoch: int, rec: Record)
    ensures var t := SaveCalls(CheckpointPaths(args, epoch), rec);
      if args.outputDir == "" then t == []
      else if args.saveEvery.Some? && epoch % args.saveEvery.value == 0
      then t == [SaveOnMaster(Rolling, rec)] + [SaveOnMaster(Snapshot(epoch), rec)]
      else t == [SaveOnMaster(Rolling, rec)]
  {
    SaveCallsSpec(CheckpointPaths(args, epoch), rec);
  }

  // Each part of one epoch's calls: the kinds of call it holds, and that it is in order at that epoch.

  lemma SamplerPart(args: Args, epoch: int, k: Kind)
    ensures var t := SamplerCalls(args, epoch);
      Occurrences(t, k) == [] && InOrder(t) && AtEpoch(t, epoch, 0, 1)
  {
    OccurrencesOne(SetSamplerEpoch(epoch), k);
  }

  lemma TrainStepPart(epoch: int, k: Kind)
    ensures var t := [TrainOneEpoch(epoch), SchedulerStep(epoch)];
      && Occurrences(t, k) == (if k == Training || k == SchedulerSteps then [epoch] else [])
      && InOrder(t) && AtEpoch(t, epoch, 1, 3)
  {
    var t := [TrainOneEpoch(epoch), SchedulerStep(epoch)];
    assert t == [TrainOneEpoch(epoch)] + [SchedulerStep(epoch)];
    OccurrencesAppend([TrainOneEpoch(epoch)], [SchedulerStep(epoch)], k);
    OccurrencesOne(TrainOneEpoch(epoch), k);
    OccurrencesOne(SchedulerStep(epoch), k);
    assert Precedes(t[0], t[1]);
  }

  lemma SavePart(args: Args, epoch: int, rec: Record, k: Kind)
    requires rec.epoch == Some(epoch)
    ensures var t := SaveCalls(CheckpointPaths(args, epoch), rec);
      && Occurrences(t, k) ==
           (if k == RollingSaves || k == SnapshotSaves then ExpectedAt(args, true, epoch, k) else [])
      && InOrder(t) && AtEpoch(t, epoch, 3, 5)
  {
    SaveCallsShape(args, epoch, rec);
    var rolling, snapshot := SaveOnMaster(Rolling, rec), SaveOnMaster(Snapshot(epoch), rec);
    assert Occurrences([rolling] + [snapshot], k) == Occurrences([rolling], k) + Occurrences([snapshot], k) by {
      OccurrencesAppend([rolling], [snapshot], k);
    }
    OccurrencesOne(rolling, k);
    OccurrencesOne(snapshot, k);
    assert Precedes(rolling, snapshot);
  }

  lemma ValidationPart(args: Args, epoch: int, acc1: real, k: Kind)
    ensures var t := ValidationCalls(args, epoch, acc1);
      && Occurrences(t, k) == (if k == Validations then ExpectedAt(args, true, epoch, k) else [])
      && InOrder(t) && AtEpoch(t, epoch, 5, 6)
  {
    OccurrencesOne(Validate(epoch, acc1), k);
  }

  lemma DiagnosticsPart(epoch: int, k: Kind)
    ensures var t := [Diagnostics(epoch)];
      Occurrences(t, k) == [] && InOrder(t) && AtEpoch(t, epoch, 6, 7)
  {
    OccurrencesOne(Diagnostics(epoch), k);
  }

  lemma LogPart(args: Args, isMain: bool, epoch: int, k: Kind)
    ensures var t := LogCalls(args, isMain, epoch);
      && Occurrences(t, k) == (if k == LogAppends then ExpectedAt(args, isMain, epoch, k) else [])
      && InOrder(t) && AtEpoch(t, epoch, 7, 8)
  {
    OccurrencesOne(AppendLog(epoch), k);
  }

  /** One epoch makes each kind of call at most once, exactly when its schedule says so. */
  lemma OccurrencesAtEpoch(args: Args, isMain: bool, epoch: int, after: TrainingState, acc1: real, k: Kind)
    ensures Occurrences(EpochCalls(args, isMain, epoch, after, acc1), k) == ExpectedAt(args, isMain, epoch, k)
  {
    var rec := SaveRecord(args, after, epoch);
    var p0 := SamplerCalls(args, epoch);
    var p1 := [TrainOneEpoch(epoch), SchedulerStep(epoch)];
    var p2 := SaveCalls(CheckpointPaths(args, epoch), rec);
    var p3 := ValidationCalls(args, epoch, acc1);
    var p4 := [Diagnostics(epoch)];
    var p5 := LogCalls(args, isMain, epoch);
    var o1, o2, o3, o5 := Occurrences(p1, k), Occurrences(p2, k), Occurrences(p3, k), Occurrences(p5, k);
    SamplerPart(args, epoch, k);
    TrainStepPart(epoch, k);
    SavePart(args, epoch, rec, k);
    ValidationPart(args, epoch, acc1, k);
    DiagnosticsPart(epoch, k);
    LogPart(args, isMain, epoch, k);
    OccurrencesOfParts(p0, p1, p2, p3, p4, p5, k, o1, o2, o3, o5);
    assert EpochCalls(args, isMain, epoch, after, acc1) == p0 + p1 + p2 + p3 + p4 + p5;
    assert o1 + o2 + o3 + o5 == ExpectedAt(args, isMain, epoch, k) by {
      match k
      case Training => assert o2 == o3 == o5 == []; assert o1 + o2 + o3 + o5 == o1;
      case SchedulerSteps => assert o2 == o3 == o5 == []; assert o1 + o2 + o3 + o5 == o1;
      case RollingSaves => assert o1 == o3 == o5 == []; assert o1 + o2 + o3 + o5 == o2;
      case SnapshotSaves => assert o1 == o3 == o5 == []; assert o1 + o2 + o3 + o5 == o2;
      case Validations => assert o1 == o2 == o5 == []; assert o1 + o2 + o3 + o5 == o3;
      case LogAppends => assert o1 == o2 == o3 == []; assert o1 + o2 + o3 + o5 == o5;
    }
  }

  /**
   * The reference schedule of each kind of call over the loop from `start`:
   * training and the scheduler step at every epoch of range(start, epochs);
   * the rolling checkpoint at every such epoch when the output directory is
   * set; named snapshots at the multiples of save_every; validation at the
   * multiples of the cadence and at the final epoch; the log append at every
   * epoch on the main process when the output directory is set.
   */
  function Expected(args: Args, isMain: bool, start: int, k: Kind): seq<int>
  {
    match k
    case Training => Epochs(start, args.epochs)
    case SchedulerSteps => Epochs(start, args.epochs)
    case RollingSaves => if args.outputDir != "" then Epochs(start, args.epochs) else []
    case SnapshotSaves =>
      if args.outputDir != "" && args.saveEvery.Some?
      then Selected(start, args.epochs, args.saveEvery.value, false) else []
    case Validations => Selected(start, args.epochs, args.evalEvery, true)
    case LogAppends => if args.outputDir != "" && isMain then Epochs(start, args.epochs) else []
  }

  /** The reference schedule from `start` is the entry of epoch `start` followed by the schedule from start + 1. */
  lemma ExpectedStep(args: Args, isMain: bool, start: int, k: Kind)
    requires start < args.epochs
    ensures Expected(args, isMain, start, k) == ExpectedAt(args, isMain, start, k) + Expected(args, isMain, start + 1, k)
  {
    match k
    case Training =>
    case SchedulerSteps =>
    case RollingSaves =>
    case SnapshotSaves =>
    case Validations =>
    case LogAppends =>
  }

  /**
   * Over the whole loop from `start`, each kind of call happens at exactly
   * the epochs of its reference schedule, in increasing order; in particular
   * nothing happens when start >= epochs.
   */
  lemma {:induction false} RunOccurrences(args: Args, isMain: bool, eng: Engine, st: TrainingState,
                                          start: int, k: Kind)
    ensures Occurrences(RunTrace(args, isMain, eng, st, start), k) == Expected(args, isMain, start, k)
    decreases args.epochs - start
  {
    if start < args.epochs {
      RunOccurrences(args, isMain, eng, EpochStep(eng, st, start), start + 1, k);
      OccurrencesFirstEpoch(args, isMain, eng, st, start, k);
      ExpectedStep(args, isMain, start, k);
    }
  }

  /** A run from `start` contributes the entry of epoch `start`, then those of the run from start + 1. */
  lemma OccurrencesFirstEpoch(args: Args, isMain: bool, eng: Engine, st: TrainingState, start: int, k: Kind)
    requires start < args.epochs
    ensures Occurrences(RunTrace(args, isMain, eng, st, start), k) ==
            ExpectedAt(args, isMain, start, k)
            + Occurrences(RunTrace(args, isMain, eng, EpochStep(eng, st, start), start + 1), k)
  {
    var after := EpochStep(eng, st, start);
    OccurrencesAppend(EpochEvents(args, isMain, eng, st, start), RunTrace(args, isMain, eng, after, start + 1), k);
    OccurrencesAtEpoch(args, isMain, start, after, eng.evaluate(after.model), k);
  }

  /** The final epoch of a non-empty run is always validated. */
  lemma FinalEpochValidated(args: Args, isMain: bool, eng: Engine, st: TrainingState, start: int)
    requires start < args.epochs
    ensures args.epochs - 1 in Occurrences(RunTrace(args, isMain, eng, st, start), Validations)
  {
    RunOccurrences(args, isMain, eng, st, start, Validations);
  }

  /** The reference schedule with save_every = 5 and an output directory over epochs 0..10. */
  lemma ExpectedEveryFifth(args: Args, isMain: bool)
    requires args.outputDir != "" && args.saveEvery == Some(5) && args.epochs == 11
    ensures Expected(args, isMain, 0, SnapshotSaves) == [0, 5, 10]
    ensures |Expected(args, isMain, 0, RollingSaves)| == 11
  {
    SelectedEveryFifth();
  }

  /**
   * With save_every = 5 and an output directory, a run over epochs 0..10
   * writes named snapshots exactly at epochs 0, 5 and 10, besides a rolling
   * checkpoint at each of the 11 epochs.
   */
  lemma SnapshotScenario(args: Args, isMain: bool, eng: Engine, st: TrainingState)
    requires args.outputDir != "" && args.saveEvery == Some(5) && args.epochs == 11
    ensures Occurrences(RunTrace(args, isMain, eng, st, 0), SnapshotSaves) == [0, 5, 10]
    ensures |Occurrences(RunTrace(args, isMain, eng, st, 0), RollingSaves)| == 11
  {
    RunOccurrences(args, isMain, eng, st, 0, SnapshotSaves);
    RunOccurrences(args, isMain, eng, st, 0, RollingSaves);
    ExpectedEveryFifth(args, isMain);
  }

  /** One epoch with cadence 1 and no save_every: one training pass, one validation, one checkpoint write. */
  lemma SingleEpochScenario(args: Args, isMain: bool, eng: Engine, st: TrainingState)
    requires args.epochs == 1 && args.evalEvery == 1
    requires args.saveEvery.None? && args.outputDir != ""
    ensures var t := RunTrace(args, isMain, eng, st, 0);
      && Occurrences(t, Training) == [0]
      && Occurrences(t, Validations) == [0]
      && Occurrences(t, RollingSaves) == [0]
      && Occurrences(t, SnapshotSaves) == []
  {
    RunOccurrences(args, isMain, eng, st, 0, Training);
    RunOccurrences(args, isMain, eng, st, 0, Validations);
    RunOccurrences(args, isMain, eng, st, 0, RollingSaves);
    RunOccurrences(args, isMain, eng, st, 0, SnapshotSaves);
    assert Selected(1, 1, 1, true) == [];
  }

  // ---------------------------------------------------------------------------
  // The loop as written

  /**
   * The calls of the first loop iteration up to the validation test, which as
   * written reads `args.eval_every` (train_vggface2.py:466) while the parser
   * only defines `eval_every_x_epochs` (train_vggface2.py:192).
   */
  function IterationAsWritten(args: Args, eng: Engine, st: TrainingState, epoch: int): seq<Event>
  {
    SamplerCalls(args, epoch)
    + [TrainOneEpoch(epoch), SchedulerStep(epoch)]
    + SaveCalls(CheckpointPaths(args, epoch), SaveRecord(args, EpochStep(eng, st, epoch), epoch))
  }

  /** The loop of train_vggface2.py:430-466 as written: a non-empty range stops with AttributeError in its first epoch. */
  function LoopAsWritten(args: Args, eng: Engine, st: TrainingState, start: int): (Outcome, seq<Event>)
  {
    if start >= args.epochs then (Completed, [])
    else (AttributeError("eval_every"), IterationAsWritten(args, eng, st, start))
  }

  /** The occurrences in three consecutive parts of which the first holds none. */
  lemma OccurrencesOfThree(p0: seq<Event>, p1: seq<Event>, p2: seq<Event>, k: Kind, o1: seq<int>, o2: seq<int>)
    requires Occurrences(p0, k) == [] && Occurrences(p1, k) == o1 && Occurrences(p2, k) == o2
    ensures Occurrences(p0 + p1 + p2, k) == o1 + o2
  {
    OccurrencesAppend(p0, p1, k);
    OccurrencesAppend(p0 + p1, p2, k);
    assert [] + o1 == o1;
  }

  /**
   * As written, a non-empty loop trains, steps and saves once, at the start
   * epoch, and never validates or appends to the log.
   */
  lemma LoopAsWrittenStops(args: Args, isMain: bool, eng: Engine, st: TrainingState, start: int, k: Kind)
    requires start < args.epochs
    ensures LoopAsWritten(args, eng, st, start).0 == AttributeError("eval_every")
    ensures Occurrences(LoopAsWritten(args, eng, st, start).1, k) ==
            if k == Validations || k == LogAppends then [] else ExpectedAt(args, isMain, start, k)
  {
    var rec := SaveRecord(args, EpochStep(eng, st, start), start);
    var p0 := SamplerCalls(args, start);
    var p1 := [TrainOneEpoch(start), SchedulerStep(start)];
    var p2 := SaveCalls(CheckpointPaths(args, start), rec);
    var o1, o2 := Occurrences(p1, k), Occurrences(p2, k);
    SamplerPart(args, start, k);
    TrainStepPart(start, k);
    SavePart(args, start, rec, k);
    OccurrencesOfThree(p0, p1, p2, k, o1, o2);
    assert IterationAsWritten(args, eng, st, start) == p0 + p1 + p2;
    assert o1 + o2 == if k == Validations || k == LogAppends then [] else ExpectedAt(args, isMain, start, k) by {
      if k == Training || k == SchedulerSteps {
        assert o2 == [] && o1 + [] == o1;
      } else {
        assert o1 == [] && [] + o2 == o2;
      }
    }
  }

  /** The reference schedule of a two-epoch run: training and validation at epochs 0 and 1. */
  lemma ExpectedTwoEpochs(args: Args, isMain: bool)
    requires args.epochs == 2
    ensures Expected(args, isMain, 0, Training) == [0, 1]
    ensures Expected(args, isMain, 0, Validations) == [0, 1]
  {
    assert Epochs(2, 2) == [];
    assert Selected(2, 2, args.evalEvery, true) == [];
    assert Selected(1, 2, args.evalEvery, true) == [1];
  }

  /**
   * A two-epoch run shows the defect: the intended loop trains at epochs 0 and
   * 1 and validates at both, the loop as written trains only at epoch 0 and
   * never validates.
   */
  lemma LoopAsWrittenDiffers(args: Args, isMain: bool, eng: Engine, st: TrainingState)
    requires args.epochs == 2
    ensures Occurrences(RunTrace(args, isMain, eng, st, 0), Training) == [0, 1]
    ensures Occurrences(LoopAsWritten(args, eng, st, 0).1, Training) == [0]
    ensures Occurrences(RunTrace(args, isMain, eng, st, 0), Validations) == [0, 1]
    ensures Occurrences(LoopAsWritten(args, eng, st, 0).1, Validations) == []
  {
    ExpectedTwoEpochs(args, isMain);
    RunOccurrences(args, isMain, eng, st, 0, Training);
    RunOccurrences(args, isMain, eng, st, 0, Validations);
    LoopAsWrittenStops(args, isMain, eng, st, 0, Training);
    LoopAsWrittenStops(args, isMain, eng, st, 0, Validations);
  }

  // ---------------------------------------------------------------------------
  // Order of the calls

  /** The position of a call inside its epoch. */
  function Phase(ev: Event): nat {
    match ev
    case SetSamplerEpoch(_) => 0
    case TrainOneEpoch(_) => 1
    case SchedulerStep(_) => 2
    case SaveOnMaster(Rolling, _) => 3
    case SaveOnMaster(Snapshot(_), _) => 4
    case Validate(_, _) => 5
    case Diagnostics(_) => 6
    case AppendLog(_) => 7
    case _ => 0
  }

  /** The epoch a loop call belongs to; for a save, the epoch its record carries. */
  function EventEpoch(ev: Event): Option<int> {
    match ev
    case SetSamplerEpoch(e) => Some(e)
    case TrainOneEpoch(e) => Some(e)
    case SchedulerStep(e) => Some(e)
    case SaveOnMaster(_, r) => r.epoch
    case Validate(e, _) => Some(e)
    case Diagnostics(e) => Some(e)
    case AppendLog(e) => Some(e)
    case _ => None
  }

  /** a comes before b: an earlier epoch, or the same epoch and an earlier phase. */
  predicate Precedes(a: Event, b: Event) {
    && EventEpoch(a).Some? && EventEpoch(b).Some?
    && (|| EventEpoch(a).value < EventEpoch(b).value
        || (EventEpoch(a).value == EventEpoch(b).value && Phase(a) < Phase(b)))
  }

  /** Every earlier call of the trace precedes every later one. */
  predicate InOrder(t: seq<Event>) {
    forall i, j :: 0 <= i < j < |t| ==> Precedes(t[i], t[j])
  }

  /** All calls belong to `epoch` and have a phase in [lo, hi). */
  predicate AtEpoch(t: seq<Event>, epoch: int, lo: nat, hi: nat) {
    forall ev <- t :: EventEpoch(ev) == Some(epoch) && lo <= Phase(ev) < hi
  }

  /** All calls belong to an epoch in [start, stop). */
  predicate InEpochs(t: seq<Event>, start: int, stop: int) {
    forall ev <- t :: EventEpoch(ev).Some? && start <= EventEpoch(ev).value < stop
  }

  lemma InOrderAppend(a: seq<Event>, b: seq<Event>)
    requires InOrder(a) && InOrder(b)
    requires forall i, j :: 0 <= i < |a| && 0 <= j < |b| ==> Precedes(a[i], b[j])
    ensures InOrder(a + b)
  {
    var c := a + b;
    forall i, j | 0 <= i < j < |c| ensures Precedes(c[i], c[j]) {
      if j < |a| {
        assert c[i] == a[i] && c[j] == a[j];
      } else if i >= |a| {
        assert c[i] == b[i - |a|] && c[j] == b[j - |a|];
      } else {
        assert c[i] == a[i] && c[j] == b[j - |a|];
      }
    }
  }

  lemma PhasedAppend(a: seq<Event>, b: seq<Event>, epoch: int, lo: nat, mid: nat, hi: nat)
    requires lo <= mid <= hi
    requires InOrder(a) && InOrder(b)
    requires AtEpoch(a, epoch, lo, mid) && AtEpoch(b, epoch, mid, hi)
    ensures InOrder(a + b) && AtEpoch(a + b, epoch, lo, hi)
  {
    forall i, j | 0 <= i < |a| && 0 <= j < |b| ensures Precedes(a[i], b[j]) {
      assert a[i] in a && b[j] in b;
    }
    InOrderAppend(a, b);
    forall ev | ev in a + b ensures EventEpoch(ev) == Some(epoch) && lo <= Phase(ev) < hi {
      if ev !in a {
        assert ev in b;
      }
    }
  }

  lemma PhasedConcat(p0: seq<Event>, p1: seq<Event>, p2: seq<Event>, p3: seq<Event>,
                     p4: seq<Event>, p5: seq<Event>, epoch: int)
    requires InOrder(p0) && InOrder(p1) && InOrder(p2) && InOrder(p3) && InOrder(p4) && InOrder(p5)
    requires AtEpoch(p0, epoch, 0, 1) && AtEpoch(p1, epoch, 1, 3) && AtEpoch(p2, epoch, 3, 5)
    requires AtEpoch(p3, epoch, 5, 6) && AtEpoch(p4, epoch, 6, 7) && AtEpoch(p5, epoch, 7, 8)
    ensures InOrder(p0 + p1 + p2 + p3 + p4 + p5) && AtEpoch(p0 + p1 + p2 + p3 + p4 + p5, epoch, 0, 8)
  {
    PhasedAppend(p0, p1, epoch, 0, 1, 3);
    PhasedAppend(p0 + p1, p2, epoch, 0, 3, 5);
    PhasedAppend(p0 + p1 + p2, p3, epoch, 0, 5, 6);
    PhasedAppend(p0 + p1 + p2 + p3, p4, epoch, 0, 6, 7);
    PhasedAppend(p0 + p1 + p2 + p3 + p4, p5, epoch, 0, 7, 8);
  }

  /**
   * Within one epoch every call carries that epoch and the calls come in the
   * order sampler reseed, training, scheduler step, rolling save, snapshot
   * save, validation, diagnostics, log append, each at most once.
   */
  lemma EpochInOrder(args: Args, isMain: bool, epoch: int, after: TrainingState, acc1: real)
    ensures InOrder(EpochCalls(args, isMain, epoch, after, acc1))
    ensures AtEpoch(EpochCalls(args, isMain, epoch, after, acc1), epoch, 0, 8)
  {
    var rec := SaveRecord(args, after, epoch);
    SamplerPart(args, epoch, Training);
    TrainStepPart(epoch, Training);
    SavePart(args, epoch, rec, Training);
    ValidationPart(args, epoch, acc1, Training);
    DiagnosticsPart(epoch, Training);
    LogPart(args, isMain, epoch, Training);
    PhasedConcat(SamplerCalls(args, epoch), [TrainOneEpoch(epoch), SchedulerStep(epoch)],
                 SaveCalls(CheckpointPaths(args, epoch), rec), ValidationCalls(args, epoch, acc1),
                 [Diagnostics(epoch)], LogCalls(args, isMain, epoch), epoch);
  }

  /**
   * The whole loop is in order: epochs run one after another in increasing
   * order, every call of an epoch precedes every call of a later one, and
   * every call belongs to an epoch of range(start, epochs).
   */
  lemma {:induction false} RunInOrder(args: Args, isMain: bool, eng: Engine, st: TrainingState, start: int)
    ensures InOrder(RunTrace(args, isMain, eng, st, start))
    ensures InEpochs(RunTrace(args, isMain, eng, st, start), start, args.epochs)
    decreases args.epochs - start
  {
    if start < args.epochs {
      var e := EpochEvents(args, isMain, eng, st, start);
      var rest := RunTrace(args, isMain, eng, EpochStep(eng, st, start), start + 1);
      var after := EpochStep(eng, st, start);
      EpochInOrder(args, isMain, start, after, eng.evaluate(after.model));
      RunInOrder(args, isMain, eng, EpochStep(eng, st, start), start + 1);
      forall i, j | 0 <= i < |e| && 0 <= j < |rest| ensures Precedes(e[i], rest[j]) {
        assert e[i] in e && rest[j] in rest;
      }
      InOrderAppend(e, rest);
      assert forall ev <- e + rest :: ev in e || ev in rest;
    }
  }

  // ---------------------------------------------------------------------------
  // The best-accuracy running maximum

  /** Python's `max(a, b)` on accuracies. */
  function Max(a: real, b: real): real {
    if b > a then b else a
  }

  /** `max_accuracy` after folding `max` over every validation in the trace, starting from m. */
  function BestAccuracy(m: real, t: seq<Event>): real
    decreases |t|
  {
    if t == [] then m
    else
      var before := BestAccuracy(m, t[..|t| - 1]);
      match t[|t| - 1]
      case Validate(_, acc) => Max(before, acc)
      case _ => before
  }

  lemma {:induction false} BestAccuracyAppend(m: real, a: seq<Event>, b: seq<Event>)
    ensures BestAccuracy(m, a + b) == BestAccuracy(BestAccuracy(m, a), b)
    decreases |b|
  {
    if b == [] {
      assert a + b == a;
    } else {
      var c := a + b;
      assert c[..|c| - 1] == a + b[..|b| - 1];
      assert c[|c| - 1] == b[|b| - 1];
      BestAccuracyAppend(m, a, b[..|b| - 1]);
    }
  }

  /**
   * The running maximum never falls below its start, is at least every
   * accuracy validated in the trace, and is its start or one of them.
   */
  lemma {:induction false} BestAccuracyBounds(m: real, t: seq<Event>)
    ensures BestAccuracy(m, t) >= m
    ensures forall i :: 0 <= i < |t| && t[i].Validate? ==> BestAccuracy(m, t) >= t[i].acc1
    ensures BestAccuracy(m, t) == m ||
            exists i :: 0 <= i < |t| && t[i].Validate? && BestAccuracy(m, t) == t[i].acc1
    decreases |t|
  {
    if t != [] {
      var u := t[..|t| - 1];
      BestAccuracyBounds(m, u);
      assert forall i :: 0 <= i < |u| ==> u[i] == t[i];
    }
  }

  /** The running maximum never decreases as the trace grows. */
  lemma BestAccuracyMonotone(m: real, t: seq<Event>, k: nat)
    requires k <= |t|
    ensures BestAccuracy(m, t[..k]) <= BestAccuracy(m, t)
  {
    assert t == t[..k] + t[k..];
    BestAccuracyAppend(m, t[..k], t[k..]);
    BestAccuracyBounds(BestAccuracy(m, t[..k]), t[k..]);
  }

  lemma {:induction false} BestAccuracyNoValidation(m: real, t: seq<Event>)
    requires forall ev <- t :: !ev.Validate?
    ensures BestAccuracy(m, t) == m
    decreases |t|
  {
    if t != [] {
      assert t[|t| - 1] in t;
      assert forall ev <- t[..|t| - 1] :: ev in t;
      BestAccuracyNoValidation(m, t[..|t| - 1]);
    }
  }

  /** No call of an epoch before its validation, or after it, is a validation. */
  lemma NoValidationAround(args: Args, isMain: bool, epoch: int, rec: Record)
    ensures forall ev <- SamplerCalls(args, epoch) + [TrainOneEpoch(epoch), SchedulerStep(epoch)]
                         + SaveCalls(CheckpointPaths(args, epoch), rec) :: !ev.Validate?
    ensures forall ev <- [Diagnostics(epoch)] + LogCalls(args, isMain, epoch) :: !ev.Validate?
  {
    SaveCallsShape(args, epoch, rec);
  }

  /** One epoch moves the maximum to max(m, acc1) when it validates and leaves it alone otherwise. */
  lemma BestAccuracyAtEpoch(args: Args, isMain: bool, epoch: int, after: TrainingState, acc1: real, m: real)
    ensures BestAccuracy(m, EpochCalls(args, isMain, epoch, after, acc1)) ==
            if ShouldValidate(args, epoch) then Max(m, acc1) else m
  {
    var rec := SaveRecord(args, after, epoch);
    var x := SamplerCalls(args, epoch) + [TrainOneEpoch(epoch), SchedulerStep(epoch)]
             + SaveCalls(CheckpointPaths(args, epoch), rec);
    var v := ValidationCalls(args, epoch, acc1);
    var y := [Diagnostics(epoch)] + LogCalls(args, isMain, epoch);
    NoValidationAround(args, isMain, epoch, rec);
    BestAccuracyNoValidation(m, x);
    assert BestAccuracy(m, x + v) == if ShouldValidate(args, epoch) then Max(m, acc1) else m by {
      BestAccuracyAppend(m, x, v);
      if v != [] {
        assert v == [] + [v[0]];
      }
    }
    BestAccuracyNoValidation(BestAccuracy(m, x + v), y);
    BestAccuracyAppend(m, x + v, y);
    assert EpochCalls(args, isMain, epoch, after, acc1) == (x + v) + y;
  }

  /** The loop's max_accuracy is the running maximum over the validations of its trace. */
  lemma {:induction false} BestAfterIsRunningMax(args: Args, isMain: bool, eng: Engine, st: TrainingState,
                                                 epoch: int, m: real)
    ensures BestAfter(args, eng, st, epoch, m) == BestAccuracy(m, RunTrace(args, isMain, eng, st, epoch))
    decreases args.epochs - epoch
  {
    if epoch < args.epochs {
      var after := EpochStep(eng, st, epoch);
      var acc1 := eng.evaluate(after.model);
      var e := EpochEvents(args, isMain, eng, st, epoch);
      var rest := RunTrace(args, isMain, eng, after, epoch + 1);
      BestAccuracyAppend(m, e, rest);
      BestAccuracyAtEpoch(args, isMain, epoch, after, acc1, m);
      BestAfterIsRunningMax(args, isMain, eng, after, epoch + 1, BestAccuracy(m, e));
    }
  }

  // ---------------------------------------------------------------------------
  // `main` from the resume branch on

  /**
   * How `main` ends: normally, with a KeyError on a missing checkpoint key, or
   * (only in the loop as written) with an AttributeError on a missing argument.
   */
  datatype Outcome = Completed | KeyError(key: string) | AttributeError(name: string)

  /**
   * Everything `main` leaves behind: its outcome, the (possibly resumed)
   * arguments and live state, the final `max_accuracy` when the loop was
   * reached, and the calls it made.
   */
  datatype Final = Final(outcome: Outcome, args: Args, state: TrainingState,
                         best: Option<real>, trace: seq<Event>)

  function LoadCalls(args: Args): seq<Event> {
    if args.resume != "" then [LoadCheckpoint(IsUrl(args.resume))] else []
  }

  /**
   * `main` after the resume branch (train_vggface2.py:415-505), from the
   * resumed arguments and state: the eval-only exit, or the epoch loop from
   * the start epoch with max_accuracy starting at 0.0.
   */
  function AfterResume(args: Args, isMain: bool, eng: Engine, st: TrainingState): Final {
    if args.eval then
      Final(Completed, args, st, None, [Throughput, EvaluateOnly(eng.evaluate(st.model))])
    else
      Final(Completed, args, StateAfter(args, eng, st, args.startEpoch),
            Some(BestAfter(args, eng, st, args.startEpoch, 0.0)),
            RunTrace(args, isMain, eng, st, args.startEpoch))
  }

  /**
   * `main` from the resume branch on (train_vggface2.py:398-505): load and
   * resume when --resume is given, stopping on KeyError, then continue as
   * AfterResume says. `loaded` is what loading args.resume yields.
   */
  function MainResult(args: Args, isMain: bool, eng: Engine, st: TrainingState, loaded: Record): Final {
    var load := LoadCalls(args);
    var resumed := if args.resume != "" then ResumeState(args, st, loaded) else Resumed(None, args, st);
    if resumed.missing.Some? then
      Final(KeyError(resumed.missing.value), resumed.args, resumed.state, None, load)
    else
      var rest := AfterResume(resumed.args, isMain, eng, resumed.state);
      rest.(trace := load + rest.trace)
  }

  /**
   * What `main` guarantees: a KeyError happens only when --resume is given and
   * ends `main` right after the load; eval mode never trains, never saves,
   * never logs, leaves the arguments, the optimizer and the scheduler as they
   * were and reports no max_accuracy; a completed training run trains at
   * exactly the epochs of range(start_epoch, epochs), start_epoch as resumed,
   * and reports as max_accuracy the running maximum of its validations from 0.0.
   */
  lemma MainResultSpec(args: Args, isMain: bool, eng: Engine, st: TrainingState, loaded: Record)
    ensures var r := MainResult(args, isMain, eng, st, loaded);
      && (r.outcome.KeyError? ==>
            args.resume != "" && r.best.None? && r.trace == [LoadCheckpoint(IsUrl(args.resume))])
      && (args.eval ==>
            && r.best.None?
            && r.args == args
            && r.state.optimizer == st.optimizer && r.state.scheduler == st.scheduler
            && forall ev <- r.trace :: ev.LoadCheckpoint? || ev.Throughput? || ev.EvaluateOnly?)
      && (r.outcome == Completed && !args.eval ==>
            && r.best == Some(BestAccuracy(0.0, r.trace))
            && Occurrences(r.trace, Training) == Epochs(r.args.startEpoch, args.epochs))
  {
    var load := LoadCalls(args);
    if args.resume != "" {
      ResumeStateSpec(args, st, loaded);
    }
    var resumed := if args.resume != "" then ResumeState(args, st, loaded) else Resumed(None, args, st);
    if resumed.missing.None? && !args.eval {
      var a := resumed.args;
      var t := RunTrace(a, isMain, eng, resumed.state, a.startEpoch);
      RunOccurrences(a, isMain, eng, resumed.state, a.startEpoch, Training);
      OccurrencesAppend(load, t, Training);
      BestAccuracyAppend(0.0, load, t);
      BestAccuracyNoValidation(0.0, load);
      BestAfterIsRunningMax(a, isMain, eng, resumed.state, a.startEpoch, 0.0);
    }
  }

  /**
   * Resuming from the checkpoint saved at the end of epoch e continues the
   * run at epoch e + 1: training happens at exactly e + 1 .. epochs - 1, from
   * the saved model, optimizer and scheduler state.
   */
  lemma ResumeContinues(args: Args, isMain: bool, eng: Engine, st: TrainingState,
                        saver: Args, saved: TrainingState, e: int)
    requires args.resume != "" && !args.eval
    requires saver.modelEma == args.modelEma
    ensures var r := MainResult(args, isMain, eng, st, SaveRecord(saver, saved, e));
      && r.outcome == Completed
      && r.args.startEpoch == e + 1
      && Occurrences(r.trace, Training) == Epochs(e + 1, args.epochs)
  {
    ResumeAfterSave(args, st, saver, saved, e);
    MainResultSpec(args, isMain, eng, st, SaveRecord(saver, saved, e));
  }
}
