/**
 * The run configuration, the resumable training state, the checkpoint record
 * written at every epoch boundary, the checkpoint file names, and the resume
 * decision that reads a loaded record back into the run
 * (train_vggface2.py, `main`).
 */
module Checkpoint {
  import opened Wrappers

  /** A serialized state dict (model weights, optimizer or scheduler state); its contents are opaque here. */
  type StateDict = seq<real>

  /**
   * A divisor of `epoch % k`: save_every and the validation cadence are used
   * as such at every epoch, so neither may be zero.
   */
  type Modulus = k: int | k != 0 witness 1

  /** The fields of the command-line namespace that the epoch controller reads. */
  datatype Args = Args(
    epochs: int,               // --epochs (default 300)
    startEpoch: int,           // --start_epoch (default 0); overwritten by a full resume
    saveEvery: Option<Modulus>,  // --save_every (default None)
    evalEvery: Modulus,          // the validation cadence (--eval_every_x_epochs, default 1)
    outputDir: string,         // --output_dir (default '': nothing is saved)
    resume: string,            // --resume (default '': no checkpoint is loaded)
    eval: bool,                // --eval: evaluation only
    modelEma: bool,            // --model-ema (default False)
    distributed: bool)         // set by the distributed launcher

  /** The live state that a checkpoint persists: model, optimizer, scheduler and EMA shadow. */
  datatype TrainingState = TrainingState(
    model: StateDict,
    optimizer: StateDict,
    scheduler: StateDict,
    ema: StateDict)           // meaningful only when EMA is enabled

  /**
   * A checkpoint dictionary as loaded from disk. Every key may be absent;
   * `modelEma` is present-with-None when the saving run had EMA disabled.
   */
  datatype Record = Record(
    model: Option<StateDict>,
    optimizer: Option<StateDict>,
    lrScheduler: Option<StateDict>,
    epoch: Option<int>,
    modelEma: Option<Option<StateDict>>,
    args: Option<Args>)

  /** The rolling `checkpoint.pth` or the named snapshot `checkpoint_{epoch}.pth` under the output directory. */
  datatype CheckpointPath = Rolling | Snapshot(epoch: int)

  function DigitChar(d: int): (c: char)
    requires 0 <= d < 10
    ensures '0' <= c <= '9' && c as int - '0' as int == d
  {
    (48 + d) as char
  }

  /** Decimal rendering of a natural number, most significant digit first. */
  function NatToString(n: nat): (s: string)
    ensures |s| >= 1
    ensures n >= 10 ==> |s| >= 2
    ensures forall i :: 0 <= i < |s| ==> '0' <= s[i] <= '9'
    decreases n
  {
    if n < 10 then [DigitChar(n)] else NatToString(n / 10) + [DigitChar(n % 10)]
  }

  /** The number a string of decimal digits denotes, most significant digit first. */
  function DecimalValue(s: string): int
    decreases |s|
  {
    if s == [] then 0 else DecimalValue(s[..|s| - 1]) * 10 + (s[|s| - 1] as int - '0' as int)
  }

  /**
   * The rendering is Python's `str(n)`: its digits denote n in decimal, and
   * it has no leading zero.
   */
  lemma {:induction false} NatToStringValue(n: nat)
    ensures DecimalValue(NatToString(n)) == n
    ensures n >= 10 ==> NatToString(n)[0] != '0'
    decreases n
  {
    if n >= 10 {
      var p := NatToString(n / 10);
      var s := p + [DigitChar(n % 10)];
      assert s[..|s| - 1] == p;
      NatToStringValue(n / 10);
      assert s[0] == p[0];
    }
  }

  /** Python's `str(i)` for an integer. */
  function IntToString(i: int): string {
    if i < 0 then "-" + NatToString(-i) else NatToString(i)
  }

  /** The file name each checkpoint path is written to (train_vggface2.py:450, 454). */
  function FileName(p: CheckpointPath): string {
    match p
    case Rolling => "checkpoint.pth"
    case Snapshot(e) => "checkpoint_" + IntToString(e) + ".pth"
  }

  lemma {:induction false} NatToStringInjective(n: nat, m: nat)
    requires NatToString(n) == NatToString(m)
    ensures n == m
    decreases n
  {
    var s := NatToString(n);
    if n < 10 && m < 10 {
      assert DigitChar(n) == s[0] == DigitChar(m);
    } else if n >= 10 && m >= 10 {
      var k := |s| - 1;
      assert s[..k] == NatToString(n / 10) && s[..k] == NatToString(m / 10);
      NatToStringInjective(n / 10, m / 10);
      assert DigitChar(n % 10) == s[k] == DigitChar(m % 10);
    }
  }

  /** The rendering starts with a minus sign exactly for negative integers. */
  lemma IntToStringSign(i: int)
    ensures |IntToString(i)| >= 1 && (IntToString(i)[0] == '-' <==> i < 0)
  {
    if i >= 0 {
      assert '0' <= NatToString(i)[0] <= '9';
    }
  }

  lemma IntToStringInjective(i: int, j: int)
    requires IntToString(i) == IntToString(j)
    ensures i == j
  {
    IntToStringSign(i);
    IntToStringSign(j);
    var s := IntToString(i);
    if i < 0 && j < 0 {
      assert s[1..] == NatToString(-i) && s[1..] == NatToString(-j);
      NatToStringInjective(-i, -j);
    } else if i >= 0 && j >= 0 {
      NatToStringInjective(i, j);
    }
  }

  /**
   * Distinct checkpoint paths name distinct files: a named snapshot never
   * overwrites the rolling checkpoint or another epoch's snapshot.
   */
  lemma FileNameInjective(p: CheckpointPath, q: CheckpointPath)
    ensures FileName(p) == FileName(q) <==> p == q
  {
    if FileName(p) == FileName(q) && p.Snapshot? && q.Snapshot? {
      var s := FileName(p);
      assert s[11..|s| - 4] == IntToString(p.epoch);
      assert s[11..|s| - 4] == IntToString(q.epoch);
      IntToStringInjective(p.epoch, q.epoch);
    }
  }

  /**
   * The paths written at the end of `epoch` (train_vggface2.py:449-454):
   * nothing when the output directory is empty; otherwise the rolling
   * checkpoint first, then the epoch's snapshot when save_every is set and
   * divides the epoch.
   */
  function CheckpointPaths(args: Args, epoch: int): seq<CheckpointPath> {
    if args.outputDir == "" then []
    else if args.saveEvery.Some? && epoch % args.saveEvery.value == 0 then [Rolling, Snapshot(epoch)]
    else [Rolling]
  }

  /**
   * No path without an output directory; otherwise the rolling checkpoint
   * comes first and is always written, the snapshot of the epoch is written
   * exactly when save_every is set and divides the epoch, nothing else is
   * written and no path is written twice.
   */
  lemma CheckpointPathsSpec(args: Args, epoch: int)
    ensures var paths := CheckpointPaths(args, epoch);
      && (args.outputDir == "" <==> paths == [])
      && (paths != [] ==> paths[0] == Rolling)
      && (Snapshot(epoch) in paths <==>
            args.outputDir != "" && args.saveEvery.Some? && epoch % args.saveEvery.value == 0)
      && (forall p <- paths :: p == Rolling || p == Snapshot(epoch))
      && (forall i, j :: 0 <= i < j < |paths| ==> paths[i] != paths[j])
  {
  }

  /**
   * The dictionary saved at the end of `epoch` (train_vggface2.py:457-463):
   * every field is present, the epoch is the current one, and the EMA entry
   * holds the shadow only when EMA is enabled.
   */
  function SaveRecord(args: Args, st: TrainingState, epoch: int): Record {
    Record(Some(st.model), Some(st.optimizer), Some(st.scheduler), Some(epoch),
           Some(if args.modelEma then Some(st.ema) else None), Some(args))
  }

  /** The key-presence test of train_vggface2.py:406, without the eval flag. */
  predicate HasResumeKeys(c: Record) {
    c.optimizer.Some? && c.lrScheduler.Some? && c.epoch.Some?
  }

  /** Whether a load restores optimizer, scheduler and epoch as well as the weights. */
  predicate IsFullResume(args: Args, c: Record) {
    c.model.Some? && !args.eval && HasResumeKeys(c)
  }

  /**
   * The outcome of the resume branch: the dictionary key that raised KeyError
   * (None when the branch completed), and the arguments and state at that point.
   */
  datatype Resumed = Resumed(missing: Option<string>, args: Args, state: TrainingState)

  /**
   * The resume branch of train_vggface2.py:405-411 applied to a loaded record.
   * The weights always come from 'model'; a full resume (not eval mode and all
   * of 'optimizer', 'lr_scheduler', 'epoch' present) also restores optimizer
   * and scheduler and moves the start epoch to the saved epoch + 1, and with
   * EMA enabled restores the shadow from 'model_ema'. Otherwise nothing but the
   * weights changes and the configured start epoch stands.
   */
  function ResumeState(args: Args, st: TrainingState, c: Record): Resumed
  {
    if c.model.None? then Resumed(Some("model"), args, st)
    else
      var weights := st.(model := c.model.value);
      if !IsFullResume(args, c) then Resumed(None, args, weights)
      else
        var restored := weights.(optimizer := c.optimizer.value, scheduler := c.lrScheduler.value);
        var resumedArgs := args.(startEpoch := c.epoch.value + 1);
        if !args.modelEma then Resumed(None, resumedArgs, restored)
        else if c.modelEma.None? then Resumed(Some("model_ema"), resumedArgs, restored)
        else if c.modelEma.value.None? then Resumed(None, resumedArgs, restored)
        else Resumed(None, resumedArgs, restored.(ema := c.modelEma.value.value))
  }

  /**
   * What the resume branch guarantees: a missing 'model' changes nothing;
   * only the start epoch of the arguments can change; the weights always come
   * from the record; a full resume continues after the saved epoch with the
   * saved optimizer and scheduler, anything else changes only the weights;
   * KeyError('model_ema') is raised exactly on a full resume with EMA enabled
   * and the key absent; and the shadow changes only on a full resume with EMA
   * enabled, to the stored shadow, and on such a resume with a stored shadow
   * it always becomes that shadow.
   */
  lemma ResumeStateSpec(args: Args, st: TrainingState, c: Record)
    ensures var r := ResumeState(args, st, c);
      && (c.model.None? ==> r == Resumed(Some("model"), args, st))
      && r.args == args.(startEpoch := r.args.startEpoch)
      && (c.model.Some? ==> r.state.model == c.model.value)
      && (IsFullResume(args, c) ==>
            && r.args.startEpoch == c.epoch.value + 1
            && r.state.optimizer == c.optimizer.value
            && r.state.scheduler == c.lrScheduler.value)
      && (c.model.Some? && !IsFullResume(args, c) ==> r == Resumed(None, args, st.(model := c.model.value)))
      && (r.missing == Some("model_ema") <==> IsFullResume(args, c) && args.modelEma && c.modelEma.None?)
      && (r.missing.None? <==> c.model.Some? && !(IsFullResume(args, c) && args.modelEma && c.modelEma.None?))
      && (r.state.ema != st.ema ==>
            IsFullResume(args, c) && args.modelEma && c.modelEma == Some(Some(r.state.ema)))
      && (IsFullResume(args, c) && args.modelEma && c.modelEma.Some? && c.modelEma.value.Some? ==>
            r.state.ema == c.modelEma.value.value)
  {
  }

  /**
   * Saving and then resuming round-trips: resuming (outside eval mode, with the
   * same EMA setting) from the record saved at epoch `e` restores the saved
   * model, optimizer, scheduler and EMA shadow and continues at epoch e + 1.
   */
  lemma ResumeAfterSave(args: Args, st: TrainingState, saver: Args, saved: TrainingState, e: int)
    requires !args.eval && args.modelEma == saver.modelEma
    ensures ResumeState(args, st, SaveRecord(saver, saved, e))
            == Resumed(None, args.(startEpoch := e + 1),
                       if args.modelEma then saved else saved.(ema := st.ema))
  {
  }
}
