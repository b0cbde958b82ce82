/**
 * The identity-mapping training solver (`Solver` in solver_encoder.py): construction and
 * resume, the two save formats, and the `train` loop as a state machine over opaque numerics.
 * `Run` is the loop's specification; `Solver.Train` is proved to follow it and the lemmas
 * below state what the loop promises.
 */
module IdentitySolver {
  import opened Wrappers
  import opened Checkpoints
  import opened Schedule

  /** The attributes of `config` that `Solver.__init__` reads. */
  datatype Config = Config(
    lambdaCd: real, dimNeck: int, dimEmb: int, dimPre: int, freq: int,
    initModel: string, batchSize: int, numIters: int, checkpointMode: string,
    saveEveryNIter: int, savePath: string, learningRate: real, logStep: int)

  /** One batch of the data loader: `(x_real, emb_org)`. */
  datatype Batch = Batch(features: seq<seq<real>>, embOrg: seq<real>)

  /** The `.item()` values of `g_loss_id`, `g_loss_id_psnt` and `g_loss_cd` for one step. */
  datatype Losses = Losses(id: real, idPsnt: real, cd: real)

  /**
   * What one `train` call is run against: the loader's batches, the Generator forward
   * passes with their losses, backward plus the Adam step (new parameter values and optimizer
   * state), and the call-relative iteration at whose start a KeyboardInterrupt arrives, if any.
   */
  datatype Env = Env(
    loader: seq<Batch>,
    forward: (Weights, Batch) -> Losses,
    step: (Weights, OptState, Batch) -> (seq<real>, OptState),
    interrupt: Option<nat>)

  /** The solver attributes the loop reads. */
  datatype Settings = Settings(
    lambdaCd: real, hparams: HParams, numIters: int, autosave: bool,
    savingPace: int, savingPrefix: string, logStep: int)

  /** `g_loss = g_loss_id + g_loss_id_psnt + lambda_cd * g_loss_cd`. */
  function TotalLoss(lambdaCd: real, t: Losses): real
  {
    t.id + t.idPsnt + lambdaCd * t.cd
  }

  /** The `loss` dict of one iteration, in the order of `keys`. */
  function LogValues(lambdaCd: real, t: Losses): seq<(string, real)>
  {
    [("G/loss", TotalLoss(lambdaCd, t)), ("G/loss_id", t.id), ("G/loss_id_psnt", t.idPsnt), ("G/loss_cd", t.cd)]
  }

  /**
   * The state the loop changes: weights, optimizer, history, loader cursor, printed log lines,
   * the store's files and directories, and (for the proofs) the losses of each iteration so far.
   */
  datatype RunState = RunState(
    g: Weights, opt: OptState, loss: seq<real>, cursor: Cursor, logs: seq<LogLine>,
    files: map<string, Checkpoint>, dirs: set<string>, trace: seq<Losses>)

  function RunStart(g: Weights, opt: OptState, loss: seq<real>, files: map<string, Checkpoint>, dirs: set<string>): RunState
  {
    RunState(g, opt, loss, Unbound, [], files, dirs, [])
  }

  /**
   * Iteration `k` of a call (global index `i0 + k`): the state after it, and the message of the
   * exception it raises, if any.
   */
  function Iteration(s: Settings, env: Env, i0: nat, st0: RunState, k: nat): (RunState, Option<string>)
    decreases k, 1
  {
    var st := Run(s, env, i0, st0, k).0;
    var i := i0 + k;
    if env.interrupt == Some(k) then
      if s.autosave then
        (st.(files := st.files[AutosavePath := TrainableBundle(s.hparams, st.g, st.opt, st.loss)]), Some(AutosaveDone))
      else (st, Some(NoAutosave))
    else
      match Fetch(st.cursor, env.loader)
      case None => (st, Some(StopIteration))
      case Some((batch, cursor)) =>
        var t := env.forward(st.g, batch);
        var (values, opt) := env.step(st.g, st.opt, batch);
        var st1 := st.(g := Weights(st.g.shape, values), opt := opt, loss := st.loss + [TotalLoss(s.lambdaCd, t)],
                       cursor := cursor, trace := st.trace + [t]);
        if s.logStep == 0 then (st1, Some(ModuloByZero))
        else
          var st2 := if LogDue(s.logStep, i + 1)
                     then st1.(logs := st1.logs + [LogLine(i + 1, s.numIters, LogValues(s.lambdaCd, t))])
                     else st1;
          if SaveDue(s.savingPace, i + 1) then
            if IsRegularFile(st2.files, st2.dirs, CheckpointDir) then (st2, Some(NotADirectory(CheckpointPath(s.savingPrefix, i + 1))))
            else
              (st2.(dirs := st2.dirs + {CheckpointDir},
                    files := st2.files[CheckpointPath(s.savingPrefix, i + 1) := TrainableBundle(s.hparams, st2.g, st2.opt, st2.loss)]),
               None)
          else (st2, None)
  }

  /** The first `k` iterations of a call, stopping at the first exception. */
  function Run(s: Settings, env: Env, i0: nat, st0: RunState, k: nat): (RunState, Option<string>)
    decreases k, 0
  {
    if k == 0 then (st0, None)
    else if Run(s, env, i0, st0, k - 1).1.Some? then Run(s, env, i0, st0, k - 1)
    else Iteration(s, env, i0, st0, k - 1)
  }

  /** What an iteration that raises nothing does to each part of the state. */
  lemma IterationEffect(s: Settings, env: Env, i0: nat, st0: RunState, k: nat)
    requires Iteration(s, env, i0, st0, k).1.None?
    ensures env.interrupt != Some(k) && |env.loader| > 0 && s.logStep != 0
    ensures SaveDue(s.savingPace, i0 + k + 1) ==>
      !IsRegularFile(Run(s, env, i0, st0, k).0.files, Run(s, env, i0, st0, k).0.dirs, CheckpointDir)
    ensures var r := Iteration(s, env, i0, st0, k).0;
      var (batch, cursor) := Fetch(Run(s, env, i0, st0, k).0.cursor, env.loader).value;
      var t := env.forward(Run(s, env, i0, st0, k).0.g, batch);
      var m := i0 + k + 1;
      && r.cursor == cursor
      && r.trace == Run(s, env, i0, st0, k).0.trace + [t]
      && r.loss == Run(s, env, i0, st0, k).0.loss + [TotalLoss(s.lambdaCd, t)]
      && r.g == Weights(Run(s, env, i0, st0, k).0.g.shape, env.step(Run(s, env, i0, st0, k).0.g, Run(s, env, i0, st0, k).0.opt, batch).0)
      && r.opt == env.step(Run(s, env, i0, st0, k).0.g, Run(s, env, i0, st0, k).0.opt, batch).1
      && r.logs == Run(s, env, i0, st0, k).0.logs + (if LogDue(s.logStep, m) then [LogLine(m, s.numIters, LogValues(s.lambdaCd, t))] else [])
      && r.files == (if SaveDue(s.savingPace, m)
                     then Run(s, env, i0, st0, k).0.files[CheckpointPath(s.savingPrefix, m) := TrainableBundle(s.hparams, r.g, r.opt, r.loss)]
                     else Run(s, env, i0, st0, k).0.files)
      && r.dirs == (if SaveDue(s.savingPace, m) then Run(s, env, i0, st0, k).0.dirs + {CheckpointDir} else Run(s, env, i0, st0, k).0.dirs)
  {
  }

  /**
   * An iteration with no interrupt, a batch to fetch, a non-zero `log_step` and, when it saves,
   * no regular file in the way of `./trained_models` raises nothing.
   */
  lemma IterationStep(s: Settings, env: Env, i0: nat, st0: RunState, k: nat)
    requires env.interrupt != Some(k) && |env.loader| > 0 && s.logStep != 0
    requires SaveDue(s.savingPace, i0 + k + 1) ==>
      !IsRegularFile(Run(s, env, i0, st0, k).0.files, Run(s, env, i0, st0, k).0.dirs, CheckpointDir)
    ensures Iteration(s, env, i0, st0, k).1.None?
  {
  }

  /** Once an exception is raised, no later iteration runs. */
  lemma {:induction false} RunHalts(s: Settings, env: Env, i0: nat, st0: RunState, k: nat, m: nat)
    requires k <= m
    requires Run(s, env, i0, st0, k).1.Some?
    ensures Run(s, env, i0, st0, m) == Run(s, env, i0, st0, k)
    decreases m
  {
    if k < m {
      RunHalts(s, env, i0, st0, k, m - 1);
    }
  }

  /** The first `k` iterations ran without an exception. */
  predicate Ran(s: Settings, env: Env, i0: nat, st0: RunState, k: nat)
  {
    Run(s, env, i0, st0, k).1.None?
  }

  lemma RanBefore(s: Settings, env: Env, i0: nat, st0: RunState, k: nat)
    requires k > 0 && Ran(s, env, i0, st0, k)
    ensures Ran(s, env, i0, st0, k - 1)
    ensures Run(s, env, i0, st0, k) == Iteration(s, env, i0, st0, k - 1)
    ensures Iteration(s, env, i0, st0, k - 1).1.None?
  {
  }

  /**
   * A completed iteration never writes the `trained_models` entry as a file, and makes it a
   * directory when it saves, so a regular file there stays in the way exactly as long as it was at
   * the start: until the first save raises.
   */
  lemma {:induction false} RunKeepsDirFile(s: Settings, env: Env, i0: nat, st0: RunState, k: nat)
    requires Ran(s, env, i0, st0, k)
    ensures IsRegularFile(Run(s, env, i0, st0, k).0.files, Run(s, env, i0, st0, k).0.dirs, CheckpointDir)
        <==> IsRegularFile(st0.files, st0.dirs, CheckpointDir)
  {
    if k > 0 {
      RanBefore(s, env, i0, st0, k);
      RunKeepsDirFile(s, env, i0, st0, k - 1);
      IterationEffect(s, env, i0, st0, k - 1);
      CheckpointPathIsNotDir(s.savingPrefix, i0 + k);
    }
  }

  /**
   * A call runs its first `k` iterations to the end exactly when no interrupt arrives among them;
   * if there is at least one, the loader has a batch and `log_step` is not 0; and, when
   * `trained_models` is a regular file, none of them is due to save.
   */
  lemma {:induction false} RanIff(s: Settings, env: Env, i0: nat, st0: RunState, k: nat)
    ensures Ran(s, env, i0, st0, k) <==>
      && (forall j :: 0 <= j < k ==> env.interrupt != Some(j))
      && (k > 0 ==> |env.loader| > 0 && s.logStep != 0)
      && (IsRegularFile(st0.files, st0.dirs, CheckpointDir) ==> forall m :: i0 < m <= i0 + k ==> !SaveDue(s.savingPace, m))
  {
    if k > 0 {
      RanIff(s, env, i0, st0, k - 1);
      if !Ran(s, env, i0, st0, k - 1) {
        RunHalts(s, env, i0, st0, k - 1, k);
      } else {
        RunKeepsDirFile(s, env, i0, st0, k - 1);
        if env.interrupt != Some(k - 1) && |env.loader| > 0 && s.logStep != 0
           && !(SaveDue(s.savingPace, i0 + k) && IsRegularFile(st0.files, st0.dirs, CheckpointDir)) {
          IterationStep(s, env, i0, st0, k - 1);
        } else if Ran(s, env, i0, st0, k) {
          RanBefore(s, env, i0, st0, k);
          IterationEffect(s, env, i0, st0, k - 1);
        }
      }
    }
  }

  /**
   * Each iteration appends exactly one loss, the total of that iteration's terms; earlier entries
   * stay put, and the weights keep their shape. With a history of `init_iter` entries at the start,
   * iteration `i` leaves `len(loss) == i + 1`.
   */
  lemma {:induction false} RunAppendsHistory(s: Settings, env: Env, i0: nat, st0: RunState, k: nat)
    requires st0.trace == []
    requires Ran(s, env, i0, st0, k)
    ensures var r := Run(s, env, i0, st0, k).0;
      && |r.loss| == |st0.loss| + k
      && |r.trace| == k
      && r.loss[..|st0.loss|] == st0.loss
      && (forall j :: 0 <= j < k ==> r.loss[|st0.loss| + j] == TotalLoss(s.lambdaCd, r.trace[j]))
      && r.g.shape == st0.g.shape
      && (|st0.loss| == i0 ==> |r.loss| == i0 + k)
  {
    if k > 0 {
      RanBefore(s, env, i0, st0, k);
      IterationEffect(s, env, i0, st0, k - 1);
      RunAppendsHistory(s, env, i0, st0, k - 1);
      var p := Run(s, env, i0, st0, k - 1).0;
      var r := Run(s, env, i0, st0, k).0;
      assert r.loss == p.loss + [r.loss[|r.loss| - 1]];
      assert r.trace == p.trace + [r.trace[k - 1]];
    }
  }

  /**
   * With a deterministic loader of `n >= 1` batches, the `j`-th iteration of a call (from 0) is
   * computed on batch `j mod n` with the weights the previous iterations left.
   */
  lemma {:induction false} RunCyclesBatches(s: Settings, env: Env, i0: nat, st0: RunState, k: nat)
    requires st0.trace == [] && st0.cursor == Unbound && |env.loader| > 0
    requires Ran(s, env, i0, st0, k)
    ensures Run(s, env, i0, st0, k).0.cursor == CursorAfter(k, |env.loader|)
    ensures |Run(s, env, i0, st0, k).0.trace| == k
    ensures forall j :: 0 <= j < k ==>
      Run(s, env, i0, st0, k).0.trace[j] == env.forward(Run(s, env, i0, st0, j).0.g, env.loader[j % |env.loader|])
  {
    if k > 0 {
      RanBefore(s, env, i0, st0, k);
      var p := Run(s, env, i0, st0, k - 1).0;
      IterationEffect(s, env, i0, st0, k - 1);
      RunCyclesBatches(s, env, i0, st0, k - 1);
      FetchCycles(env.loader, k - 1);
      var r := Run(s, env, i0, st0, k).0;
      forall j | 0 <= j < k
        ensures r.trace[j] == env.forward(Run(s, env, i0, st0, j).0.g, env.loader[j % |env.loader|])
      {
        if j < k - 1 {
          assert r.trace[j] == p.trace[j];
        }
      }
    }
  }

  /** The log lines due in the first `k` iterations of a call, given each iteration's losses. */
  function ScheduledLogs(s: Settings, i0: nat, trace: seq<Losses>, k: nat): seq<LogLine>
    requires s.logStep != 0 && k <= |trace|
  {
    if k == 0 then []
    else ScheduledLogs(s, i0, trace, k - 1)
         + (if LogDue(s.logStep, i0 + k) then [LogLine(i0 + k, s.numIters, LogValues(s.lambdaCd, trace[k - 1]))] else [])
  }

  lemma {:induction false} ScheduledLogsPrefix(s: Settings, i0: nat, trace: seq<Losses>, more: seq<Losses>, k: nat)
    requires s.logStep != 0 && k <= |trace|
    ensures ScheduledLogs(s, i0, trace + more, k) == ScheduledLogs(s, i0, trace, k)
  {
    if k > 0 {
      ScheduledLogsPrefix(s, i0, trace, more, k - 1);
      assert (trace + more)[k - 1] == trace[k - 1];
    }
  }

  /** `line` is the log line of an iteration `m` in `(init_iter, init_iter + k]` divisible by `log_step`, reporting that iteration's own values. */
  predicate IsScheduledLine(s: Settings, i0: nat, trace: seq<Losses>, k: nat, line: LogLine)
    requires s.logStep != 0 && k <= |trace|
  {
    && i0 < line.iteration <= i0 + k
    && LogDue(s.logStep, line.iteration)
    && line == LogLine(line.iteration, s.numIters, LogValues(s.lambdaCd, trace[line.iteration - i0 - 1]))
  }

  /** Every scheduled line is one of an iteration due for logging. */
  lemma {:induction false} ScheduledLogsSound(s: Settings, i0: nat, trace: seq<Losses>, k: nat)
    requires s.logStep != 0 && k <= |trace|
    ensures forall idx :: 0 <= idx < |ScheduledLogs(s, i0, trace, k)| ==>
      IsScheduledLine(s, i0, trace, k, ScheduledLogs(s, i0, trace, k)[idx])
  {
    if k > 0 {
      ScheduledLogsSound(s, i0, trace, k - 1);
      var p := ScheduledLogs(s, i0, trace, k - 1);
      var logs := ScheduledLogs(s, i0, trace, k);
      var line := LogLine(i0 + k, s.numIters, LogValues(s.lambdaCd, trace[k - 1]));
      assert logs == p + (if LogDue(s.logStep, i0 + k) then [line] else []);
      forall idx | 0 <= idx < |logs|
        ensures IsScheduledLine(s, i0, trace, k, logs[idx])
      {
        if idx < |p| {
          assert logs[idx] == p[idx];
          assert IsScheduledLine(s, i0, trace, k - 1, p[idx]);
        } else {
          assert logs[idx] == line;
        }
      }
    }
  }

  /** Some line of `logs` is for iteration `m`. */
  predicate LoggedAt(logs: seq<LogLine>, m: int)
  {
    exists idx :: 0 <= idx < |logs| && logs[idx].iteration == m
  }

  /** Every iteration `m` in `(init_iter, init_iter + k]` divisible by `log_step` has a scheduled line. */
  lemma {:induction false} ScheduledLogsComplete(s: Settings, i0: nat, trace: seq<Losses>, k: nat)
    requires s.logStep != 0 && k <= |trace|
    ensures forall m :: i0 < m <= i0 + k && LogDue(s.logStep, m) ==> LoggedAt(ScheduledLogs(s, i0, trace, k), m)
  {
    if k > 0 {
      ScheduledLogsComplete(s, i0, trace, k - 1);
      var p := ScheduledLogs(s, i0, trace, k - 1);
      var logs := ScheduledLogs(s, i0, trace, k);
      var line := LogLine(i0 + k, s.numIters, LogValues(s.lambdaCd, trace[k - 1]));
      assert logs == p + (if LogDue(s.logStep, i0 + k) then [line] else []);
      forall m | i0 < m <= i0 + k && LogDue(s.logStep, m)
        ensures LoggedAt(logs, m)
      {
        if m == i0 + k {
          assert logs[|p|] == line;
        } else {
          assert LoggedAt(p, m);
          var idx :| 0 <= idx < |p| && p[idx].iteration == m;
          assert logs[idx] == p[idx];
        }
      }
    }
  }

  /** The scheduled lines appear in increasing iteration order. */
  lemma {:induction false} ScheduledLogsIncreasing(s: Settings, i0: nat, trace: seq<Losses>, k: nat)
    requires s.logStep != 0 && k <= |trace|
    ensures forall a, b :: 0 <= a < b < |ScheduledLogs(s, i0, trace, k)| ==>
      ScheduledLogs(s, i0, trace, k)[a].iteration < ScheduledLogs(s, i0, trace, k)[b].iteration
  {
    if k > 0 {
      ScheduledLogsIncreasing(s, i0, trace, k - 1);
      ScheduledLogsSound(s, i0, trace, k - 1);
      var p := ScheduledLogs(s, i0, trace, k - 1);
      var logs := ScheduledLogs(s, i0, trace, k);
      var line := LogLine(i0 + k, s.numIters, LogValues(s.lambdaCd, trace[k - 1]));
      assert logs == p + (if LogDue(s.logStep, i0 + k) then [line] else []);
      forall a, b | 0 <= a < b < |logs|
        ensures logs[a].iteration < logs[b].iteration
      {
        assert logs[a] == p[a];
        assert IsScheduledLine(s, i0, trace, k - 1, p[a]);
        if b < |p| {
          assert logs[b] == p[b];
        } else {
          assert logs[b] == line;
        }
      }
    }
  }

  /** The log lines a call prints are the scheduled ones. */
  lemma {:induction false} RunLogs(s: Settings, env: Env, i0: nat, st0: RunState, k: nat)
    requires st0.trace == [] && s.logStep != 0
    requires Ran(s, env, i0, st0, k)
    ensures var r := Run(s, env, i0, st0, k).0;
      |r.trace| == k && r.logs == st0.logs + ScheduledLogs(s, i0, r.trace, k)
  {
    if k > 0 {
      RanBefore(s, env, i0, st0, k);
      IterationEffect(s, env, i0, st0, k - 1);
      RunLogs(s, env, i0, st0, k - 1);
      var p := Run(s, env, i0, st0, k - 1).0;
      var r := Run(s, env, i0, st0, k).0;
      ScheduledLogsPrefix(s, i0, p.trace, [r.trace[k - 1]], k - 1);
      assert r.trace == p.trace + [r.trace[k - 1]];
    }
  }

  /** The paths of the periodic checkpoints the iterations that end at `lo + 1 .. hi` write. */
  function PeriodicPaths(s: Settings, lo: nat, hi: nat): set<string>
  {
    set m | lo < m <= hi && SaveDue(s.savingPace, m) :: CheckpointPath(s.savingPrefix, m)
  }

  /** A call that ran its first `j` iterations ran each shorter prefix too. */
  lemma {:induction false} RanPrefix(s: Settings, env: Env, i0: nat, st0: RunState, j: nat, k: nat)
    requires j <= k && Ran(s, env, i0, st0, k)
    ensures Ran(s, env, i0, st0, j)
    decreases k
  {
    if j < k {
      RanBefore(s, env, i0, st0, k);
      RanPrefix(s, env, i0, st0, j, k - 1);
    }
  }

  /** Iteration `j - 1` of a call, when `(init_iter + j) % saving_pace == 0`, saves the state it ends in. */
  lemma RunSavesCheckpoint(s: Settings, env: Env, i0: nat, st0: RunState, j: nat)
    requires 0 < j && Ran(s, env, i0, st0, j) && SaveDue(s.savingPace, i0 + j)
    ensures CheckpointPath(s.savingPrefix, i0 + j) in Run(s, env, i0, st0, j).0.files
    ensures Run(s, env, i0, st0, j).0.files[CheckpointPath(s.savingPrefix, i0 + j)]
         == TrainableBundle(s.hparams, Run(s, env, i0, st0, j).0.g, Run(s, env, i0, st0, j).0.opt, Run(s, env, i0, st0, j).0.loss)
    ensures CheckpointDir in Run(s, env, i0, st0, j).0.dirs
  {
    RanBefore(s, env, i0, st0, j);
    IterationEffect(s, env, i0, st0, j - 1);
  }

  /**
   * Between its `j`-th and `k`-th iteration a call adds, removes and changes no file but the
   * periodic checkpoints of those iterations, and creates no directory but `./trained_models`.
   */
  lemma {:induction false} RunKeepsOtherFiles(s: Settings, env: Env, i0: nat, st0: RunState, j: nat, k: nat, path: string)
    requires j <= k && Ran(s, env, i0, st0, k)
    requires path !in PeriodicPaths(s, i0 + j, i0 + k)
    ensures path in Run(s, env, i0, st0, k).0.files <==> path in Run(s, env, i0, st0, j).0.files
    ensures path in Run(s, env, i0, st0, j).0.files ==> Run(s, env, i0, st0, k).0.files[path] == Run(s, env, i0, st0, j).0.files[path]
    ensures Run(s, env, i0, st0, j).0.dirs <= Run(s, env, i0, st0, k).0.dirs <= Run(s, env, i0, st0, j).0.dirs + {CheckpointDir}
    decreases k
  {
    if j < k {
      RanBefore(s, env, i0, st0, k);
      IterationEffect(s, env, i0, st0, k - 1);
      assert path != CheckpointPath(s.savingPrefix, i0 + k) || !SaveDue(s.savingPace, i0 + k);
      RunKeepsOtherFiles(s, env, i0, st0, j, k - 1, path);
    }
  }

  /**
   * Periodic checkpoints: iteration `i` with `saving_pace != 0` and `(i+1) % saving_pace == 0`
   * leaves `autovc_<prefix>_<i+1>` holding the hyperparameters, the weights and optimizer state
   * after that iteration and the history up to it, and later iterations do not overwrite it.
   */
  lemma RunCheckpoints(s: Settings, env: Env, i0: nat, st0: RunState, k: nat, j: nat)
    requires Ran(s, env, i0, st0, k)
    requires 0 < j <= k && SaveDue(s.savingPace, i0 + j)
    ensures CheckpointPath(s.savingPrefix, i0 + j) in Run(s, env, i0, st0, k).0.files
    ensures Run(s, env, i0, st0, k).0.files[CheckpointPath(s.savingPrefix, i0 + j)]
         == TrainableBundle(s.hparams, Run(s, env, i0, st0, j).0.g, Run(s, env, i0, st0, j).0.opt, Run(s, env, i0, st0, j).0.loss)
    ensures CheckpointDir in Run(s, env, i0, st0, k).0.dirs
  {
    var path := CheckpointPath(s.savingPrefix, i0 + j);
    RanPrefix(s, env, i0, st0, j, k);
    RunSavesCheckpoint(s, env, i0, st0, j);
    forall m | i0 + j < m <= i0 + k && SaveDue(s.savingPace, m)
      ensures CheckpointPath(s.savingPrefix, m) != path
    {
      if CheckpointPath(s.savingPrefix, m) == path {
        CheckpointPathInjective(s.savingPrefix, m, i0 + j);
      }
    }
    RunKeepsOtherFiles(s, env, i0, st0, j, k, path);
  }

  /**
   * Every periodic checkpoint can be resumed from: a solver of the same architecture restores
   * that iteration's weights, optimizer and history, and its `init_iter` becomes `i + 1`.
   */
  lemma ResumeFromPeriodicCheckpoint(s: Settings, env: Env, i0: nat, st0: RunState, k: nat, m: nat)
    requires st0.trace == [] && |st0.loss| == i0 && st0.g.shape == ShapeOf(s.hparams)
    requires Ran(s, env, i0, st0, k)
    requires i0 < m <= i0 + k && SaveDue(s.savingPace, m)
    ensures Resume(Run(s, env, i0, st0, k).0.files, Run(s, env, i0, st0, k).0.dirs,
                   CheckpointPath(s.savingPrefix, m), ShapeOf(s.hparams))
         == Success(Resumed(Run(s, env, i0, st0, m - i0).0.g, Run(s, env, i0, st0, m - i0).0.opt,
                            Run(s, env, i0, st0, m - i0).0.loss, m))
  {
    var r := Run(s, env, i0, st0, k).0;
    var after := Run(s, env, i0, st0, m - i0).0;
    var path := CheckpointPath(s.savingPrefix, m);
    RunCheckpoints(s, env, i0, st0, k, m - i0);
    assert path in r.files && r.files[path] == TrainableBundle(s.hparams, after.g, after.opt, after.loss);
    RanIff(s, env, i0, st0, k);
    RanIff(s, env, i0, st0, m - i0);
    RunAppendsHistory(s, env, i0, st0, m - i0);
    assert |after.loss| == m && after.g.shape == ShapeOf(s.hparams);
    assert r.files == r.files[path := TrainableBundle(s.hparams, after.g, after.opt, after.loss)];
    SaveThenResume(r.files, r.dirs, path, s.hparams, after.g, after.opt, after.loss);
  }

  /**
   * An interrupt at the start of iteration `k` ends the call: with autosave the current state is
   * saved to `autovc_autosave.ckpt` and "autosave done." is raised; without, nothing is written and
   * "no autosave." is raised. No later iteration runs.
   */
  lemma InterruptContract(s: Settings, env: Env, i0: nat, st0: RunState, k: nat, n: nat)
    requires Ran(s, env, i0, st0, k)
    requires env.interrupt == Some(k) && k < n
    ensures var r := Run(s, env, i0, st0, k).0;
      Run(s, env, i0, st0, n) ==
        if s.autosave then
          (r.(files := r.files[AutosavePath := TrainableBundle(s.hparams, r.g, r.opt, r.loss)]), Some(AutosaveDone))
        else (r, Some(NoAutosave))
  {
    RunHalts(s, env, i0, st0, k + 1, n);
  }

  /** The solver: configuration constants, and the model, optimizer and history it mutates. */
  class Solver {
    const lambdaCd: real
    const dimNeck: int
    const dimEmb: int
    const dimPre: int
    const freq: int
    const initModel: string
    const batchSize: int
    const numIters: int
    const autosave: bool
    const savingPace: int
    const savingPrefix: string
    const learningRate: real
    const logStep: int

    var G: Weights
    var gOptimizer: OptState
    var loss: seq<real>
    var initIter: nat

    /** The `hyperparams` record the solver saves. */
    function HyperParams(): HParams
    {
      HParams(dimNeck, dimEmb, dimPre, freq)
    }

    function LoopSettings(): Settings
    {
      Settings(lambdaCd, HyperParams(), numIters, autosave, savingPace, savingPrefix, logStep)
    }

    /** The Generator's weights always fit the architecture the solver was built with. */
    ghost predicate Valid()
      reads this
    {
      G.shape == ShapeOf(HyperParams())
    }

    /**
     * `__init__` up to and including `build_model`: a fresh Generator `g0` and its Adam optimizer
     * `opt0`, an empty history and `init_iter = 0`.
     */
    constructor (config: Config, g0: Weights, opt0: OptState)
      requires g0.shape == Shape(config.dimNeck, config.dimEmb, config.dimPre)
      ensures Valid()
      ensures lambdaCd == config.lambdaCd && dimNeck == config.dimNeck && dimEmb == config.dimEmb
      ensures dimPre == config.dimPre && freq == config.freq && initModel == config.initModel
      ensures batchSize == config.batchSize && numIters == config.numIters
      ensures autosave == (config.checkpointMode == "autosave")
      ensures savingPace == config.saveEveryNIter && savingPrefix == config.savePath
      ensures learningRate == config.learningRate && logStep == config.logStep
      ensures G == g0 && gOptimizer == opt0 && loss == [] && initIter == 0
    {
      lambdaCd := config.lambdaCd;
      dimNeck := config.dimNeck;
      dimEmb := config.dimEmb;
      dimPre := config.dimPre;
      freq := config.freq;
      initModel := config.initModel;
      batchSize := config.batchSize;
      numIters := config.numIters;
      autosave := config.checkpointMode == "autosave";
      savingPace := config.saveEveryNIter;
      savingPrefix := config.savePath;
      learningRate := config.learningRate;
      logStep := config.logStep;
      G := g0;
      gOptimizer := opt0;
      loss := [];
      initIter := 0;
    }

    /** `save_model`: weights and hyperparameters only. */
    method SaveModel(store: CheckpointStore, path: string)
      modifies store
      ensures store.files == old(store.files)[path := ModelBundle(HyperParams(), G)]
      ensures store.dirs == old(store.dirs)
    {
      store.Save(path, ModelBundle(HyperParams(), G));
    }

    /** `save_trainable_model`: hyperparameters, weights, optimizer state and the whole history. */
    method SaveTrainableModel(store: CheckpointStore, path: string)
      modifies store
      ensures store.files == old(store.files)[path := TrainableBundle(HyperParams(), G, gOptimizer, loss)]
      ensures store.dirs == old(store.dirs)
    {
      store.Save(path, TrainableBundle(HyperParams(), G, gOptimizer, loss));
    }

    /**
     * The save step of the loop body: `os.mkdir('trained_models')` unless that name exists, then
     * `save_trainable_model(path)`, whose `torch.save` raises when `trained_models` is a regular file.
     */
    method SaveCheckpoint(store: CheckpointStore, path: string) returns (raised: Option<string>)
      modifies store
      ensures raised == if IsRegularFile(old(store.files), old(store.dirs), CheckpointDir) then Some(NotADirectory(path)) else None
      ensures store.dirs == if raised.Some? then old(store.dirs) else old(store.dirs) + {CheckpointDir}
      ensures store.files == if raised.Some? then old(store.files)
                             else old(store.files)[path := TrainableBundle(HyperParams(), G, gOptimizer, loss)]
    {
      store.EnsureDir(CheckpointDir);
      if CheckpointDir !in store.dirs {
        // `torch.save` cannot open a path whose parent is a regular file
        return Some(NotADirectory(path));
      }
      SaveTrainableModel(store, path);
      raised := None;
    }

    /**
     * `load_trainable_model`: reads `init_model` (its `path` argument is ignored). On success the
     * weights, optimizer and history are replaced and `init_iter` is the history length; on failure
     * the message is returned, and whatever `load_state_dict` calls already ran stay applied.
     */
    method LoadTrainableModel(store: CheckpointStore, path: string) returns (error: Option<string>)
      requires Valid()
      modifies this
      ensures Valid()
      ensures var r := Resume(store.files, store.dirs, initModel, ShapeOf(HyperParams()));
        && (r.Success? ==> error.None? && G == r.value.g && gOptimizer == r.value.opt
                           && loss == r.value.loss && initIter == r.value.initIter)
        && (r.Failure? ==> error == Some(r.error) && loss == old(loss) && initIter == old(initIter)
                           && (G, gOptimizer) == AfterLoadAttempt(store.files, initModel, ShapeOf(HyperParams()), old(G), old(gOptimizer)))
    {
      var shape := ShapeOf(HyperParams());
      if initModel !in store.files && initModel !in store.dirs {
        return Some(IncorrectPathMessage(initModel));
      }
      if initModel !in store.files {
        return Some(CouldNotLoadMessage(initModel));
      }
      var checkpoint := store.files[initModel];
      if !checkpoint.Bundle? || checkpoint.gState.None? || checkpoint.gState.value.shape != shape {
        return Some(CouldNotLoadMessage(initModel));
      }
      G := checkpoint.gState.value;
      if checkpoint.optimizer.None? {
        return Some(CouldNotLoadMessage(initModel));
      }
      gOptimizer := checkpoint.optimizer.value;
      if checkpoint.gLoss.None? {
        return Some(CouldNotLoadMessage(initModel));
      }
      loss := checkpoint.gLoss.value;
      initIter := |loss|;
      return None;
    }

    /**
     * One pass of `train`'s loop body, iteration `k` of the call (global index `init_iter + k`):
     * the new state and the message of the exception it raises, as `Iteration` prescribes.
     */
    method Iterate(store: CheckpointStore, env: Env, k: nat, cursor0: Cursor, logs0: seq<LogLine>,
                   ghost st0: RunState, ghost trace0: seq<Losses>)
      returns (raised: Option<string>, cursor: Cursor, logs: seq<LogLine>, ghost trace: seq<Losses>)
      requires Valid()
      requires Run(LoopSettings(), env, initIter, st0, k).0
            == RunState(G, gOptimizer, loss, cursor0, logs0, store.files, store.dirs, trace0)
      modifies this, store
      ensures Valid() && initIter == old(initIter)
      ensures Iteration(LoopSettings(), env, initIter, st0, k)
           == (RunState(G, gOptimizer, loss, cursor, logs, store.files, store.dirs, trace), raised)
    {
      cursor, logs, trace := cursor0, logs0, trace0;
      var i := initIter + k;
      if env.interrupt == Some(k) {
        if autosave {
          SaveTrainableModel(store, AutosavePath);
          return Some(AutosaveDone), cursor, logs, trace;
        }
        return Some(NoAutosave), cursor, logs, trace;
      }
      // `next(data_iter)`, restarting the iterator once it is exhausted or was never created
      var next := Fetch(cursor, env.loader);
      if next.None? {
        return Some(StopIteration), cursor, logs, trace;
      }
      var batch;
      batch, cursor := next.value.0, next.value.1;
      var t := env.forward(G, batch);
      var gLoss := TotalLoss(lambdaCd, t);
      loss := loss + [gLoss];
      trace := trace + [t];
      var (values, opt) := env.step(G, gOptimizer, batch);
      G := Weights(G.shape, values);
      gOptimizer := opt;
      if logStep == 0 {
        return Some(ModuloByZero), cursor, logs, trace;
      }
      if (i + 1) % logStep == 0 {
        logs := logs + [LogLine(i + 1, numIters, LogValues(lambdaCd, t))];
      }
      if savingPace != 0 && (i + 1) % savingPace == 0 {
        raised := SaveCheckpoint(store, CheckpointPath(savingPrefix, i + 1));
        if raised.Some? {
          return raised, cursor, logs, trace;
        }
      }
      raised := None;
    }

    /**
     * `train`: runs `i` over `range(init_iter, init_iter + num_iters)` and ends in the state, log
     * lines and exception that `Run` prescribes.
     */
    method Train(store: CheckpointStore, env: Env) returns (outcome: Outcome, logs: seq<LogLine>)
      requires Valid()
      modifies this, store
      ensures Valid() && initIter == old(initIter)
      ensures var (st, e) := Run(LoopSettings(), env, initIter,
                                 RunStart(old(G), old(gOptimizer), old(loss), old(store.files), old(store.dirs)),
                                 IterationCount(numIters));
        && G == st.g && gOptimizer == st.opt && loss == st.loss && logs == st.logs
        && store.files == st.files && store.dirs == st.dirs
        && outcome == if e.None? then Completed else Raised(e.value)
    {
      ghost var st0 := RunStart(G, gOptimizer, loss, store.files, store.dirs);
      ghost var trace: seq<Losses> := [];
      var n := IterationCount(numIters);
      var dataIter := Unbound;
      logs := [];
      var k := 0;
      while k < n
        invariant 0 <= k <= n
        invariant Valid() && initIter == old(initIter)
        invariant Run(LoopSettings(), env, initIter, st0, k)
               == (RunState(G, gOptimizer, loss, dataIter, logs, store.files, store.dirs, trace), None)
      {
        var raised;
        raised, dataIter, logs, trace := Iterate(store, env, k, dataIter, logs, st0, trace);
        if raised.Some? {
          RunHalts(LoopSettings(), env, initIter, st0, k + 1, n);
          return Raised(raised.value), logs;
        }
        k := k + 1;
      }
      outcome := Completed;
    }
  }

  /**
   * `Solver(vcc_loader, config)`: builds the solver and, when `init_model` is non-empty, resumes
   * from it; an exception there means no solver is created.
   */
  method NewSolver(config: Config, store: CheckpointStore, g0: Weights, opt0: OptState) returns (r: Result<Solver, string>)
    requires g0.shape == Shape(config.dimNeck, config.dimEmb, config.dimPre)
    ensures r.Success? ==> fresh(r.value) && r.value.Valid() && r.value.initModel == config.initModel
    ensures config.initModel == "" ==> r.Success? && r.value.G == g0 && r.value.gOptimizer == opt0
                                       && r.value.loss == [] && r.value.initIter == 0
    ensures config.initModel != "" ==>
      var res := Resume(store.files, store.dirs, config.initModel,
                        Shape(config.dimNeck, config.dimEmb, config.dimPre));
      && (r.Success? <==> res.Success?)
      && (r.Success? ==> r.value.G == res.value.g && r.value.gOptimizer == res.value.opt
                         && r.value.loss == res.value.loss && r.value.initIter == res.value.initIter)
      && (r.Failure? ==> r.error == res.error)
  {
    var solver := new Solver(config, g0, opt0);
    if solver.initModel != "" {
      var error := solver.LoadTrainableModel(store, solver.initModel);
      if error.Some? {
        return Failure(error.value);
      }
    }
    return Success(solver);
  }
}
