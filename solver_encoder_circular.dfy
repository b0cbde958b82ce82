/**
 * The circular-mapping training solver (`Solver` in solver_encoder_circular.py). It shares
 * construction, resume and the save formats with the identity solver; its `train` loop fetches
 * `(x_real, emb_org, emb_target)` triples, adds an optional speaker-style term to the total loss
 * and keeps running sums of every loss term, printed divided by `log_step` and reset after each
 * log line. `Run` is the loop's specification; `Solver.Train` is proved to follow it.
 */
module CircularSolver {
  import opened Wrappers
  import opened Checkpoints
  import opened Schedule
  import opened Arith

  /** The attributes of `config` that `Solver.__init__` reads. */
  datatype Config = Config(
    lambdaCd: real, dimNeck: int, dimEmb: int, dimPre: int, freq: int,
    initModel: string, batchSize: int, numIters: int, checkpointMode: string,
    saveEveryNIter: int, savePath: string, learningRate: real, useSpeakerLoss: bool, logStep: int)

  /** One element of the data loader: `(x_real, emb_org, emb_target)`. */
  datatype Triple = Triple(features: seq<seq<real>>, embOrg: seq<real>, embTarget: seq<real>)

  /**
   * The `.item()` values of one step's loss terms: `g_loss_id`, `g_loss_id_psnt`, `g_loss_cd`,
   * and the L1 distance between the speaker embedding of the converted utterance and
   * `emb_target`, which the loop only uses when `use_speaker_loss` is set.
   */
  datatype Losses = Losses(id: real, idPsnt: real, cd: real, style: real)

  /**
   * What one `train` call is run against: the loader's triples, the two chained Generator
   * passes and the speaker embedder with their losses, backward plus the Adam step, and the
   * call-relative iteration at whose start a KeyboardInterrupt arrives, if any.
   */
  datatype Env = Env(
    loader: seq<Triple>,
    forward: (Weights, Triple) -> Losses,
    step: (Weights, OptState, Triple) -> (seq<real>, OptState),
    interrupt: Option<nat>)

  /** The solver attributes the loop reads. */
  datatype Settings = Settings(
    lambdaCd: real, hparams: HParams, numIters: int, autosave: bool,
    savingPace: int, savingPrefix: string, useSpeakerLoss: bool, logStep: int)

  const LossTag := "G/loss"
  const IdTag := "G/loss_id"
  const IdPsntTag := "G/loss_id_psnt"
  const CdTag := "G/loss_cd"
  const StyleTag := "G/loss_tgt_style"

  /** The five running sums the loop keeps, whichever of them it prints. */
  const AllTags := [LossTag, IdTag, IdPsntTag, CdTag, StyleTag]

  /** `g_loss_target_style`: the style distance when `use_speaker_loss` is set, otherwise 0. */
  function StyleTerm(useSpeakerLoss: bool, t: Losses): (r: real)
    ensures !useSpeakerLoss ==> r == 0.0
    ensures useSpeakerLoss ==> r == t.style
  {
    if useSpeakerLoss then t.style else 0.0
  }

  /** `g_loss = g_loss_id + g_loss_id_psnt + g_loss_target_style + lambda_cd * g_loss_cd`. */
  function TotalLoss(lambdaCd: real, useSpeakerLoss: bool, t: Losses): real
  {
    t.id + t.idPsnt + StyleTerm(useSpeakerLoss, t) + lambdaCd * t.cd
  }

  /** The value of one iteration that the running sum `tag` adds up. */
  function TagValue(lambdaCd: real, useSpeakerLoss: bool, t: Losses, tag: string): real
  {
    if tag == LossTag then TotalLoss(lambdaCd, useSpeakerLoss, t)
    else if tag == IdTag then t.id
    else if tag == IdPsntTag then t.idPsnt
    else if tag == CdTag then t.cd
    else if tag == StyleTag then StyleTerm(useSpeakerLoss, t)
    else 0.0
  }

  /** `loss.get(tag, 0)`. */
  function Get(acc: map<string, real>, tag: string): real
  {
    if tag in acc then acc[tag] else 0.0
  }

  /** `loss[tag] = value + loss.get(tag, 0)` for each tag of `tags` in turn. */
  function AccumulateTags(acc: map<string, real>, lambdaCd: real, useSpeakerLoss: bool, t: Losses, tags: seq<string>): map<string, real>
    decreases |tags|
  {
    if |tags| == 0 then acc
    else AccumulateTags(acc[tags[0] := TagValue(lambdaCd, useSpeakerLoss, t, tags[0]) + Get(acc, tags[0])],
                        lambdaCd, useSpeakerLoss, t, tags[1..])
  }

  /** The five accumulating statements of one iteration, in the order the loop runs them. */
  function Accumulate(acc: map<string, real>, lambdaCd: real, useSpeakerLoss: bool, t: Losses): (r: map<string, real>)
    ensures forall tag :: tag in AllTags ==> tag in r
  {
    AccumulateTagsAdds(acc, lambdaCd, useSpeakerLoss, t, AllTags);
    AccumulateTags(acc, lambdaCd, useSpeakerLoss, t, AllTags)
  }

  lemma {:induction false} AccumulateTagsAdds(acc: map<string, real>, lambdaCd: real, useSpeakerLoss: bool, t: Losses, tags: seq<string>)
    requires forall a, b :: 0 <= a < b < |tags| ==> tags[a] != tags[b]
    ensures forall tag :: tag in AccumulateTags(acc, lambdaCd, useSpeakerLoss, t, tags) <==> tag in acc || tag in tags
    ensures forall tag :: tag in tags ==>
      AccumulateTags(acc, lambdaCd, useSpeakerLoss, t, tags)[tag] == TagValue(lambdaCd, useSpeakerLoss, t, tag) + Get(acc, tag)
    ensures forall tag :: tag in acc && tag !in tags ==> AccumulateTags(acc, lambdaCd, useSpeakerLoss, t, tags)[tag] == acc[tag]
    decreases |tags|
  {
    if |tags| > 0 {
      var tag0 := tags[0];
      var acc1 := acc[tag0 := TagValue(lambdaCd, useSpeakerLoss, t, tag0) + Get(acc, tag0)];
      AccumulateTagsAdds(acc1, lambdaCd, useSpeakerLoss, t, tags[1..]);
      assert tag0 !in tags[1..];
      forall tag | tag in tags[1..]
        ensures Get(acc1, tag) == Get(acc, tag)
      {
      }
      assert forall tag :: tag in tags <==> tag == tag0 || tag in tags[1..];
    }
  }

  /** Every running sum grows by that iteration's value, starting from 0 when absent; nothing else is added. */
  lemma AccumulateAdds(acc: map<string, real>, lambdaCd: real, useSpeakerLoss: bool, t: Losses)
    ensures forall tag :: tag in Accumulate(acc, lambdaCd, useSpeakerLoss, t) <==> tag in acc || tag in AllTags
    ensures forall tag :: tag in AllTags ==>
      Accumulate(acc, lambdaCd, useSpeakerLoss, t)[tag] == TagValue(lambdaCd, useSpeakerLoss, t, tag) + Get(acc, tag)
  {
    AccumulateTagsAdds(acc, lambdaCd, useSpeakerLoss, t, AllTags);
  }

  /** The five statements written out one by one. */
  lemma AccumulateUnfolds(acc: map<string, real>, lambdaCd: real, useSpeakerLoss: bool, t: Losses)
    ensures var a1 := acc[LossTag := TotalLoss(lambdaCd, useSpeakerLoss, t) + Get(acc, LossTag)];
      var a2 := a1[IdTag := t.id + Get(a1, IdTag)];
      var a3 := a2[IdPsntTag := t.idPsnt + Get(a2, IdPsntTag)];
      var a4 := a3[CdTag := t.cd + Get(a3, CdTag)];
      Accumulate(acc, lambdaCd, useSpeakerLoss, t) == a4[StyleTag := StyleTerm(useSpeakerLoss, t) + Get(a4, StyleTag)]
  {
    var a1 := acc[LossTag := TotalLoss(lambdaCd, useSpeakerLoss, t) + Get(acc, LossTag)];
    var a2 := a1[IdTag := t.id + Get(a1, IdTag)];
    var a3 := a2[IdPsntTag := t.idPsnt + Get(a2, IdPsntTag)];
    var a4 := a3[CdTag := t.cd + Get(a3, CdTag)];
    assert AllTags[1..] == [IdTag, IdPsntTag, CdTag, StyleTag];
    assert AccumulateTags(acc, lambdaCd, useSpeakerLoss, t, AllTags) == AccumulateTags(a1, lambdaCd, useSpeakerLoss, t, [IdTag, IdPsntTag, CdTag, StyleTag]);
    assert [IdTag, IdPsntTag, CdTag, StyleTag][1..] == [IdPsntTag, CdTag, StyleTag];
    assert AccumulateTags(a1, lambdaCd, useSpeakerLoss, t, [IdTag, IdPsntTag, CdTag, StyleTag]) == AccumulateTags(a2, lambdaCd, useSpeakerLoss, t, [IdPsntTag, CdTag, StyleTag]);
    assert [IdPsntTag, CdTag, StyleTag][1..] == [CdTag, StyleTag];
    assert AccumulateTags(a2, lambdaCd, useSpeakerLoss, t, [IdPsntTag, CdTag, StyleTag]) == AccumulateTags(a3, lambdaCd, useSpeakerLoss, t, [CdTag, StyleTag]);
    assert [CdTag, StyleTag][1..] == [StyleTag];
    assert AccumulateTags(a3, lambdaCd, useSpeakerLoss, t, [CdTag, StyleTag]) == AccumulateTags(a4, lambdaCd, useSpeakerLoss, t, [StyleTag]);
    assert [StyleTag][1..] == [];
    var a5 := a4[StyleTag := StyleTerm(useSpeakerLoss, t) + Get(a4, StyleTag)];
    assert AccumulateTags(a4, lambdaCd, useSpeakerLoss, t, [StyleTag]) == AccumulateTags(a5, lambdaCd, useSpeakerLoss, t, []);
  }

  /** The five `loss[tag] = value + loss.get(tag, 0)` statements of one iteration. */
  method AddLosses(acc0: map<string, real>, lambdaCd: real, useSpeakerLoss: bool, t: Losses) returns (acc: map<string, real>)
    ensures acc == Accumulate(acc0, lambdaCd, useSpeakerLoss, t)
  {
    acc := acc0;
    acc := acc[LossTag := TotalLoss(lambdaCd, useSpeakerLoss, t) + Get(acc, LossTag)];
    acc := acc[IdTag := t.id + Get(acc, IdTag)];
    acc := acc[IdPsntTag := t.idPsnt + Get(acc, IdPsntTag)];
    acc := acc[CdTag := t.cd + Get(acc, CdTag)];
    acc := acc[StyleTag := StyleTerm(useSpeakerLoss, t) + Get(acc, StyleTag)];
    AccumulateUnfolds(acc0, lambdaCd, useSpeakerLoss, t);
  }

  /** `keys`: the four identity-solver tags, then `G/loss_tgt_style` only when `use_speaker_loss` is set. */
  function Keys(useSpeakerLoss: bool): (keys: seq<string>)
    ensures |keys| == if useSpeakerLoss then 5 else 4
    ensures keys[..4] == [LossTag, IdTag, IdPsntTag, CdTag]
    ensures StyleTag in keys <==> useSpeakerLoss
    ensures forall tag :: tag in keys ==> tag in AllTags
  {
    [LossTag, IdTag, IdPsntTag, CdTag] + (if useSpeakerLoss then [StyleTag] else [])
  }

  /**
   * The values of one log line: `loss[tag] / log_step` for every tag of `keys`, in order. Every
   * tag is set in the same iteration before the line is built, so `loss[tag]` never raises
   * `KeyError`; the function reads the dict with `Get`, and `LogValuesAt` shows that this is
   * `loss[tag]` whenever every tag is present.
   */
  function LogValues(keys: seq<string>, acc: map<string, real>, logStep: int): (values: seq<(string, real)>)
    requires logStep != 0
    ensures |values| == |keys|
  {
    if |keys| == 0 then []
    else [(keys[0], Get(acc, keys[0]) / (logStep as real))] + LogValues(keys[1..], acc, logStep)
  }

  /** Entry `j` of a log line is tag `keys[j]` with its running sum divided by `log_step`. */
  lemma {:induction false} LogValuesAt(keys: seq<string>, acc: map<string, real>, logStep: int)
    requires logStep != 0
    requires forall tag :: tag in keys ==> tag in acc
    ensures forall j :: 0 <= j < |keys| ==> LogValues(keys, acc, logStep)[j] == (keys[j], acc[keys[j]] / (logStep as real))
  {
    if |keys| > 0 {
      LogValuesAt(keys[1..], acc, logStep);
    }
  }

  /**
   * The state the loop changes: weights, optimizer, history, loader cursor, the running sums,
   * printed log lines, the store's files and directories, and (for the proofs) the losses of
   * each iteration so far.
   */
  datatype RunState = RunState(
    g: Weights, opt: OptState, loss: seq<real>, cursor: Cursor, acc: map<string, real>,
    logs: seq<LogLine>, files: map<string, Checkpoint>, dirs: set<string>, trace: seq<Losses>)

  /** The state at the start of a `train` call: no iterator yet and `loss = {}`. */
  function RunStart(g: Weights, opt: OptState, loss: seq<real>, files: map<string, Checkpoint>, dirs: set<string>): RunState
  {
    RunState(g, opt, loss, Unbound, map[], [], files, dirs, [])
  }

  /** The losses the forward pass reports for the triple the next iteration fetches. */
  function StepLosses(env: Env, st: RunState): Losses
    requires Fetch(st.cursor, env.loader).Some?
  {
    env.forward(st.g, Fetch(st.cursor, env.loader).value.0)
  }

  /**
   * Iteration `k` of a call (global index `i0 + k`): the state after it, and the message of the
   * exception it raises, if any.
   */
  function Iteration(s: Settings, env: Env, i0: nat, st0: RunState, k: nat): (RunState, Option<string>)
    decreases k, 1
  {
    var st := Run(s, env, i0, st0, k).0;
    var i := i0 + k;
    if env.interrupt == Some(k) then
      if s.autosave then
        (st.(files := st.files[AutosavePath := TrainableBundle(s.hparams, st.g, st.opt, st.loss)]), Some(AutosaveDone))
      else (st, Some(NoAutosave))
    else
      match Fetch(st.cursor, env.loader)
      case None => (st, Some(StopIteration))
      case Some((triple, cursor)) =>
        var t := env.forward(st.g, triple);
        var acc := Accumulate(st.acc, s.lambdaCd, s.useSpeakerLoss, t);
        var (values, opt) := env.step(st.g, st.opt, triple);
        var st1 := st.(g := Weights(st.g.shape, values), opt := opt,
                       loss := st.loss + [TotalLoss(s.lambdaCd, s.useSpeakerLoss, t)],
                       cursor := cursor, acc := acc, trace := st.trace + [t]);
        if s.logStep == 0 then (st1, Some(ModuloByZero))
        else Finish(s, i, st1)
  }

  /**
   * The end of the loop body of global iteration `i`, once the step is taken: the log line and
   * the reset of the sums, then the save.
   */
  function Finish(s: Settings, i: nat, st1: RunState): (RunState, Option<string>)
    requires s.logStep != 0
  {
    var st2 := if LogDue(s.logStep, i + 1)
               then st1.(logs := st1.logs + [LogLine(i + 1, s.numIters, LogValues(Keys(s.useSpeakerLoss), st1.acc, s.logStep))],
                         acc := map[])
               else st1;
    if SaveDue(s.savingPace, i + 1) then
      if IsRegularFile(st2.files, st2.dirs, CheckpointDir) then (st2, Some(NotADirectory(CheckpointPath(s.savingPrefix, i + 1))))
      else
        (st2.(dirs := st2.dirs + {CheckpointDir},
              files := st2.files[CheckpointPath(s.savingPrefix, i + 1) := TrainableBundle(s.hparams, st2.g, st2.opt, st2.loss)]),
         None)
    else (st2, None)
  }

  /** The first `k` iterations of a call, stopping at the first exception. */
  function Run(s: Settings, env: Env, i0: nat, st0: RunState, k: nat): (RunState, Option<string>)
    decreases k, 0
  {
    if k == 0 then (st0, None)
    else if Run(s, env, i0, st0, k - 1).1.Some? then Run(s, env, i0, st0, k - 1)
    else Iteration(s, env, i0, st0, k - 1)
  }

  /** What an iteration that raises nothing does to the model, the history and the cursor. */
  lemma IterationEffect(s: Settings, env: Env, i0: nat, st0: RunState, k: nat)
    requires Iteration(s, env, i0, st0, k).1.None?
    ensures env.interrupt != Some(k) && |env.loader| > 0 && s.logStep != 0
    ensures Iteration(s, env, i0, st0, k).0.cursor == Fetch(Run(s, env, i0, st0, k).0.cursor, env.loader).value.1
    ensures Iteration(s, env, i0, st0, k).0.trace == Run(s, env, i0, st0, k).0.trace + [env.forward(Run(s, env, i0, st0, k).0.g, Fetch(Run(s, env, i0, st0, k).0.cursor, env.loader).value.0)]
    ensures Iteration(s, env, i0, st0, k).0.loss
         == Run(s, env, i0, st0, k).0.loss + [TotalLoss(s.lambdaCd, s.useSpeakerLoss, env.forward(Run(s, env, i0, st0, k).0.g, Fetch(Run(s, env, i0, st0, k).0.cursor, env.loader).value.0))]
    ensures Iteration(s, env, i0, st0, k).0.g == Weights(Run(s, env, i0, st0, k).0.g.shape, env.step(Run(s, env, i0, st0, k).0.g, Run(s, env, i0, st0, k).0.opt, Fetch(Run(s, env, i0, st0, k).0.cursor, env.loader).value.0).0)
    ensures Iteration(s, env, i0, st0, k).0.opt == env.step(Run(s, env, i0, st0, k).0.g, Run(s, env, i0, st0, k).0.opt, Fetch(Run(s, env, i0, st0, k).0.cursor, env.loader).value.0).1
  {
  }

  /** What an iteration that raises nothing does to the running sums and the printed lines. */
  lemma IterationLogEffect(s: Settings, env: Env, i0: nat, st0: RunState, k: nat)
    requires Iteration(s, env, i0, st0, k).1.None?
    ensures env.interrupt != Some(k) && |env.loader| > 0 && s.logStep != 0
    ensures Fetch(Run(s, env, i0, st0, k).0.cursor, env.loader).Some?
    ensures Iteration(s, env, i0, st0, k).0.trace == Run(s, env, i0, st0, k).0.trace + [env.forward(Run(s, env, i0, st0, k).0.g, Fetch(Run(s, env, i0, st0, k).0.cursor, env.loader).value.0)]
    ensures Iteration(s, env, i0, st0, k).0.acc
         == if LogDue(s.logStep, i0 + k + 1) then map[]
            else Accumulate(Run(s, env, i0, st0, k).0.acc, s.lambdaCd, s.useSpeakerLoss, env.forward(Run(s, env, i0, st0, k).0.g, Fetch(Run(s, env, i0, st0, k).0.cursor, env.loader).value.0))
    ensures Iteration(s, env, i0, st0, k).0.logs
         == Run(s, env, i0, st0, k).0.logs + if LogDue(s.logStep, i0 + k + 1)
                      then [LogLine(i0 + k + 1, s.numIters,
                                    LogValues(Keys(s.useSpeakerLoss),
                                              Accumulate(Run(s, env, i0, st0, k).0.acc, s.lambdaCd, s.useSpeakerLoss, env.forward(Run(s, env, i0, st0, k).0.g, Fetch(Run(s, env, i0, st0, k).0.cursor, env.loader).value.0)),
                                              s.logStep))]
                      else []
  {
    var st := Run(s, env, i0, st0, k).0;
    var (triple, cursor) := Fetch(st.cursor, env.loader).value;
    var t := env.forward(st.g, triple);
    var (values, opt) := env.step(st.g, st.opt, triple);
    var st1 := st.(g := Weights(st.g.shape, values), opt := opt,
                   loss := st.loss + [TotalLoss(s.lambdaCd, s.useSpeakerLoss, t)],
                   cursor := cursor, acc := Accumulate(st.acc, s.lambdaCd, s.useSpeakerLoss, t), trace := st.trace + [t]);
    assert Iteration(s, env, i0, st0, k) == Finish(s, i0 + k, st1);
    FinishLogEffect(s, i0 + k, st1);
  }

  /** The log line and reset at the end of an iteration that raises nothing. */
  lemma FinishLogEffect(s: Settings, i: nat, st1: RunState)
    requires s.logStep != 0 && Finish(s, i, st1).1.None?
    ensures Finish(s, i, st1).0.trace == st1.trace
    ensures Finish(s, i, st1).0.acc == if LogDue(s.logStep, i + 1) then map[] else st1.acc
    ensures Finish(s, i, st1).0.logs
         == st1.logs + if LogDue(s.logStep, i + 1) then [LogLine(i + 1, s.numIters, LogValues(Keys(s.useSpeakerLoss), st1.acc, s.logStep))] else []
  {
  }

  /** What an iteration that raises nothing does to the store. */
  lemma IterationSaveEffect(s: Settings, env: Env, i0: nat, st0: RunState, k: nat)
    requires Iteration(s, env, i0, st0, k).1.None?
    ensures env.interrupt != Some(k) && |env.loader| > 0 && s.logStep != 0
    ensures SaveDue(s.savingPace, i0 + k + 1) ==>
      !IsRegularFile(Run(s, env, i0, st0, k).0.files, Run(s, env, i0, st0, k).0.dirs, CheckpointDir)
    ensures Iteration(s, env, i0, st0, k).0.files
         == if SaveDue(s.savingPace, i0 + k + 1)
            then Run(s, env, i0, st0, k).0.files[CheckpointPath(s.savingPrefix, i0 + k + 1)
                          := TrainableBundle(s.hparams, Iteration(s, env, i0, st0, k).0.g, Iteration(s, env, i0, st0, k).0.opt, Iteration(s, env, i0, st0, k).0.loss)]
            else Run(s, env, i0, st0, k).0.files
    ensures Iteration(s, env, i0, st0, k).0.dirs == if SaveDue(s.savingPace, i0 + k + 1) then Run(s, env, i0, st0, k).0.dirs + {CheckpointDir} else Run(s, env, i0, st0, k).0.dirs
  {
  }

  /**
   * An iteration with no interrupt, a triple to fetch, a non-zero `log_step` and, when it saves,
   * no regular file in the way of `./trained_models` raises nothing.
   */
  lemma IterationStep(s: Settings, env: Env, i0: nat, st0: RunState, k: nat)
    requires env.interrupt != Some(k) && |env.loader| > 0 && s.logStep != 0
    requires SaveDue(s.savingPace, i0 + k + 1) ==>
      !IsRegularFile(Run(s, env, i0, st0, k).0.files, Run(s, env, i0, st0, k).0.dirs, CheckpointDir)
    ensures Iteration(s, env, i0, st0, k).1.None?
  {
  }

  /** Once an exception is raised, no later iteration runs. */
  lemma {:induction false} RunHalts(s: Settings, env: Env, i0: nat, st0: RunState, k: nat, m: nat)
    requires k <= m
    requires Run(s, env, i0, st0, k).1.Some?
    ensures Run(s, env, i0, st0, m) == Run(s, env, i0, st0, k)
    decreases m
  {
    if k < m {
      RunHalts(s, env, i0, st0, k, m - 1);
    }
  }

  /** The first `k` iterations ran without an exception. */
  predicate Ran(s: Settings, env: Env, i0: nat, st0: RunState, k: nat)
  {
    Run(s, env, i0, st0, k).1.None?
  }

  lemma RanBefore(s: Settings, env: Env, i0: nat, st0: RunState, k: nat)
    requires k > 0 && Ran(s, env, i0, st0, k)
    ensures Ran(s, env, i0, st0, k - 1)
    ensures Run(s, env, i0, st0, k) == Iteration(s, env, i0, st0, k - 1)
    ensures Iteration(s, env, i0, st0, k - 1).1.None?
  {
  }

  /**
   * A completed iteration never writes the `trained_models` entry as a file, and makes it a
   * directory when it saves, so a regular file there stays in the way exactly as long as it was at
   * the start: until the first save raises.
   */
  lemma {:induction false} RunKeepsDirFile(s: Settings, env: Env, i0: nat, st0: RunState, k: nat)
    requires Ran(s, env, i0, st0, k)
    ensures IsRegularFile(Run(s, env, i0, st0, k).0.files, Run(s, env, i0, st0, k).0.dirs, CheckpointDir)
        <==> IsRegularFile(st0.files, st0.dirs, CheckpointDir)
  {
    if k > 0 {
      RanBefore(s, env, i0, st0, k);
      RunKeepsDirFile(s, env, i0, st0, k - 1);
      IterationSaveEffect(s, env, i0, st0, k - 1);
      CheckpointPathIsNotDir(s.savingPrefix, i0 + k);
    }
  }

  /**
   * A call runs its first `k` iterations to the end exactly when no interrupt arrives among them;
   * if there is at least one, the loader has a triple and `log_step` is not 0; and, when
   * `trained_models` is a regular file, none of them is due to save.
   */
  lemma {:induction false} RanIff(s: Settings, env: Env, i0: nat, st0: RunState, k: nat)
    ensures Ran(s, env, i0, st0, k) <==>
      && (forall j :: 0 <= j < k ==> env.interrupt != Some(j))
      && (k > 0 ==> |env.loader| > 0 && s.logStep != 0)
      && (IsRegularFile(st0.files, st0.dirs, CheckpointDir) ==> forall m :: i0 < m <= i0 + k ==> !SaveDue(s.savingPace, m))
  {
    if k > 0 {
      RanIff(s, env, i0, st0, k - 1);
      if !Ran(s, env, i0, st0, k - 1) {
        RunHalts(s, env, i0, st0, k - 1, k);
      } else {
        RunKeepsDirFile(s, env, i0, st0, k - 1);
        if env.interrupt != Some(k - 1) && |env.loader| > 0 && s.logStep != 0
           && !(SaveDue(s.savingPace, i0 + k) && IsRegularFile(st0.files, st0.dirs, CheckpointDir)) {
          IterationStep(s, env, i0, st0, k - 1);
        } else if Ran(s, env, i0, st0, k) {
          RanBefore(s, env, i0, st0, k);
          IterationSaveEffect(s, env, i0, st0, k - 1);
        }
      }
    }
  }

  /**
   * Each iteration appends exactly one loss, the total of that iteration's terms; earlier entries
   * stay put, and the weights keep their shape. With a history of `init_iter` entries at the start,
   * iteration `i` leaves `len(loss) == i + 1`.
   */
  lemma {:induction false} RunAppendsHistory(s: Settings, env: Env, i0: nat, st0: RunState, k: nat)
    requires st0.trace == []
    requires Ran(s, env, i0, st0, k)
    ensures var r := Run(s, env, i0, st0, k).0;
      && |r.loss| == |st0.loss| + k
      && |r.trace| == k
      && r.loss[..|st0.loss|] == st0.loss
      && (forall j :: 0 <= j < k ==> r.loss[|st0.loss| + j] == TotalLoss(s.lambdaCd, s.useSpeakerLoss, r.trace[j]))
      && r.g.shape == st0.g.shape
      && (|st0.loss| == i0 ==> |r.loss| == i0 + k)
  {
    if k > 0 {
      RanBefore(s, env, i0, st0, k);
      IterationEffect(s, env, i0, st0, k - 1);
      RunAppendsHistory(s, env, i0, st0, k - 1);
      var p := Run(s, env, i0, st0, k - 1).0;
      var r := Run(s, env, i0, st0, k).0;
      assert r.loss == p.loss + [r.loss[|r.loss| - 1]];
      assert r.trace == p.trace + [r.trace[k - 1]];
    }
  }

  /**
   * With a deterministic loader of `n >= 1` triples, the `j`-th iteration of a call (from 0) is
   * computed on triple `j mod n` with the weights the previous iterations left.
   */
  lemma {:induction false} RunCyclesBatches(s: Settings, env: Env, i0: nat, st0: RunState, k: nat)
    requires st0.trace == [] && st0.cursor == Unbound && |env.loader| > 0
    requires Ran(s, env, i0, st0, k)
    ensures Run(s, env, i0, st0, k).0.cursor == CursorAfter(k, |env.loader|)
    ensures |Run(s, env, i0, st0, k).0.trace| == k
    ensures forall j :: 0 <= j < k ==>
      Run(s, env, i0, st0, k).0.trace[j] == env.forward(Run(s, env, i0, st0, j).0.g, env.loader[j % |env.loader|])
  {
    if k > 0 {
      RanBefore(s, env, i0, st0, k);
      var p := Run(s, env, i0, st0, k - 1).0;
      IterationEffect(s, env, i0, st0, k - 1);
      RunCyclesBatches(s, env, i0, st0, k - 1);
      FetchCycles(env.loader, k - 1);
      var r := Run(s, env, i0, st0, k).0;
      forall j | 0 <= j < k
        ensures r.trace[j] == env.forward(Run(s, env, i0, st0, j).0.g, env.loader[j % |env.loader|])
      {
        if j < k - 1 {
          assert r.trace[j] == p.trace[j];
        }
      }
    }
  }

  /**
   * After the first `k` iterations of a call, the running sums cover the call-relative
   * iterations from `WindowStart(k)` on: the call start, or the iteration after the last one
   * that printed a log line (and so reset `loss = {}`).
   */
  function WindowStart(s: Settings, i0: nat, k: nat): (w: nat)
    requires s.logStep != 0
    ensures w <= k
  {
    if k == 0 then 0
    else if LogDue(s.logStep, i0 + k) then k
    else WindowStart(s, i0, k - 1)
  }

  /** The sum of the values of `tag` over the call-relative iterations `a .. b - 1`, newest added first. */
  function WindowSum(s: Settings, trace: seq<Losses>, tag: string, a: nat, b: nat): real
    requires a <= b <= |trace|
    decreases b
  {
    if b == a then 0.0
    else TagValue(s.lambdaCd, s.useSpeakerLoss, trace[b - 1], tag) + WindowSum(s, trace, tag, a, b - 1)
  }

  /** The running sums of a window: one entry per tag of `AllTags`. */
  function WindowTotals(s: Settings, trace: seq<Losses>, a: nat, b: nat): (totals: map<string, real>)
    requires a <= b <= |trace|
    ensures forall tag :: tag in totals <==> tag in AllTags
  {
    map tag | tag in AllTags :: WindowSum(s, trace, tag, a, b)
  }

  /**
   * The values a log line prints for a window: for each tag of `keys`, in order, the window's
   * sum divided by `log_step` (not by the number of iterations in the window).
   */
  function WindowValues(s: Settings, trace: seq<Losses>, a: nat, b: nat): (values: seq<(string, real)>)
    requires s.logStep != 0 && a <= b <= |trace|
    ensures |values| == |Keys(s.useSpeakerLoss)|
  {
    LogValues(Keys(s.useSpeakerLoss), WindowTotals(s, trace, a, b), s.logStep)
  }

  /**
   * What a log line means: entry `j` is tag `Keys[j]` with the sum of its values over the
   * window divided by `log_step`.
   */
  lemma WindowValuesMeaning(s: Settings, trace: seq<Losses>, a: nat, b: nat)
    requires s.logStep != 0 && a <= b <= |trace|
    ensures forall j :: 0 <= j < |Keys(s.useSpeakerLoss)| ==>
      WindowValues(s, trace, a, b)[j] == (Keys(s.useSpeakerLoss)[j], WindowSum(s, trace, Keys(s.useSpeakerLoss)[j], a, b) / (s.logStep as real))
  {
    LogValuesAt(Keys(s.useSpeakerLoss), WindowTotals(s, trace, a, b), s.logStep);
  }

  lemma {:induction false} WindowSumPrefix(s: Settings, trace: seq<Losses>, more: seq<Losses>, tag: string, a: nat, b: nat)
    requires a <= b <= |trace|
    ensures WindowSum(s, trace + more, tag, a, b) == WindowSum(s, trace, tag, a, b)
    decreases b
  {
    if b > a {
      WindowSumPrefix(s, trace, more, tag, a, b - 1);
      assert (trace + more)[b - 1] == trace[b - 1];
    }
  }

  lemma WindowTotalsPrefix(s: Settings, trace: seq<Losses>, more: seq<Losses>, a: nat, b: nat)
    requires a <= b <= |trace|
    ensures WindowTotals(s, trace + more, a, b) == WindowTotals(s, trace, a, b)
  {
    forall tag | tag in AllTags
      ensures WindowSum(s, trace + more, tag, a, b) == WindowSum(s, trace, tag, a, b)
    {
      WindowSumPrefix(s, trace, more, tag, a, b);
    }
  }

  /**
   * One iteration's accumulation extends the window by that iteration: from an empty dict (a
   * fresh window) or from the sums of `a .. k - 1`, it yields the sums of `a .. k`.
   */
  lemma WindowStep(s: Settings, acc: map<string, real>, trace: seq<Losses>, a: nat, k: nat)
    requires a <= k < |trace|
    requires acc == if a == k then map[] else WindowTotals(s, trace, a, k)
    ensures Accumulate(acc, s.lambdaCd, s.useSpeakerLoss, trace[k]) == WindowTotals(s, trace, a, k + 1)
  {
    var r := Accumulate(acc, s.lambdaCd, s.useSpeakerLoss, trace[k]);
    var w := WindowTotals(s, trace, a, k + 1);
    AccumulateAdds(acc, s.lambdaCd, s.useSpeakerLoss, trace[k]);
    forall tag | tag in AllTags
      ensures r[tag] == w[tag]
    {
      assert Get(acc, tag) == WindowSum(s, trace, tag, a, k);
    }
    assert r.Keys == w.Keys;
  }

  /** Iteration `k - 1` of a call that ran `k` iterations, seen on the states `Run` yields. */
  lemma RunLogStep(s: Settings, env: Env, i0: nat, st0: RunState, k: nat)
    requires k > 0 && Ran(s, env, i0, st0, k)
    ensures Ran(s, env, i0, st0, k - 1) && s.logStep != 0
    ensures Fetch(Run(s, env, i0, st0, k - 1).0.cursor, env.loader).Some?
    ensures Run(s, env, i0, st0, k).0.trace == Run(s, env, i0, st0, k - 1).0.trace + [StepLosses(env, Run(s, env, i0, st0, k - 1).0)]
    ensures Run(s, env, i0, st0, k).0.acc
         == if LogDue(s.logStep, i0 + k) then map[]
            else Accumulate(Run(s, env, i0, st0, k - 1).0.acc, s.lambdaCd, s.useSpeakerLoss, StepLosses(env, Run(s, env, i0, st0, k - 1).0))
    ensures Run(s, env, i0, st0, k).0.logs
         == Run(s, env, i0, st0, k - 1).0.logs
            + if LogDue(s.logStep, i0 + k)
              then [LogLine(i0 + k, s.numIters,
                            LogValues(Keys(s.useSpeakerLoss),
                                      Accumulate(Run(s, env, i0, st0, k - 1).0.acc, s.lambdaCd, s.useSpeakerLoss, StepLosses(env, Run(s, env, i0, st0, k - 1).0)),
                                      s.logStep))]
              else []
  {
    RanBefore(s, env, i0, st0, k);
    IterationLogEffect(s, env, i0, st0, k - 1);
  }

  /**
   * The window grows by one iteration: if the sums before iteration `k - 1` are those of the
   * window `WindowStart(k - 1) .. k - 2` (an empty dict when that window is empty), adding the
   * losses `t` of iteration `k - 1` yields the sums of `WindowStart(k - 1) .. k - 1`.
   */
  lemma WindowExtend(s: Settings, i0: nat, k: nat, trace: seq<Losses>, acc: map<string, real>, t: Losses)
    requires s.logStep != 0 && k > 0 && |trace| == k - 1
    requires acc == if WindowStart(s, i0, k - 1) == k - 1 then map[] else WindowTotals(s, trace, WindowStart(s, i0, k - 1), k - 1)
    ensures Accumulate(acc, s.lambdaCd, s.useSpeakerLoss, t) == WindowTotals(s, trace + [t], WindowStart(s, i0, k - 1), k)
  {
    var w := WindowStart(s, i0, k - 1);
    if w < k - 1 {
      WindowTotalsPrefix(s, trace, [t], w, k - 1);
    }
    assert (trace + [t])[k - 1] == t;
    WindowStep(s, acc, trace + [t], w, k - 1);
  }

  /** The running sums after the first `k` iterations of a call are those of its current window. */
  lemma {:induction false} RunAccumulates(s: Settings, env: Env, i0: nat, st0: RunState, k: nat)
    requires st0.trace == [] && st0.acc == map[] && s.logStep != 0
    requires Ran(s, env, i0, st0, k)
    ensures |Run(s, env, i0, st0, k).0.trace| == k
    ensures Run(s, env, i0, st0, k).0.acc
         == if WindowStart(s, i0, k) == k then map[] else WindowTotals(s, Run(s, env, i0, st0, k).0.trace, WindowStart(s, i0, k), k)
  {
    if k > 0 {
      RunLogStep(s, env, i0, st0, k);
      RunAccumulates(s, env, i0, st0, k - 1);
      var p := Run(s, env, i0, st0, k - 1).0;
      var r := Run(s, env, i0, st0, k).0;
      var t := StepLosses(env, p);
      WindowExtend(s, i0, k, p.trace, p.acc, t);
      if LogDue(s.logStep, i0 + k) {
        assert WindowStart(s, i0, k) == k;
      } else {
        assert WindowStart(s, i0, k) == WindowStart(s, i0, k - 1);
        assert r.acc == WindowTotals(s, r.trace, WindowStart(s, i0, k - 1), k);
      }
    }
  }

  /** The log lines due in the first `k` iterations of a call, given each iteration's losses. */
  function ScheduledLogs(s: Settings, i0: nat, trace: seq<Losses>, k: nat): seq<LogLine>
    requires s.logStep != 0 && k <= |trace|
  {
    if k == 0 then []
    else ScheduledLogs(s, i0, trace, k - 1)
         + (if LogDue(s.logStep, i0 + k)
            then [LogLine(i0 + k, s.numIters, WindowValues(s, trace, WindowStart(s, i0, k - 1), k))] else [])
  }

  lemma {:induction false} ScheduledLogsPrefix(s: Settings, i0: nat, trace: seq<Losses>, more: seq<Losses>, k: nat)
    requires s.logStep != 0 && k <= |trace|
    ensures ScheduledLogs(s, i0, trace + more, k) == ScheduledLogs(s, i0, trace, k)
  {
    if k > 0 {
      ScheduledLogsPrefix(s, i0, trace, more, k - 1);
      WindowTotalsPrefix(s, trace, more, WindowStart(s, i0, k - 1), k);
    }
  }

  /**
   * One more iteration appends to the printed lines exactly the line `ScheduledLogs` schedules
   * for it, given that the earlier lines and the running sums are as scheduled.
   */
  lemma LogsExtend(s: Settings, i0: nat, k: nat, trace: seq<Losses>, t: Losses, acc: map<string, real>,
                   logs0: seq<LogLine>, logs: seq<LogLine>, logs1: seq<LogLine>)
    requires s.logStep != 0 && k > 0 && |trace| == k - 1
    requires logs == logs0 + ScheduledLogs(s, i0, trace, k - 1)
    requires Accumulate(acc, s.lambdaCd, s.useSpeakerLoss, t) == WindowTotals(s, trace + [t], WindowStart(s, i0, k - 1), k)
    requires logs1 == logs + (if LogDue(s.logStep, i0 + k)
                              then [LogLine(i0 + k, s.numIters, LogValues(Keys(s.useSpeakerLoss), Accumulate(acc, s.lambdaCd, s.useSpeakerLoss, t), s.logStep))]
                              else [])
    ensures logs1 == logs0 + ScheduledLogs(s, i0, trace + [t], k)
  {
    ScheduledLogsPrefix(s, i0, trace, [t], k - 1);
  }

  /** The log lines a call prints are the scheduled ones. */
  lemma {:induction false} RunLogs(s: Settings, env: Env, i0: nat, st0: RunState, k: nat)
    requires st0.trace == [] && st0.acc == map[] && s.logStep != 0
    requires Ran(s, env, i0, st0, k)
    ensures |Run(s, env, i0, st0, k).0.trace| == k
    ensures Run(s, env, i0, st0, k).0.logs == st0.logs + ScheduledLogs(s, i0, Run(s, env, i0, st0, k).0.trace, k)
  {
    if k > 0 {
      RunLogStep(s, env, i0, st0, k);
      RunLogs(s, env, i0, st0, k - 1);
      RunAccumulates(s, env, i0, st0, k - 1);
      var p := Run(s, env, i0, st0, k - 1).0;
      var r := Run(s, env, i0, st0, k).0;
      var t := StepLosses(env, p);
      WindowExtend(s, i0, k, p.trace, p.acc, t);
      LogsExtend(s, i0, k, p.trace, t, p.acc, st0.logs, p.logs, r.logs);
    }
  }

  /**
   * `line` is the log line of an iteration `m` in `(init_iter, init_iter + k]` divisible by
   * `log_step`, printing the sums of its window divided by `log_step`.
   */
  predicate IsScheduledLine(s: Settings, i0: nat, trace: seq<Losses>, k: nat, line: LogLine)
    requires s.logStep != 0 && k <= |trace|
  {
    && i0 < line.iteration <= i0 + k
    && LogDue(s.logStep, line.iteration)
    && line == LogLine(line.iteration, s.numIters,
                       WindowValues(s, trace, WindowStart(s, i0, line.iteration - i0 - 1), line.iteration - i0))
  }

  /** Every scheduled line is one of an iteration due for logging. */
  lemma {:induction false} ScheduledLogsSound(s: Settings, i0: nat, trace: seq<Losses>, k: nat)
    requires s.logStep != 0 && k <= |trace|
    ensures forall idx :: 0 <= idx < |ScheduledLogs(s, i0, trace, k)| ==>
      IsScheduledLine(s, i0, trace, k, ScheduledLogs(s, i0, trace, k)[idx])
  {
    if k > 0 {
      ScheduledLogsSound(s, i0, trace, k - 1);
      var p := ScheduledLogs(s, i0, trace, k - 1);
      var logs := ScheduledLogs(s, i0, trace, k);
      var line := LogLine(i0 + k, s.numIters, WindowValues(s, trace, WindowStart(s, i0, k - 1), k));
      assert logs == p + (if LogDue(s.logStep, i0 + k) then [line] else []);
      forall idx | 0 <= idx < |logs|
        ensures IsScheduledLine(s, i0, trace, k, logs[idx])
      {
        if idx < |p| {
          assert logs[idx] == p[idx];
          assert IsScheduledLine(s, i0, trace, k - 1, p[idx]);
        } else {
          assert logs[idx] == line;
        }
      }
    }
  }

  /** Some line of `logs` is for iteration `m`. */
  predicate LoggedAt(logs: seq<LogLine>, m: int)
  {
    exists idx :: 0 <= idx < |logs| && logs[idx].iteration == m
  }

  /** Every iteration `m` in `(init_iter, init_iter + k]` divisible by `log_step` has a scheduled line. */
  lemma {:induction false} ScheduledLogsComplete(s: Settings, i0: nat, trace: seq<Losses>, k: nat)
    requires s.logStep != 0 && k <= |trace|
    ensures forall m :: i0 < m <= i0 + k && LogDue(s.logStep, m) ==> LoggedAt(ScheduledLogs(s, i0, trace, k), m)
  {
    if k > 0 {
      ScheduledLogsComplete(s, i0, trace, k - 1);
      var p := ScheduledLogs(s, i0, trace, k - 1);
      var logs := ScheduledLogs(s, i0, trace, k);
      var line := LogLine(i0 + k, s.numIters, WindowValues(s, trace, WindowStart(s, i0, k - 1), k));
      assert logs == p + (if LogDue(s.logStep, i0 + k) then [line] else []);
      forall m | i0 < m <= i0 + k && LogDue(s.logStep, m)
        ensures LoggedAt(logs, m)
      {
        if m == i0 + k {
          assert logs[|p|] == line;
        } else {
          assert LoggedAt(p, m);
          var idx :| 0 <= idx < |p| && p[idx].iteration == m;
          assert logs[idx] == p[idx];
        }
      }
    }
  }

  /** The scheduled lines appear in increasing iteration order. */
  lemma {:induction false} ScheduledLogsIncreasing(s: Settings, i0: nat, trace: seq<Losses>, k: nat)
    requires s.logStep != 0 && k <= |trace|
    ensures forall a, b :: 0 <= a < b < |ScheduledLogs(s, i0, trace, k)| ==>
      ScheduledLogs(s, i0, trace, k)[a].iteration < ScheduledLogs(s, i0, trace, k)[b].iteration
  {
    if k > 0 {
      ScheduledLogsIncreasing(s, i0, trace, k - 1);
      ScheduledLogsSound(s, i0, trace, k - 1);
      var p := ScheduledLogs(s, i0, trace, k - 1);
      var logs := ScheduledLogs(s, i0, trace, k);
      var line := LogLine(i0 + k, s.numIters, WindowValues(s, trace, WindowStart(s, i0, k - 1), k));
      assert logs == p + (if LogDue(s.logStep, i0 + k) then [line] else []);
      forall a, b | 0 <= a < b < |logs|
        ensures logs[a].iteration < logs[b].iteration
      {
        assert logs[a] == p[a];
        assert IsScheduledLine(s, i0, trace, k - 1, p[a]);
        if b < |p| {
          assert logs[b] == p[b];
        } else {
          assert logs[b] == line;
        }
      }
    }
  }

  /**
   * The sums are reset only right after a log line: a window starts at the call start or just
   * after an iteration that logged, and no iteration inside it logged.
   */
  lemma {:induction false} WindowStartIsLastLog(s: Settings, i0: nat, k: nat)
    requires s.logStep != 0
    ensures WindowStart(s, i0, k) == 0 || LogDue(s.logStep, i0 + WindowStart(s, i0, k))
    ensures forall m :: i0 + WindowStart(s, i0, k) < m <= i0 + k ==> !LogDue(s.logStep, m)
  {
    if k > 0 && !LogDue(s.logStep, i0 + k) {
      WindowStartIsLastLog(s, i0, k - 1);
    }
  }

  /**
   * The line printed after call-relative iteration `k - 1` sums `min(|log_step|, k)`
   * iterations: a full `|log_step|` once a line was printed earlier in the call, but only the
   * `k` iterations since the call start for the first line, which a resume from an `init_iter`
   * not divisible by `log_step` makes shorter. The sums are still divided by `log_step`.
   */
  lemma WindowLength(s: Settings, i0: nat, k: nat)
    requires s.logStep != 0 && k > 0 && LogDue(s.logStep, i0 + k)
    ensures k - WindowStart(s, i0, k - 1) == if k < Abs(s.logStep) then k else Abs(s.logStep)
  {
    var L := Abs(s.logStep);
    var w := WindowStart(s, i0, k - 1);
    WindowStartIsLastLog(s, i0, k - 1);
    LogDueAbs(s.logStep, i0 + k);
    if k > L {
      // iteration `k - L` logged too, so the window cannot reach back past it
      MultiplesApart(i0 + k, L, L);
      LogDueAbs(s.logStep, i0 + k - L);
      assert LogDue(s.logStep, i0 + k - L);
    }
    if w > 0 {
      LogDueAbs(s.logStep, i0 + w);
      MultiplesApart(i0 + k, L, k - w);
    }
  }

  /** The paths of the periodic checkpoints the iterations that end at `lo + 1 .. hi` write. */
  function PeriodicPaths(s: Settings, lo: nat, hi: nat): set<string>
  {
    set m | lo < m <= hi && SaveDue(s.savingPace, m) :: CheckpointPath(s.savingPrefix, m)
  }

  /** A call that ran its first `j` iterations ran each shorter prefix too. */
  lemma {:induction false} RanPrefix(s: Settings, env: Env, i0: nat, st0: RunState, j: nat, k: nat)
    requires j <= k && Ran(s, env, i0, st0, k)
    ensures Ran(s, env, i0, st0, j)
    decreases k
  {
    if j < k {
      RanBefore(s, env, i0, st0, k);
      RanPrefix(s, env, i0, st0, j, k - 1);
    }
  }

  /** Iteration `j - 1` of a call, when `(init_iter + j) % saving_pace == 0`, saves the state it ends in. */
  lemma RunSavesCheckpoint(s: Settings, env: Env, i0: nat, st0: RunState, j: nat)
    requires 0 < j && Ran(s, env, i0, st0, j) && SaveDue(s.savingPace, i0 + j)
    ensures CheckpointPath(s.savingPrefix, i0 + j) in Run(s, env, i0, st0, j).0.files
    ensures Run(s, env, i0, st0, j).0.files[CheckpointPath(s.savingPrefix, i0 + j)]
         == TrainableBundle(s.hparams, Run(s, env, i0, st0, j).0.g, Run(s, env, i0, st0, j).0.opt, Run(s, env, i0, st0, j).0.loss)
    ensures CheckpointDir in Run(s, env, i0, st0, j).0.dirs
  {
    RanBefore(s, env, i0, st0, j);
    IterationSaveEffect(s, env, i0, st0, j - 1);
  }

  /**
   * Between its `j`-th and `k`-th iteration a call adds, removes and changes no file but the
   * periodic checkpoints of those iterations, and creates no directory but `./trained_models`.
   */
  lemma {:induction false} RunKeepsOtherFiles(s: Settings, env: Env, i0: nat, st0: RunState, j: nat, k: nat, path: string)
    requires j <= k && Ran(s, env, i0, st0, k)
    requires path !in PeriodicPaths(s, i0 + j, i0 + k)
    ensures path in Run(s, env, i0, st0, k).0.files <==> path in Run(s, env, i0, st0, j).0.files
    ensures path in Run(s, env, i0, st0, j).0.files ==> Run(s, env, i0, st0, k).0.files[path] == Run(s, env, i0, st0, j).0.files[path]
    ensures Run(s, env, i0, st0, j).0.dirs <= Run(s, env, i0, st0, k).0.dirs <= Run(s, env, i0, st0, j).0.dirs + {CheckpointDir}
    decreases k
  {
    if j < k {
      RanBefore(s, env, i0, st0, k);
      IterationSaveEffect(s, env, i0, st0, k - 1);
      assert path != CheckpointPath(s.savingPrefix, i0 + k) || !SaveDue(s.savingPace, i0 + k);
      RunKeepsOtherFiles(s, env, i0, st0, j, k - 1, path);
    }
  }

  /**
   * Periodic checkpoints: iteration `i` with `saving_pace != 0` and `(i+1) % saving_pace == 0`
   * leaves `autovc_<prefix>_<i+1>` holding the hyperparameters, the weights and optimizer state
   * after that iteration and the history up to it, and later iterations do not overwrite it.
   */
  lemma RunCheckpoints(s: Settings, env: Env, i0: nat, st0: RunState, k: nat, j: nat)
    requires Ran(s, env, i0, st0, k)
    requires 0 < j <= k && SaveDue(s.savingPace, i0 + j)
    ensures CheckpointPath(s.savingPrefix, i0 + j) in Run(s, env, i0, st0, k).0.files
    ensures Run(s, env, i0, st0, k).0.files[CheckpointPath(s.savingPrefix, i0 + j)]
         == TrainableBundle(s.hparams, Run(s, env, i0, st0, j).0.g, Run(s, env, i0, st0, j).0.opt, Run(s, env, i0, st0, j).0.loss)
    ensures CheckpointDir in Run(s, env, i0, st0, k).0.dirs
  {
    var path := CheckpointPath(s.savingPrefix, i0 + j);
    RanPrefix(s, env, i0, st0, j, k);
    RunSavesCheckpoint(s, env, i0, st0, j);
    forall m | i0 + j < m <= i0 + k && SaveDue(s.savingPace, m)
      ensures CheckpointPath(s.savingPrefix, m) != path
    {
      if CheckpointPath(s.savingPrefix, m) == path {
        CheckpointPathInjective(s.savingPrefix, m, i0 + j);
      }
    }
    RunKeepsOtherFiles(s, env, i0, st0, j, k, path);
  }

  /**
   * Every periodic checkpoint can be resumed from: a solver of the same architecture restores
   * that iteration's weights, optimizer and history, and its `init_iter` becomes `i + 1`.
   */
  lemma ResumeFromPeriodicCheckpoint(s: Settings, env: Env, i0: nat, st0: RunState, k: nat, m: nat)
    requires st0.trace == [] && |st0.loss| == i0 && st0.g.shape == ShapeOf(s.hparams)
    requires Ran(s, env, i0, st0, k)
    requires i0 < m <= i0 + k && SaveDue(s.savingPace, m)
    ensures Resume(Run(s, env, i0, st0, k).0.files, Run(s, env, i0, st0, k).0.dirs,
                   CheckpointPath(s.savingPrefix, m), ShapeOf(s.hparams))
         == Success(Resumed(Run(s, env, i0, st0, m - i0).0.g, Run(s, env, i0, st0, m - i0).0.opt,
                            Run(s, env, i0, st0, m - i0).0.loss, m))
  {
    var r := Run(s, env, i0, st0, k).0;
    var after := Run(s, env, i0, st0, m - i0).0;
    var path := CheckpointPath(s.savingPrefix, m);
    RunCheckpoints(s, env, i0, st0, k, m - i0);
    assert path in r.files && r.files[path] == TrainableBundle(s.hparams, after.g, after.opt, after.loss);
    RanIff(s, env, i0, st0, k);
    RanIff(s, env, i0, st0, m - i0);
    RunAppendsHistory(s, env, i0, st0, m - i0);
    assert |after.loss| == m && after.g.shape == ShapeOf(s.hparams);
    assert r.files == r.files[path := TrainableBundle(s.hparams, after.g, after.opt, after.loss)];
    SaveThenResume(r.files, r.dirs, path, s.hparams, after.g, after.opt, after.loss);
  }

  /**
   * An interrupt at the start of iteration `k` ends the call: with autosave the current state is
   * saved to `autovc_autosave.ckpt` and "autosave done." is raised; without, nothing is written and
   * "no autosave." is raised. No later iteration runs.
   */
  lemma InterruptContract(s: Settings, env: Env, i0: nat, st0: RunState, k: nat, n: nat)
    requires Ran(s, env, i0, st0, k)
    requires env.interrupt == Some(k) && k < n
    ensures var r := Run(s, env, i0, st0, k).0;
      Run(s, env, i0, st0, n) ==
        if s.autosave then
          (r.(files := r.files[AutosavePath := TrainableBundle(s.hparams, r.g, r.opt, r.loss)]), Some(AutosaveDone))
        else (r, Some(NoAutosave))
  {
    RunHalts(s, env, i0, st0, k + 1, n);
  }

  /** The solver: configuration constants, and the model, optimizer and history it mutates. */
  class Solver {
    const lambdaCd: real
    const dimNeck: int
    const dimEmb: int
    const dimPre: int
    const freq: int
    const initModel: string
    const batchSize: int
    const numIters: int
    const autosave: bool
    const savingPace: int
    const savingPrefix: string
    const learningRate: real
    const useSpeakerLoss: bool
    const logStep: int

    var G: Weights
    var gOptimizer: OptState
    var loss: seq<real>
    var initIter: nat

    /** The `hyperparams` record the solver saves. */
    function HyperParams(): HParams
    {
      HParams(dimNeck, dimEmb, dimPre, freq)
    }

    function LoopSettings(): Settings
    {
      Settings(lambdaCd, HyperParams(), numIters, autosave, savingPace, savingPrefix, useSpeakerLoss, logStep)
    }

    /** The Generator's weights always fit the architecture the solver was built with. */
    ghost predicate Valid()
      reads this
    {
      G.shape == ShapeOf(HyperParams())
    }

    /**
     * `__init__` up to and including `build_model`: a fresh Generator `g0` and its Adam optimizer
     * `opt0`, an empty history and `init_iter = 0`.
     */
    constructor (config: Config, g0: Weights, opt0: OptState)
      requires g0.shape == Shape(config.dimNeck, config.dimEmb, config.dimPre)
      ensures Valid()
      ensures lambdaCd == config.lambdaCd && dimNeck == config.dimNeck && dimEmb == config.dimEmb
      ensures dimPre == config.dimPre && freq == config.freq && initModel == config.initModel
      ensures batchSize == config.batchSize && numIters == config.numIters
      ensures autosave == (config.checkpointMode == "autosave")
      ensures savingPace == config.saveEveryNIter && savingPrefix == config.savePath
      ensures learningRate == config.learningRate && useSpeakerLoss == config.useSpeakerLoss
      ensures logStep == config.logStep
      ensures G == g0 && gOptimizer == opt0 && loss == [] && initIter == 0
    {
      lambdaCd := config.lambdaCd;
      dimNeck := config.dimNeck;
      dimEmb := config.dimEmb;
      dimPre := config.dimPre;
      freq := config.freq;
      initModel := config.initModel;
      batchSize := config.batchSize;
      numIters := config.numIters;
      autosave := config.checkpointMode == "autosave";
      savingPace := config.saveEveryNIter;
      savingPrefix := config.savePath;
      learningRate := config.learningRate;
      useSpeakerLoss := config.useSpeakerLoss;
      logStep := config.logStep;
      G := g0;
      gOptimizer := opt0;
      loss := [];
      initIter := 0;
    }

    /** `save_model`: weights and hyperparameters only. */
    method SaveModel(store: CheckpointStore, path: string)
      modifies store
      ensures store.files == old(store.files)[path := ModelBundle(HyperParams(), G)]
      ensures store.dirs == old(store.dirs)
    {
      store.Save(path, ModelBundle(HyperParams(), G));
    }

    /** `save_trainable_model`: hyperparameters, weights, optimizer state and the whole history. */
    method SaveTrainableModel(store: CheckpointStore, path: string)
      modifies store
      ensures store.files == old(store.files)[path := TrainableBundle(HyperParams(), G, gOptimizer, loss)]
      ensures store.dirs == old(store.dirs)
    {
      store.Save(path, TrainableBundle(HyperParams(), G, gOptimizer, loss));
    }

    /**
     * The save step of the loop body: `os.mkdir('trained_models')` unless that name exists, then
     * `save_trainable_model(path)`, whose `torch.save` raises when `trained_models` is a regular file.
     */
    method SaveCheckpoint(store: CheckpointStore, path: string) returns (raised: Option<string>)
      modifies store
      ensures raised == if IsRegularFile(old(store.files), old(store.dirs), CheckpointDir) then Some(NotADirectory(path)) else None
      ensures store.dirs == if raised.Some? then old(store.dirs) else old(store.dirs) + {CheckpointDir}
      ensures store.files == if raised.Some? then old(store.files)
                             else old(store.files)[path := TrainableBundle(HyperParams(), G, gOptimizer, loss)]
    {
      store.EnsureDir(CheckpointDir);
      if CheckpointDir !in store.dirs {
        // `torch.save` cannot open a path whose parent is a regular file
        return Some(NotADirectory(path));
      }
      SaveTrainableModel(store, path);
      raised := None;
    }

    /**
     * `load_trainable_model`: reads `init_model` (its `path` argument is ignored). On success the
     * weights, optimizer and history are replaced and `init_iter` is the history length; on failure
     * the message is returned, and whatever `load_state_dict` calls already ran stay applied.
     */
    method LoadTrainableModel(store: CheckpointStore, path: string) returns (error: Option<string>)
      requires Valid()
      modifies this
      ensures Valid()
      ensures var r := Resume(store.files, store.dirs, initModel, ShapeOf(HyperParams()));
        && (r.Success? ==> error.None? && G == r.value.g && gOptimizer == r.value.opt
                           && loss == r.value.loss && initIter == r.value.initIter)
        && (r.Failure? ==> error == Some(r.error) && loss == old(loss) && initIter == old(initIter)
                           && (G, gOptimizer) == AfterLoadAttempt(store.files, initModel, ShapeOf(HyperParams()), old(G), old(gOptimizer)))
    {
      var shape := ShapeOf(HyperParams());
      if initModel !in store.files && initModel !in store.dirs {
        return Some(IncorrectPathMessage(initModel));
      }
      if initModel !in store.files {
        return Some(CouldNotLoadMessage(initModel));
      }
      var checkpoint := store.files[initModel];
      if !checkpoint.Bundle? || checkpoint.gState.None? || checkpoint.gState.value.shape != shape {
        return Some(CouldNotLoadMessage(initModel));
      }
      G := checkpoint.gState.value;
      if checkpoint.optimizer.None? {
        return Some(CouldNotLoadMessage(initModel));
      }
      gOptimizer := checkpoint.optimizer.value;
      if checkpoint.gLoss.None? {
        return Some(CouldNotLoadMessage(initModel));
      }
      loss := checkpoint.gLoss.value;
      initIter := |loss|;
      return None;
    }

    /**
     * One pass of `train`'s loop body, iteration `k` of the call (global index `init_iter + k`):
     * the new state and the message of the exception it raises, as `Iteration` prescribes.
     */
    method Iterate(store: CheckpointStore, env: Env, keys: seq<string>, k: nat, cursor0: Cursor,
                   acc0: map<string, real>, logs0: seq<LogLine>, ghost st0: RunState, ghost trace0: seq<Losses>)
      returns (raised: Option<string>, cursor: Cursor, acc: map<string, real>, logs: seq<LogLine>, ghost trace: seq<Losses>)
      requires Valid() && keys == Keys(useSpeakerLoss)
      requires Run(LoopSettings(), env, initIter, st0, k).0
            == RunState(G, gOptimizer, loss, cursor0, acc0, logs0, store.files, store.dirs, trace0)
      modifies this, store
      ensures Valid() && initIter == old(initIter)
      ensures Iteration(LoopSettings(), env, initIter, st0, k)
           == (RunState(G, gOptimizer, loss, cursor, acc, logs, store.files, store.dirs, trace), raised)
    {
      cursor, acc, logs, trace := cursor0, acc0, logs0, trace0;
      var i := initIter + k;
      if env.interrupt == Some(k) {
        if autosave {
          SaveTrainableModel(store, AutosavePath);
          return Some(AutosaveDone), cursor, acc, logs, trace;
        }
        return Some(NoAutosave), cursor, acc, logs, trace;
      }
      // `next(data_iter)`, restarting the iterator once it is exhausted or was never created
      var next := Fetch(cursor, env.loader);
      if next.None? {
        return Some(StopIteration), cursor, acc, logs, trace;
      }
      var triple;
      triple, cursor := next.value.0, next.value.1;
      var t := env.forward(G, triple);
      var gLoss := TotalLoss(lambdaCd, useSpeakerLoss, t);
      acc := AddLosses(acc, lambdaCd, useSpeakerLoss, t);
      loss := loss + [gLoss];
      trace := trace + [t];
      var (values, opt) := env.step(G, gOptimizer, triple);
      G := Weights(G.shape, values);
      gOptimizer := opt;
      if logStep == 0 {
        return Some(ModuloByZero), cursor, acc, logs, trace;
      }
      raised, acc, logs := LogAndSave(store, keys, i, cursor, acc, logs, trace);
    }

    /**
     * The end of one pass of the loop body, once the step is taken: print and reset the sums when
     * the line is due, then save when the checkpoint is due, as `Finish` prescribes.
     */
    method LogAndSave(store: CheckpointStore, keys: seq<string>, i: nat, cursor: Cursor,
                      acc0: map<string, real>, logs0: seq<LogLine>, ghost trace: seq<Losses>)
      returns (raised: Option<string>, acc: map<string, real>, logs: seq<LogLine>)
      requires logStep != 0 && keys == Keys(useSpeakerLoss)
      modifies store
      ensures Finish(LoopSettings(), i, RunState(G, gOptimizer, loss, cursor, acc0, logs0, old(store.files), old(store.dirs), trace))
           == (RunState(G, gOptimizer, loss, cursor, acc, logs, store.files, store.dirs, trace), raised)
    {
      acc, logs := acc0, logs0;
      if (i + 1) % logStep == 0 {
        logs := logs + [LogLine(i + 1, numIters, LogValues(keys, acc, logStep))];
        acc := map[];
      }
      raised := None;
      if savingPace != 0 && (i + 1) % savingPace == 0 {
        raised := SaveCheckpoint(store, CheckpointPath(savingPrefix, i + 1));
      }
    }

    /**
     * `train`: runs `i` over `range(init_iter, init_iter + num_iters)` and ends in the state, log
     * lines and exception that `Run` prescribes.
     */
    method Train(store: CheckpointStore, env: Env) returns (outcome: Outcome, logs: seq<LogLine>)
      requires Valid()
      modifies this, store
      ensures Valid() && initIter == old(initIter)
      ensures var (st, e) := Run(LoopSettings(), env, initIter,
                                 RunStart(old(G), old(gOptimizer), old(loss), old(store.files), old(store.dirs)),
                                 IterationCount(numIters));
        && G == st.g && gOptimizer == st.opt && loss == st.loss && logs == st.logs
        && store.files == st.files && store.dirs == st.dirs
        && outcome == if e.None? then Completed else Raised(e.value)
    {
      ghost var st0 := RunStart(G, gOptimizer, loss, store.files, store.dirs);
      ghost var trace: seq<Losses> := [];
      var keys := [LossTag, IdTag, IdPsntTag, CdTag];
      if useSpeakerLoss {
        keys := keys + [StyleTag];
      }
      assert keys == Keys(useSpeakerLoss);
      var n := IterationCount(numIters);
      var dataIter := Unbound;
      var acc: map<string, real> := map[];
      logs := [];
      var k := 0;
      while k < n
        invariant 0 <= k <= n
        invariant Valid() && initIter == old(initIter)
        invariant Run(LoopSettings(), env, initIter, st0, k)
               == (RunState(G, gOptimizer, loss, dataIter, acc, logs, store.files, store.dirs, trace), None)
      {
        var raised;
        raised, dataIter, acc, logs, trace := Iterate(store, env, keys, k, dataIter, acc, logs, st0, trace);
        if raised.Some? {
          RunHalts(LoopSettings(), env, initIter, st0, k + 1, n);
          return Raised(raised.value), logs;
        }
        k := k + 1;
      }
      outcome := Completed;
    }
  }

  /**
   * `Solver(vcc_loader, config)`: builds the solver and, when `init_model` is non-empty, resumes
   * from it; an exception there means no solver is created.
   */
  method NewSolver(config: Config, store: CheckpointStore, g0: Weights, opt0: OptState) returns (r: Result<Solver, string>)
    requires g0.shape == Shape(config.dimNeck, config.dimEmb, config.dimPre)
    ensures r.Success? ==> fresh(r.value) && r.value.Valid() && r.value.initModel == config.initModel
    ensures config.initModel == "" ==> r.Success? && r.value.G == g0 && r.value.gOptimizer == opt0
                                       && r.value.loss == [] && r.value.initIter == 0
    ensures config.initModel != "" ==>
      var res := Resume(store.files, store.dirs, config.initModel,
                        Shape(config.dimNeck, config.dimEmb, config.dimPre));
      && (r.Success? <==> res.Success?)
      && (r.Success? ==> r.value.G == res.value.g && r.value.gOptimizer == res.value.opt
                         && r.value.loss == res.value.loss && r.value.initIter == res.value.initIter)
      && (r.Failure? ==> r.error == res.error)
  {
    var solver := new Solver(config, g0, opt0);
    if solver.initModel != "" {
      var error := solver.LoadTrainableModel(store, solver.initModel);
      if error.Some? {
        return Failure(error.value);
      }
    }
    return Success(solver);
  }
}
