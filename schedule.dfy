/**
 * What the two `Solver.train` loops share: the cyclic data-loader cursor, the checkpoint
 * and logging schedules, the checkpoint paths, the log line and the messages the loop raises.
 */
module Schedule {
  import opened Wrappers
  import opened PyText
  import opened Arith

  /**
   * The local `data_iter` of `train`: unbound before the first fetch of a call, else the
   * position of the next batch in the current pass over the loader.
   */
  datatype Cursor = Unbound | At(pos: nat)

  /**
   * `next(data_iter)`, falling back to a fresh `iter(data_loader)` when that fails (the name is
   * unbound or the pass is exhausted); over an empty loader the second `next` raises StopIteration.
   */
  function Fetch<B>(c: Cursor, loader: seq<B>): (r: Option<(B, Cursor)>)
    ensures r.None? <==> |loader| == 0
    ensures r.Some? ==> r.value.1.At? && 0 < r.value.1.pos <= |loader| && r.value.0 == loader[r.value.1.pos - 1]
    ensures c.At? && c.pos < |loader| ==> r == Some((loader[c.pos], At(c.pos + 1)))
    ensures |loader| > 0 && !(c.At? && c.pos < |loader|) ==> r == Some((loader[0], At(1)))
  {
    if c.At? && c.pos < |loader| then Some((loader[c.pos], At(c.pos + 1)))
    else if |loader| == 0 then None
    else Some((loader[0], At(1)))
  }

  /** The cursor after `j` fetches in one `train` call over a loader of `n` batches. */
  function CursorAfter(j: nat, n: nat): Cursor
    requires n > 0
  {
    if j == 0 then Unbound else At((j - 1) % n + 1)
  }

  /** The fetch numbered `j` (from 0) of a call returns batch `j mod n` of a deterministic loader. */
  lemma FetchCycles<B>(loader: seq<B>, j: nat)
    requires |loader| > 0
    ensures Fetch(CursorAfter(j, |loader|), loader) == Some((loader[j % |loader|], CursorAfter(j + 1, |loader|)))
  {
    var n := |loader|;
    if j > 0 {
      var q, r := (j - 1) / n, (j - 1) % n;
      assert j - 1 == n * q + r && 0 <= r < n;
      if r + 1 < n {
        DivModOfSum(q, n, r + 1);
      } else {
        assert j == n * (q + 1);
        DivModOfSum(q + 1, n, 0);
      }
    }
  }

  /** `saving_pace != 0 and m % saving_pace == 0`, where `m` is the 1-based iteration number. */
  predicate SaveDue(pace: int, m: int)
  {
    pace != 0 && m % pace == 0
  }

  /** `m % log_step == 0`; Python raises ZeroDivisionError when `log_step` is 0. */
  predicate LogDue(logStep: int, m: int)
    requires logStep != 0
  {
    m % logStep == 0
  }

  /**
   * The sign of `log_step` does not change which iterations log: Python's floor modulo and the
   * Euclidean one agree on when the remainder is 0, and that depends only on `|log_step|`.
   */
  lemma LogDueAbs(logStep: int, m: int)
    requires logStep != 0
    ensures LogDue(logStep, m) <==> m % Abs(logStep) == 0
  {
    if logStep < 0 {
      ModOfNegatedBase(m, -logStep);
    }
  }

  const CheckpointDir := "trained_models"
  const AutosavePath := "autovc_autosave.ckpt"

  /** `f'./trained_models/autovc_{prefix}_{m}'`. */
  function CheckpointPath(prefix: string, m: nat): string
  {
    "./trained_models/autovc_" + prefix + "_" + NatToString(m)
  }

  /** Periodic checkpoints of different iterations never share a path. */
  lemma CheckpointPathInjective(prefix: string, a: nat, b: nat)
    requires CheckpointPath(prefix, a) == CheckpointPath(prefix, b)
    ensures a == b
  {
    var pre := "./trained_models/autovc_" + prefix + "_";
    assert pre + NatToString(a) + "" == pre + NatToString(b) + "";
    FramedInjective(pre, NatToString(a), NatToString(b), "");
    NatToStringInjective(a, b);
  }

  /** The autosave file is never one of the periodic checkpoints. */
  lemma AutosaveIsNotPeriodic(prefix: string, m: nat)
    ensures AutosavePath != CheckpointPath(prefix, m)
  {
    assert AutosavePath[0] != CheckpointPath(prefix, m)[0];
  }

  /** A periodic checkpoint path is never the `trained_models` entry itself. */
  lemma CheckpointPathIsNotDir(prefix: string, m: nat)
    ensures CheckpointDir != CheckpointPath(prefix, m)
  {
    assert CheckpointDir[0] != CheckpointPath(prefix, m)[0];
  }

  /** What `torch.save` raises when the parent of `path` is a regular file. */
  function NotADirectory(path: string): string
  {
    "NotADirectoryError: [Errno 20] Not a directory: '" + path + "'"
  }

  const AutosaveDone := "KeyboardInterrupt: autosave done."
  const NoAutosave := "KeyboardInterrupt: no autosave."
  const StopIteration := "StopIteration"
  const ModuloByZero := "ZeroDivisionError: integer modulo by zero"

  /** One printed log line: `Iteration [m/num_iters]` and the tagged values, elapsed time left out. */
  datatype LogLine = LogLine(iteration: int, numIters: int, values: seq<(string, real)>)

  /** How a `train` call ends: normally, or with the exception it raises. */
  datatype Outcome = Completed | Raised(message: string)

  /** The number of iterations `range(init_iter, init_iter + num_iters)` runs. */
  function IterationCount(numIters: int): nat
  {
    if numIters > 0 then numIters else 0
  }
}
