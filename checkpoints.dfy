/**
 * The checkpoint bundles both solvers write and read, and the store they live in.
 * A bundle is the dictionary handed to `torch.save`; each of its keys may be absent.
 * Serialisation itself is not modelled: the store maps a path to the bundle saved there.
 */
module Checkpoints {
  import opened Wrappers

  /** The `hyperparams` record: `dim_neck`, `dim_emb`, `dim_pre`, `freq`. */
  datatype HParams = HParams(dimNeck: int, dimEmb: int, dimPre: int, freq: int)

  /** The record the converter falls back to when a bundle has no `hyperparams`. */
  const DefaultHParams := HParams(32, 256, 512, 32)

  /** The parameter layout of a Generator; the frequency divisor does not enter it. */
  datatype Shape = Shape(dimNeck: int, dimEmb: int, dimPre: int)

  function ShapeOf(h: HParams): Shape
  {
    Shape(h.dimNeck, h.dimEmb, h.dimPre)
  }

  /** A Generator `state_dict`: opaque parameter values laid out for one shape. */
  datatype Weights = Weights(shape: Shape, values: seq<real>)

  /** An Adam optimizer `state_dict`, opaque. */
  datatype OptState = OptState(values: seq<real>)

  /**
   * What `torch.load` yields for a path: a dictionary with the keys `G_state_dict`, `model`
   * (the legacy weights key), `hyperparams`, `g_optimizer_state_dict` and `G_loss`, or a file it
   * cannot read as such.
   */
  datatype Checkpoint =
    | Bundle(gState: Option<Weights>, legacyModel: Option<Weights>, hyperparams: Option<HParams>,
             optimizer: Option<OptState>, gLoss: Option<seq<real>>)
    | Unreadable

  /** The bundle of `save_trainable_model`: hyperparameters, weights, optimizer state and history. */
  function TrainableBundle(h: HParams, g: Weights, opt: OptState, loss: seq<real>): Checkpoint
  {
    Bundle(Some(g), None, Some(h), Some(opt), Some(loss))
  }

  /** The bundle of `save_model`: weights and hyperparameters only. */
  function ModelBundle(h: HParams, g: Weights): Checkpoint
  {
    Bundle(Some(g), None, Some(h), None, None)
  }

  /** `checkpoint.get('hyperparams', default_hparams)`. */
  function HParamsOrDefault(c: Checkpoint): (h: HParams)
    requires c.Bundle?
    ensures c.hyperparams.None? ==> h == HParams(32, 256, 512, 32)
    ensures c.hyperparams.Some? ==> h == c.hyperparams.value
  {
    if c.hyperparams.Some? then c.hyperparams.value else DefaultHParams
  }

  /** `checkpoint.get('G_state_dict', checkpoint.get('model'))`. */
  function WeightsOrLegacy(c: Checkpoint): (w: Option<Weights>)
    requires c.Bundle?
    ensures c.gState.Some? ==> w == c.gState
    ensures c.gState.None? ==> w == c.legacyModel
    ensures w.None? <==> c.gState.None? && c.legacyModel.None?
  {
    if c.gState.Some? then c.gState else c.legacyModel
  }

  function IncorrectPathMessage(path: string): string
  {
    "Incorrect path: " + path
  }

  function CouldNotLoadMessage(path: string): string
  {
    "Could not load model at " + path + "."
  }

  /** A resumed training session: restored weights, optimizer, history and first iteration. */
  datatype Resumed = Resumed(g: Weights, opt: OptState, loss: seq<real>, initIter: nat)

  /** A bundle from which `load_trainable_model` succeeds for a model of the given shape. */
  predicate Resumable(c: Checkpoint, shape: Shape)
  {
    && c.Bundle?
    && c.gState.Some? && c.gState.value.shape == shape
    && c.optimizer.Some?
    && c.gLoss.Some?
  }

  /**
   * The outcome of `load_trainable_model` on `path` (`os.path.exists` holds for files and
   * directories): a missing path is "Incorrect path", any failure inside the `try` is
   * "Could not load model at"; on success the history is restored and `init_iter` is its length.
   */
  function Resume(files: map<string, Checkpoint>, dirs: set<string>, path: string, shape: Shape): (r: Result<Resumed, string>)
    ensures path !in files && path !in dirs ==> r == Failure(IncorrectPathMessage(path))
    ensures (path in files || path in dirs) && !(path in files && Resumable(files[path], shape))
      ==> r == Failure(CouldNotLoadMessage(path))
    ensures r.Success? <==> path in files && Resumable(files[path], shape)
    ensures r.Success? ==> var c := files[path];
      r.value == Resumed(c.gState.value, c.optimizer.value, c.gLoss.value, |c.gLoss.value|)
  {
    if path !in files && path !in dirs then Failure(IncorrectPathMessage(path))
    else if path in dirs && path !in files then Failure(CouldNotLoadMessage(path))
    else
      var c := files[path];
      if Resumable(c, shape) then Success(Resumed(c.gState.value, c.optimizer.value, c.gLoss.value, |c.gLoss.value|))
      else Failure(CouldNotLoadMessage(path))
  }

  /** `G.load_state_dict(checkpoint['G_state_dict'])` succeeds: the key is present and fits the model. */
  predicate WeightsLoad(files: map<string, Checkpoint>, path: string, shape: Shape)
  {
    && path in files && files[path].Bundle?
    && files[path].gState.Some? && files[path].gState.value.shape == shape
  }

  /**
   * The weights and optimizer state a load attempt leaves behind, whether or not it succeeds:
   * `G.load_state_dict` and then `g_optimizer.load_state_dict` run before `G_loss` is read.
   */
  function AfterLoadAttempt(files: map<string, Checkpoint>, path: string, shape: Shape, g: Weights, opt: OptState): (r: (Weights, OptState))
    ensures path in files && Resumable(files[path], shape) ==> r == (files[path].gState.value, files[path].optimizer.value)
    ensures path !in files || !files[path].Bundle? ==> r == (g, opt)
    ensures r.0 == if WeightsLoad(files, path, shape) then files[path].gState.value else g
    ensures r.1 == if WeightsLoad(files, path, shape) && files[path].optimizer.Some? then files[path].optimizer.value else opt
  {
    if path !in files then (g, opt)
    else
      var c := files[path];
      if !c.Bundle? || c.gState.None? || c.gState.value.shape != shape then (g, opt)
      else if c.optimizer.None? then (c.gState.value, opt)
      else (c.gState.value, c.optimizer.value)
  }

  /** Saving a full bundle and resuming from it restores exactly what was saved, and `init_iter` is the history length. */
  lemma SaveThenResume(files: map<string, Checkpoint>, dirs: set<string>, path: string,
                       h: HParams, g: Weights, opt: OptState, loss: seq<real>)
    requires g.shape == ShapeOf(h)
    ensures Resume(files[path := TrainableBundle(h, g, opt, loss)], dirs, path, ShapeOf(h))
         == Success(Resumed(g, opt, loss, |loss|))
  {
  }

  /** A `save_model` bundle lacks the optimizer state and the history, so resuming from it fails. */
  lemma ModelBundleCannotResume(files: map<string, Checkpoint>, dirs: set<string>, path: string,
                                h: HParams, g: Weights, shape: Shape)
    ensures Resume(files[path := ModelBundle(h, g)], dirs, path, shape) == Failure(CouldNotLoadMessage(path))
  {
  }

  /**
   * `d` names a regular file, not a directory: `os.path.exists(d)` holds while `os.path.isdir(d)`
   * does not, so `os.mkdir(d)` raises `FileExistsError` and nothing can be saved inside `d`.
   */
  predicate IsRegularFile<T>(files: map<string, T>, dirs: set<string>, d: string)
  {
    d in files && d !in dirs
  }

  /** The file system as the solvers see it: saved bundles by path, and directories. */
  class CheckpointStore {
    var files: map<string, Checkpoint>
    var dirs: set<string>

    constructor (files0: map<string, Checkpoint>, dirs0: set<string>)
      ensures files == files0 && dirs == dirs0
    {
      files := files0;
      dirs := dirs0;
    }

    /** `torch.save(bundle, path)`: the path now holds the bundle, replacing any earlier file. */
    method Save(path: string, c: Checkpoint)
      modifies this
      ensures files == old(files)[path := c]
      ensures dirs == old(dirs)
    {
      files := files[path := c];
    }

    /** `if not os.path.exists(d): os.mkdir(d)`: a regular file named `d` also exists, so nothing is made. */
    method EnsureDir(d: string)
      modifies this
      ensures dirs == if IsRegularFile(old(files), old(dirs), d) then old(dirs) else old(dirs) + {d}
      ensures files == old(files)
    {
      if d !in dirs && d !in files {
        dirs := dirs + {d};
      }
    }
  }
}
