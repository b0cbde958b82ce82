/**
 * The inference script `converter.py`: it converts the utterances of a source speaker into
 * the voice of a target speaker. The model covers the path and label bookkeeping, the lookup
 * of spectrograms and embeddings, the checkpoint-field fallbacks, the padding around the
 * generator call and the two loops (one building `spect_vc`, one writing `.wav` files).
 * The generator and the vocoder are parameters; the file system is the value `Disk` plus the
 * output folder `AudioStore`.
 */
module Converter {
  import opened Wrappers
  import opened PyText
  import opened Padding
  import opened Embeddings
  import opened Checkpoints

  /** A spectrogram as `np.load` yields it: `frames` rows of `width` mel values each. */
  datatype Mel = Mel(width: nat, frames: seq<seq<real>>)

  /**
   * What the script reads from disk: the checkpoints `torch.load` can open, the metadata tables
   * `pickle.load` can open, the `.npy` spectrogram files, and under the wav folder the files and
   * the directories, each directory with the file names `os.walk` lists for every directory it
   * visits below it, in walk order.
   */
  datatype Disk = Disk(
    checkpoints: map<string, Checkpoint>,
    tables: map<string, seq<MetaEntry>>,
    spmels: map<string, Mel>,
    wavFiles: set<string>,
    wavDirs: map<string, seq<seq<string>>>)

  /** The command-line arguments the function body reads through the global `args`. */
  datatype Globals = Globals(model: string, spmelFolder: string, metadata: string)

  /**
   * How the script stops: an `Exception` it raises itself, the `TypeError` of a call that
   * lacks an argument, an `IndexError`, the `FileExistsError` of `os.mkdir` on a path that is a
   * regular file, or a failure inside `torch.load`, `load_state_dict` or `pickle.load`, whose
   * message is not modelled.
   */
  datatype Error = Exception(message: string) | TypeError(message: string) | IndexError | FileExistsError(path: string) | LoadFailure

  /** A converted utterance: its output name and the generator's trimmed spectrogram. */
  datatype Conversion = Conversion(name: string, frames: seq<seq<real>>)

  /** The generator's conversion output `x_identic_psnt[0, 0]` for a padded spectrogram and two embeddings. */
  type Generate = (HParams, Weights, seq<seq<real>>, seq<seq<real>>, seq<seq<real>>) -> seq<seq<real>>

  /** `wavegen(model, c=c)`: the vocoder's waveform for a spectrogram. */
  type Vocode = seq<seq<real>> -> seq<real>

  const MissingSpmelFolder := "get_uttr_melspect() missing 1 required positional argument: 'spmelFolder'"

  /** `s.replace('\\', '/')`. */
  function NormaliseSlashes(s: string): (r: string)
    ensures |r| == |s| && '\\' !in r
    ensures forall k :: 0 <= k < |s| ==> r[k] == (if s[k] == '\\' then '/' else s[k])
  {
    ReplaceChar(s, '\\', '/')
  }

  /** `s.split('/')[0]`: everything before the first `/`, or all of `s` when it has none. */
  function Person(s: string): (r: string)
    ensures '/' !in r
    ensures |r| <= |s| && s[..|r|] == r
    ensures |r| < |s| ==> s[|r|] == '/'
  {
    JoinSplit(s, '/');
    var parts := Split(s, '/');
    assert |parts| > 1 ==> Join(['/'], parts) == parts[0] + ['/'] + Join(['/'], parts[1..]);
    parts[0]
  }

  /** Line 51: the speaker, `/`, then the remaining components glued together without a separator. */
  function SpmelPathOf(s: string): string
  {
    PathJoin(Person(s), Join("", Split(s, '/')[1..]))
  }

  /** The single-file spectrogram path has exactly two components: the speaker and the glued rest. */
  lemma SpmelPathComponents(s: string)
    requires Person(s) != ""
    ensures Split(SpmelPathOf(s), '/') == [Person(s), Join("", Split(s, '/')[1..])]
  {
    var rest := Split(s, '/')[1..];
    JoinWithoutSeparator(rest);
    PathJoinComponents(Person(s), Join("", rest));
  }

  /** Gluing components without `/` in them gives a string without `/`. */
  lemma {:induction false} JoinWithoutSeparator(parts: seq<string>)
    requires forall k :: 0 <= k < |parts| ==> '/' !in parts[k]
    ensures '/' !in Join("", parts)
  {
    if |parts| > 1 {
      JoinWithoutSeparator(parts[1..]);
      assert Join("", parts) == parts[0] + "" + Join("", parts[1..]);
    }
  }

  /** The file names of all directories an `os.walk` visits, in walk order. */
  function Flatten(walk: seq<seq<string>>): (files: seq<string>)
  {
    if |walk| == 0 then [] else walk[0] + Flatten(walk[1..])
  }

  /** A name is listed exactly when some visited directory holds it: only file names, no directory part. */
  lemma {:induction false} FlattenMembers(walk: seq<seq<string>>, f: string)
    ensures f in Flatten(walk) <==> exists d :: 0 <= d < |walk| && f in walk[d]
  {
    if |walk| > 0 {
      FlattenMembers(walk[1..], f);
      if f in Flatten(walk[1..]) {
        var d :| 0 <= d < |walk[1..]| && f in walk[1..][d];
        assert f in walk[d + 1];
      }
      if exists d :: 0 <= d < |walk| && f in walk[d] {
        var d :| 0 <= d < |walk| && f in walk[d];
        if d > 0 {
          assert f in walk[1..][d - 1];
        }
      }
    }
  }

  function WrongPathMessage(path: string): string
  {
    "Wrong path: " + path
  }

  /**
   * `X_orgs` (lines 71-77): for a file, its single-file spectrogram path; for a directory,
   * `source/<file>` for every walked file; otherwise `Wrong path: <wavsFolder/source>`.
   */
  function Utterances(disk: Disk, wavsFolder: string, source: string): (r: Result<seq<string>, Error>)
    ensures var path := PathJoin(wavsFolder, source);
      && (path in disk.wavFiles ==> r == Success([SpmelPathOf(source)]))
      && (path !in disk.wavFiles && path in disk.wavDirs ==>
            r.Success? && |r.value| == |Flatten(disk.wavDirs[path])|
            && forall j :: 0 <= j < |r.value| ==> r.value[j] == PathJoin(source, Flatten(disk.wavDirs[path])[j]))
      && (path !in disk.wavFiles && path !in disk.wavDirs ==> r == Failure(Exception(WrongPathMessage(path))))
  {
    var path := PathJoin(wavsFolder, source);
    if path in disk.wavFiles then Success([SpmelPathOf(source)])
    else if path in disk.wavDirs then
      var files := Flatten(disk.wavDirs[path]);
      Success(seq(|files|, j requires 0 <= j < |files| => PathJoin(source, files[j])))
    else Failure(Exception(WrongPathMessage(path)))
  }

  /** Line 81: the components after the first, joined with `__`. */
  function SourceFile(x: string): string
  {
    Join("__", Split(x, '/')[1..])
  }

  /** A speaker-relative path `a/b` has source file `b`. */
  lemma SourceFileOfTwoComponents(a: string, b: string)
    requires a != "" && '/' !in a && '/' !in b
    ensures SourceFile(PathJoin(a, b)) == b
  {
    PathJoinComponents(a, b);
    assert Split(PathJoin(a, b), '/')[1..] == [b];
  }

  /** Line 91: `'{}_{}_by_{}'.format(source_person, source_file[:-4], target_person)`. */
  function Label(sourcePerson: string, sourceFile: string, targetPerson: string): string
  {
    sourcePerson + "_" + SliceToNeg(sourceFile, 4) + "_by_" + targetPerson
  }

  /** For fixed speakers a label names its stem: different stems never share an output name. */
  lemma LabelDeterminesStem(sourcePerson: string, f: string, g: string, targetPerson: string)
    requires Label(sourcePerson, f, targetPerson) == Label(sourcePerson, g, targetPerson)
    ensures SliceToNeg(f, 4) == SliceToNeg(g, 4)
  {
    var pre, post := sourcePerson + "_", "_by_" + targetPerson;
    assert Label(sourcePerson, f, targetPerson) == pre + SliceToNeg(f, 4) + post;
    assert Label(sourcePerson, g, targetPerson) == pre + SliceToNeg(g, 4) + post;
    FramedInjective(pre, SliceToNeg(f, 4), SliceToNeg(g, 4), post);
  }

  /** Line 30: `spmelFolder/` + the wav path with its last four characters replaced by `.npy`. */
  function PrimarySpmelPath(spmelFolder: string, wav: string): (r: string)
    ensures spmelFolder != "" && spmelFolder[|spmelFolder| - 1] != '/' && |wav| > 4 && wav[0] != '/'
      ==> r == spmelFolder + "/" + wav[..|wav| - 4] + ".npy"
  {
    PathJoin(spmelFolder, SliceToNeg(wav, 4) + ".npy")
  }

  /**
   * Line 35: the third-from-last component of a path joined with the last two glued together;
   * `IndexError` when the path has fewer than three components.
   */
  function AlternateSuffix(p: string): (r: Option<string>)
    ensures var parts := Split(p, '/');
      && (r.Some? <==> |parts| >= 3)
      && (r.Some? ==> r.value == PathJoin(parts[|parts| - 3], parts[|parts| - 2] + parts[|parts| - 1]))
  {
    var parts := Split(p, '/');
    match ThirdFromLast(parts)
    case None => None
    case Some(third) =>
      GlueLastTwo(parts);
      Some(PathJoin(third, Join("", LastTwo(parts))))
  }

  /** `''.join(l[-2:])` for a list of at least two strings concatenates the last two. */
  lemma GlueLastTwo(parts: seq<string>)
    requires |parts| >= 2
    ensures Join("", LastTwo(parts)) == parts[|parts| - 2] + parts[|parts| - 1]
  {
    var lastTwo := LastTwo(parts);
    assert lastTwo == [parts[|parts| - 2], parts[|parts| - 1]];
    assert lastTwo[1..] == [parts[|parts| - 1]];
  }

  function MissingSpectrogramMessage(wav: string): string
  {
    "The spectogram for " + wav + " does not exist, auto-convert is not supported yet."
  }

  /**
   * `get_uttr_melspect(uttr_wav_path, spmelFolder)` (lines 29-42): the spectrogram at the primary
   * path when that file exists. Otherwise the alternate candidate under the global
   * `args.spmelFolder` is looked for; when it exists, line 38 calls the function again without
   * `spmelFolder` and so raises `TypeError`; when it does not, the "does not exist" exception.
   */
  function UttrMelspect(disk: Disk, globals: Globals, wav: string, spmelFolder: string): (r: Result<Mel, Error>)
    ensures r.Success? <==> PrimarySpmelPath(spmelFolder, wav) in disk.spmels
    ensures r.Success? ==> r.value == disk.spmels[PrimarySpmelPath(spmelFolder, wav)]
    ensures r.Failure? && AlternateSuffix(PrimarySpmelPath(spmelFolder, wav)).None? ==> r.error == IndexError
    ensures r.Failure? && AlternateSuffix(PrimarySpmelPath(spmelFolder, wav)).Some? ==>
      r.error == if PathJoin(globals.spmelFolder, AlternateSuffix(PrimarySpmelPath(spmelFolder, wav)).value) in disk.spmels
                 then TypeError(MissingSpmelFolder)
                 else Exception(MissingSpectrogramMessage(wav))
  {
    var path := PrimarySpmelPath(spmelFolder, wav);
    if path in disk.spmels then Success(disk.spmels[path])
    else
      match AlternateSuffix(path)
      case None => Failure(IndexError)
      case Some(suffix) =>
        if PathJoin(globals.spmelFolder, suffix) in disk.spmels then Failure(TypeError(MissingSpmelFolder))
        else Failure(Exception(MissingSpectrogramMessage(wav)))
  }

  /**
   * Lines 61-64: the generator is built from `hyperparams` (the default record when absent) and
   * loads `G_state_dict`, or `model` when that key is absent. `load_state_dict` fails on a
   * missing dictionary and on weights laid out for another architecture.
   */
  function LoadGenerator(c: Checkpoint): (r: Result<(HParams, Weights), Error>)
    ensures r.Success? <==> c.Bundle? && WeightsOrLegacy(c).Some? && WeightsOrLegacy(c).value.shape == ShapeOf(HParamsOrDefault(c))
    ensures r.Success? ==> r.value == (HParamsOrDefault(c), WeightsOrLegacy(c).value)
    ensures r.Failure? ==> r.error == LoadFailure
  {
    if !c.Bundle? then Failure(LoadFailure)
    else
      var h := HParamsOrDefault(c);
      match WeightsOrLegacy(c)
      case None => Failure(LoadFailure)
      case Some(w) => if w.shape == ShapeOf(h) then Success((h, w)) else Failure(LoadFailure)
  }

  /** A bundle without `hyperparams` needs weights of the default layout (32, 256, 512). */
  lemma DefaultLayout(w: Weights, opt: Option<OptState>, loss: Option<seq<real>>)
    ensures LoadGenerator(Bundle(Some(w), None, None, opt, loss)).Success?
        <==> w.shape == Shape(32, 256, 512)
  {
  }

  /** Everything the per-utterance step needs from the set-up before the loop. */
  datatype Setup = Setup(h: HParams, g: Weights, embOrg: seq<seq<real>>, embTrg: seq<seq<real>>,
                         sourcePerson: string, targetPerson: string)

  /**
   * One pass of the body of the loop at lines 79-91: normalise the path, load its spectrogram,
   * pad it to a multiple of 32 frames, run the generator and trim the padding off again.
   */
  function ConvertOne(disk: Disk, globals: Globals, spmelFolder: string, setup: Setup, generate: Generate, x: string): (r: Result<Conversion, Error>)
    ensures r.Success? <==> UttrMelspect(disk, globals, NormaliseSlashes(x), spmelFolder).Success?
    ensures r.Failure? ==> r.error == UttrMelspect(disk, globals, NormaliseSlashes(x), spmelFolder).error
    ensures r.Success? ==> r.value.name == Label(setup.sourcePerson, SourceFile(NormaliseSlashes(x)), setup.targetPerson)
    ensures r.Success? ==>
      r.value.frames == Trim(generate(setup.h, setup.g,
                                      PadSeq(UttrMelspect(disk, globals, NormaliseSlashes(x), spmelFolder).value.frames,
                                             UttrMelspect(disk, globals, NormaliseSlashes(x), spmelFolder).value.width, DefaultBase).0,
                                      setup.embOrg, setup.embTrg),
                             PadSeq(UttrMelspect(disk, globals, NormaliseSlashes(x), spmelFolder).value.frames,
                                    UttrMelspect(disk, globals, NormaliseSlashes(x), spmelFolder).value.width, DefaultBase).1)
  {
    var x1 := NormaliseSlashes(x);
    var sourceFile := SourceFile(x1);
    match UttrMelspect(disk, globals, x1, spmelFolder)
    case Failure(e) => Failure(e)
    case Success(mel) =>
      var (padded, lenPad) := PadSeq(mel.frames, mel.width, DefaultBase);
      var y := generate(setup.h, setup.g, padded, setup.embOrg, setup.embTrg);
      Success(Conversion(Label(setup.sourcePerson, sourceFile, setup.targetPerson), Trim(y, lenPad)))
  }

  /** A generator that keeps the number of frames yields an output as long as the stored spectrogram. */
  lemma ConvertOneKeepsLength(disk: Disk, globals: Globals, spmelFolder: string, setup: Setup, generate: Generate, x: string)
    requires forall h, g, x, e, t :: |generate(h, g, x, e, t)| == |x|
    requires ConvertOne(disk, globals, spmelFolder, setup, generate, x).Success?
    ensures |ConvertOne(disk, globals, spmelFolder, setup, generate, x).value.frames|
         == |UttrMelspect(disk, globals, NormaliseSlashes(x), spmelFolder).value.frames|
  {
    var mel := UttrMelspect(disk, globals, NormaliseSlashes(x), spmelFolder).value;
    TrimKeepsOriginalLength(generate(setup.h, setup.g, PadSeq(mel.frames, mel.width, DefaultBase).0, setup.embOrg, setup.embTrg),
                            mel.frames, mel.width, DefaultBase);
  }

  /** The padding is invisible in the output: a generator that returns its input gives back the stored frames. */
  lemma ConvertOneIdentity(disk: Disk, globals: Globals, spmelFolder: string, setup: Setup, generate: Generate, x: string)
    requires forall h, g, x, e, t :: generate(h, g, x, e, t) == x
    requires ConvertOne(disk, globals, spmelFolder, setup, generate, x).Success?
    ensures ConvertOne(disk, globals, spmelFolder, setup, generate, x).value.frames
         == UttrMelspect(disk, globals, NormaliseSlashes(x), spmelFolder).value.frames
  {
    var mel := UttrMelspect(disk, globals, NormaliseSlashes(x), spmelFolder).value;
    TrimUndoesPad(mel.frames, mel.width, DefaultBase);
  }

  /**
   * Running steps one after another until one raises: the values of all of them, or the error
   * of the first that fails.
   */
  function Collect<T, E>(rs: seq<Result<T, E>>): Result<seq<T>, E>
    decreases |rs|
  {
    if |rs| == 0 then Success([])
    else
      match Collect(rs[..|rs| - 1])
      case Failure(e) => Failure(e)
      case Success(done) =>
        match rs[|rs| - 1]
        case Failure(e) => Failure(e)
        case Success(v) => Success(done + [v])
  }

  /** `Collect` succeeds exactly when every step does, and then yields their values in order. */
  lemma {:induction false} CollectSuccess<T, E>(rs: seq<Result<T, E>>)
    ensures Collect(rs).Success? <==> forall j :: 0 <= j < |rs| ==> rs[j].Success?
    ensures Collect(rs).Success? ==>
      |Collect(rs).value| == |rs| && forall j :: 0 <= j < |rs| ==> rs[j] == Success(Collect(rs).value[j])
    decreases |rs|
  {
    if |rs| > 0 {
      var init := rs[..|rs| - 1];
      CollectSuccess(init);
      assert forall j :: 0 <= j < |init| ==> init[j] == rs[j];
    }
  }

  /** One more step: its value is appended, or its error ends the run. */
  lemma CollectExtend<T, E>(rs: seq<Result<T, E>>, k: nat)
    requires k < |rs| && Collect(rs[..k]).Success?
    ensures Collect(rs[..k + 1])
         == if rs[k].Success? then Success(Collect(rs[..k]).value + [rs[k].value]) else Failure(rs[k].error)
  {
    assert rs[..k + 1][..k] == rs[..k];
  }

  /** A failure among the first `k` steps is the failure of the whole run. */
  lemma {:induction false} CollectFailureSticks<T, E>(rs: seq<Result<T, E>>, k: nat)
    requires k <= |rs| && Collect(rs[..k]).Failure?
    ensures Collect(rs) == Collect(rs[..k])
    decreases |rs| - k
  {
    if k < |rs| {
      assert rs[..k + 1][..k] == rs[..k];
      CollectFailureSticks(rs, k + 1);
    } else {
      assert rs[..k] == rs;
    }
  }

  /** When step `i` is the first that fails, the run fails with its error. */
  lemma CollectFirstFailure<T, E>(rs: seq<Result<T, E>>, i: nat)
    requires i < |rs| && rs[i].Failure?
    requires forall j :: 0 <= j < i ==> rs[j].Success?
    ensures Collect(rs) == Failure(rs[i].error)
  {
    var init := rs[..i];
    assert forall j :: 0 <= j < |init| ==> init[j] == rs[j];
    CollectSuccess(init);
    assert rs[..i + 1][..i] == init;
    CollectFailureSticks(rs, i + 1);
  }

  /** What each pass of the loop at lines 79-91 would yield for `xs`. */
  function Outcomes(disk: Disk, globals: Globals, spmelFolder: string, setup: Setup, generate: Generate, xs: seq<string>): (rs: seq<Result<Conversion, Error>>)
    ensures |rs| == |xs|
    ensures forall j :: 0 <= j < |xs| ==> rs[j] == ConvertOne(disk, globals, spmelFolder, setup, generate, xs[j])
  {
    seq(|xs|, j requires 0 <= j < |xs| => ConvertOne(disk, globals, spmelFolder, setup, generate, xs[j]))
  }

  /** The loop at lines 79-91 over `xs`: the conversions in order, or the error of the first utterance that fails. */
  function ConvertAll(disk: Disk, globals: Globals, spmelFolder: string, setup: Setup, generate: Generate, xs: seq<string>): Result<seq<Conversion>, Error>
  {
    Collect(Outcomes(disk, globals, spmelFolder, setup, generate, xs))
  }

  /** The loop yields one conversion per utterance, in order, exactly when every utterance converts. */
  lemma ConvertAllSuccess(disk: Disk, globals: Globals, spmelFolder: string, setup: Setup, generate: Generate, xs: seq<string>)
    ensures ConvertAll(disk, globals, spmelFolder, setup, generate, xs).Success?
        <==> forall j :: 0 <= j < |xs| ==> ConvertOne(disk, globals, spmelFolder, setup, generate, xs[j]).Success?
    ensures ConvertAll(disk, globals, spmelFolder, setup, generate, xs).Success? ==>
      && |ConvertAll(disk, globals, spmelFolder, setup, generate, xs).value| == |xs|
      && forall j :: 0 <= j < |xs| ==>
           ConvertOne(disk, globals, spmelFolder, setup, generate, xs[j]) == Success(ConvertAll(disk, globals, spmelFolder, setup, generate, xs).value[j])
  {
    CollectSuccess(Outcomes(disk, globals, spmelFolder, setup, generate, xs));
  }

  /** When utterance `i` is the first whose spectrogram cannot be loaded, the loop raises its error. */
  lemma ConvertAllFirstFailure(disk: Disk, globals: Globals, spmelFolder: string, setup: Setup, generate: Generate, xs: seq<string>, i: nat)
    requires i < |xs| && ConvertOne(disk, globals, spmelFolder, setup, generate, xs[i]).Failure?
    requires forall j :: 0 <= j < i ==> ConvertOne(disk, globals, spmelFolder, setup, generate, xs[j]).Success?
    ensures ConvertAll(disk, globals, spmelFolder, setup, generate, xs)
         == Failure(UttrMelspect(disk, globals, NormaliseSlashes(xs[i]), spmelFolder).error)
  {
    CollectFirstFailure(Outcomes(disk, globals, spmelFolder, setup, generate, xs), i);
  }

  /**
   * The set-up of `converter` (lines 46-77): normalise the two paths, load the generator from
   * `args.model`, the metadata from `args.spmelFolder/args.metadata`, look up both embeddings
   * and expand the source into its utterances.
   */
  function Prepare(disk: Disk, globals: Globals, source: string, target: string, wavsFolder: string): Result<(Setup, seq<string>), Error>
  {
    var src := NormaliseSlashes(source);
    var sourcePerson := Person(src);
    var targetPerson := Person(NormaliseSlashes(target));
    if globals.model !in disk.checkpoints then Failure(LoadFailure)
    else
      match LoadGenerator(disk.checkpoints[globals.model])
      case Failure(e) => Failure(e)
      case Success((h, g)) =>
        var tablePath := PathJoin(globals.spmelFolder, globals.metadata);
        if tablePath !in disk.tables then Failure(LoadFailure)
        else
          var table := disk.tables[tablePath];
          match EmbeddingFor(table, sourcePerson)
          case Failure(m) => Failure(Exception(m))
          case Success(embOrg) =>
            match EmbeddingFor(table, targetPerson)
            case Failure(m) => Failure(Exception(m))
            case Success(embTrg) =>
              match Utterances(disk, wavsFolder, src)
              case Failure(e) => Failure(e)
              case Success(xs) => Success((Setup(h, g, embOrg, embTrg, sourcePerson, targetPerson), xs))
  }

  /**
   * The whole of `converter` up to the vocoder, as a value: the set-up, then every utterance
   * converted. `modelCkpt` and `metadataDir` are accepted but not read.
   */
  function Conversions(disk: Disk, globals: Globals, modelCkpt: string, source: string, target: string,
                       spmelFolder: string, wavsFolder: string, metadataDir: string, generate: Generate): Result<seq<Conversion>, Error>
  {
    match Prepare(disk, globals, source, target, wavsFolder)
    case Failure(e) => Failure(e)
    case Success((setup, xs)) => ConvertAll(disk, globals, spmelFolder, setup, generate, xs)
  }

  /**
   * One output per utterance, in `X_orgs` order, each named
   * `<source_person>_<stem>_by_<target_person>` after its own normalised path.
   */
  lemma ConversionLabels(disk: Disk, globals: Globals, modelCkpt: string, source: string, target: string,
                         spmelFolder: string, wavsFolder: string, metadataDir: string, generate: Generate)
    requires Conversions(disk, globals, modelCkpt, source, target, spmelFolder, wavsFolder, metadataDir, generate).Success?
    ensures Utterances(disk, wavsFolder, NormaliseSlashes(source)).Success?
    ensures |Conversions(disk, globals, modelCkpt, source, target, spmelFolder, wavsFolder, metadataDir, generate).value|
         == |Utterances(disk, wavsFolder, NormaliseSlashes(source)).value|
    ensures forall j :: 0 <= j < |Utterances(disk, wavsFolder, NormaliseSlashes(source)).value| ==>
      Conversions(disk, globals, modelCkpt, source, target, spmelFolder, wavsFolder, metadataDir, generate).value[j].name
      == Label(Person(NormaliseSlashes(source)),
               SourceFile(NormaliseSlashes(Utterances(disk, wavsFolder, NormaliseSlashes(source)).value[j])),
               Person(NormaliseSlashes(target)))
  {
    var prepared := Prepare(disk, globals, source, target, wavsFolder);
    assert prepared.Success?;
    var setup := prepared.value.0;
    CollectSuccess(Outcomes(disk, globals, spmelFolder, setup, generate, prepared.value.1));
  }

  /** The path `sf.write` writes a converted utterance to: `f'{outputFolder}/{name}.wav'`. */
  function WavPath(outputFolder: string, name: string): string
  {
    outputFolder + "/" + name + ".wav"
  }

  /** The output files after the write loop over `spects`: later outputs of the same name overwrite earlier ones. */
  function Written(wavs: map<string, seq<real>>, outputFolder: string, spects: seq<Conversion>, vocode: Vocode): map<string, seq<real>>
    decreases |spects|
  {
    if |spects| == 0 then wavs
    else
      var last := spects[|spects| - 1];
      Written(wavs, outputFolder, spects[..|spects| - 1], vocode)[WavPath(outputFolder, last.name) := vocode(last.frames)]
  }

  /** Conversion `j` is the last one written to `path`. */
  predicate LastWrittenAt(outputFolder: string, spects: seq<Conversion>, path: string, j: int)
  {
    && 0 <= j < |spects|
    && WavPath(outputFolder, spects[j].name) == path
    && forall l :: j < l < |spects| ==> WavPath(outputFolder, spects[l].name) != path
  }

  /** After the write loop the files are the old ones plus one `.wav` per conversion name. */
  lemma {:induction false} WrittenPaths(wavs: map<string, seq<real>>, outputFolder: string, spects: seq<Conversion>, vocode: Vocode, path: string)
    ensures path in Written(wavs, outputFolder, spects, vocode) <==>
      path in wavs || exists j :: 0 <= j < |spects| && WavPath(outputFolder, spects[j].name) == path
    decreases |spects|
  {
    if |spects| > 0 {
      var init := spects[..|spects| - 1];
      WrittenPaths(wavs, outputFolder, init, vocode, path);
      if exists j :: 0 <= j < |init| && WavPath(outputFolder, init[j].name) == path {
        var j :| 0 <= j < |init| && WavPath(outputFolder, init[j].name) == path;
        assert spects[j] == init[j];
      }
      if exists j :: 0 <= j < |spects| && WavPath(outputFolder, spects[j].name) == path {
        var j :| 0 <= j < |spects| && WavPath(outputFolder, spects[j].name) == path;
        if j < |init| {
          assert spects[j] == init[j];
        }
      }
    }
  }

  /** A name written more than once holds the waveform of its LAST conversion. */
  lemma {:induction false} WrittenLastWins(wavs: map<string, seq<real>>, outputFolder: string, spects: seq<Conversion>, vocode: Vocode, path: string, j: int)
    requires LastWrittenAt(outputFolder, spects, path, j)
    ensures path in Written(wavs, outputFolder, spects, vocode)
    ensures Written(wavs, outputFolder, spects, vocode)[path] == vocode(spects[j].frames)
    decreases |spects|
  {
    var init := spects[..|spects| - 1];
    if j < |init| {
      assert forall l :: j < l < |init| ==> init[l] == spects[l];
      WrittenLastWins(wavs, outputFolder, init, vocode, path, j);
    }
  }

  /** Files no conversion is named after keep their contents. */
  lemma {:induction false} WrittenKeepsOthers(wavs: map<string, seq<real>>, outputFolder: string, spects: seq<Conversion>, vocode: Vocode, path: string)
    requires path in wavs
    requires forall j :: 0 <= j < |spects| ==> WavPath(outputFolder, spects[j].name) != path
    ensures path in Written(wavs, outputFolder, spects, vocode)
    ensures Written(wavs, outputFolder, spects, vocode)[path] == wavs[path]
    decreases |spects|
  {
    if |spects| > 0 {
      var init := spects[..|spects| - 1];
      assert forall j :: 0 <= j < |init| ==> init[j] == spects[j];
      WrittenKeepsOthers(wavs, outputFolder, init, vocode, path);
    }
  }

  /** The output side of the file system: its directories and its regular files, among them the `.wav` files written. */
  class AudioStore {
    var dirs: set<string>
    var wavs: map<string, seq<real>>

    constructor (dirs0: set<string>, wavs0: map<string, seq<real>>)
      ensures dirs == dirs0 && wavs == wavs0
    {
      dirs := dirs0;
      wavs := wavs0;
    }

    /**
     * `if not os.path.isdir(d): os.mkdir(d)`: fails with `FileExistsError` when `d` is a regular
     * file, and otherwise leaves `d` a directory.
     */
    method MakeDir(d: string) returns (r: Result<(), Error>)
      modifies this
      ensures r.Failure? <==> IsRegularFile(old(wavs), old(dirs), d)
      ensures r.Failure? ==> r.error == FileExistsError(d)
      ensures dirs == (if r.Failure? then old(dirs) else old(dirs) + {d}) && wavs == old(wavs)
    {
      if d !in dirs {
        if d in wavs {
          return Failure(FileExistsError(d));
        }
        dirs := dirs + {d};
      }
      r := Success(());
    }

    /** `sf.write(path, waveform, samplerate=16000)`: the file now holds the waveform. */
    method Write(path: string, waveform: seq<real>)
      modifies this
      ensures wavs == old(wavs)[path := waveform] && dirs == old(dirs)
    {
      wavs := wavs[path := waveform];
    }

    /** The loop at lines 100-104: vocode and write every conversion, in order. */
    method WriteAll(outputFolder: string, spects: seq<Conversion>, vocode: Vocode)
      modifies this
      ensures wavs == Written(old(wavs), outputFolder, spects, vocode) && dirs == old(dirs)
    {
      var j := 0;
      while j < |spects|
        invariant 0 <= j <= |spects|
        invariant wavs == Written(old(wavs), outputFolder, spects[..j], vocode) && dirs == old(dirs)
      {
        var spect := spects[j];
        Write(WavPath(outputFolder, spect.name), vocode(spect.frames));
        assert spects[..j + 1][..j] == spects[..j];
        j := j + 1;
      }
      assert spects[..j] == spects;
    }
  }

  /** The set-up of `converter`, with the embedding look-ups done by their loops. */
  method PrepareRun(disk: Disk, globals: Globals, source: string, target: string, wavsFolder: string)
    returns (r: Result<(Setup, seq<string>), Error>)
    ensures r == Prepare(disk, globals, source, target, wavsFolder)
  {
    var src := NormaliseSlashes(source);
    var sourcePerson := Person(src);
    var targetPerson := Person(NormaliseSlashes(target));
    if globals.model !in disk.checkpoints {
      return Failure(LoadFailure);
    }
    var loaded := LoadGenerator(disk.checkpoints[globals.model]);
    if loaded.Failure? {
      return Failure(loaded.error);
    }
    var tablePath := PathJoin(globals.spmelFolder, globals.metadata);
    if tablePath !in disk.tables {
      return Failure(LoadFailure);
    }
    var embOrg := GetEmbedding(disk.tables[tablePath], sourcePerson);
    if embOrg.Failure? {
      return Failure(Exception(embOrg.error));
    }
    var embTrg := GetEmbedding(disk.tables[tablePath], targetPerson);
    if embTrg.Failure? {
      return Failure(Exception(embTrg.error));
    }
    var utterances := Utterances(disk, wavsFolder, src);
    if utterances.Failure? {
      return Failure(utterances.error);
    }
    r := Success((Setup(loaded.value.0, loaded.value.1, embOrg.value, embTrg.value, sourcePerson, targetPerson), utterances.value));
  }

  /** The loop at lines 79-91: builds `spect_vc`, stopping at the first utterance that fails. */
  method ConvertEach(disk: Disk, globals: Globals, spmelFolder: string, setup: Setup, generate: Generate, xs: seq<string>)
    returns (r: Result<seq<Conversion>, Error>)
    ensures r == ConvertAll(disk, globals, spmelFolder, setup, generate, xs)
  {
    ghost var rs := Outcomes(disk, globals, spmelFolder, setup, generate, xs);
    var spectVc: seq<Conversion> := [];
    var k := 0;
    while k < |xs|
      invariant 0 <= k <= |xs|
      invariant Collect(rs[..k]) == Success(spectVc)
    {
      var one := ConvertOne(disk, globals, spmelFolder, setup, generate, xs[k]);
      CollectExtend(rs, k);
      assert rs[k] == one;
      if one.Failure? {
        CollectFailureSticks(rs, k + 1);
        return Failure(one.error);
      }
      spectVc := spectVc + [one.value];
      k := k + 1;
    }
    assert rs[..k] == rs;
    r := Success(spectVc);
  }

  /**
   * `converter(...)`: creates the output folder, converts every utterance and, when all
   * succeed, writes one waveform per conversion. An exception leaves the `.wav` files
   * untouched: nothing is written before all conversions are done. When the output folder is a
   * regular file, `os.mkdir` raises before anything is loaded.
   */
  method Convert(disk: Disk, globals: Globals, modelCkpt: string, source: string, target: string,
                 spmelFolder: string, wavsFolder: string, metadataDir: string, outputFolder: string,
                 out: AudioStore, generate: Generate, vocode: Vocode)
    returns (r: Result<seq<Conversion>, Error>)
    modifies out
    ensures r == if IsRegularFile(old(out.wavs), old(out.dirs), outputFolder) then Failure(FileExistsError(outputFolder))
                 else Conversions(disk, globals, modelCkpt, source, target, spmelFolder, wavsFolder, metadataDir, generate)
    ensures out.dirs == if IsRegularFile(old(out.wavs), old(out.dirs), outputFolder) then old(out.dirs) else old(out.dirs) + {outputFolder}
    ensures out.wavs == if r.Success? then Written(old(out.wavs), outputFolder, r.value, vocode) else old(out.wavs)
  {
    var made := out.MakeDir(outputFolder);
    if made.Failure? {
      return Failure(made.error);
    }
    var prepared := PrepareRun(disk, globals, source, target, wavsFolder);
    if prepared.Failure? {
      return Failure(prepared.error);
    }
    r := ConvertEach(disk, globals, spmelFolder, prepared.value.0, generate, prepared.value.1);
    if r.Success? {
      out.WriteAll(outputFolder, r.value, vocode);
    }
  }
}
