# AutoVC voice conversion: bookkeeping model

This project models the deterministic bookkeeping of an AutoVC voice-conversion repository. It proves properties of that model in Dafny. It covers:

- the inference script `converter.py`:
  - padding a spectrogram to a multiple of 32 frames and trimming the padding off again;
  - the first-match speaker-embedding lookup;
  - path normalisation and the speaker taken from the path;
  - the single-file and directory expansion of the source;
  - the primary and alternate spectrogram paths and their errors;
  - the output label;
  - the checkpoint-field fallbacks (default hyperparameters, `G_state_dict` or `model`);
  - the loop that builds `spect_vc` and the loop that writes the `.wav` files;
- the identity-mapping trainer `solver_encoder.py`:
  - construction and resume from a checkpoint;
  - the two save formats;
  - the `train` loop as a state machine: iteration range, cyclic batch fetching, one history append per iteration, the log and checkpoint schedules, and the KeyboardInterrupt outcome;
- the circular trainer `solver_encoder_circular.py`:
  - the same `Solver`;
  - the running log sums that are reset after each printed line and divided by `log_step`;
  - the optional speaker-style key;
  - the loss composition.

The neural network is opaque. The Generator forward pass (with its losses) and the backward/Adam step are function parameters of the environment a `train` call runs against. The vocoder is a parameter of `Converter.Convert`. The file system is a value:
- `Converter.Disk` is what the converter reads.
- `Checkpoints.CheckpointStore` is the trainer's store of checkpoints (a class, since `torch.save` and `os.mkdir` change it).
- `Converter.AudioStore` is the output folder.

Module layout:
- `wrappers.dfy`: `Option` and `Result`.
- `arith.dfy`: three facts about multiplication and division: the padding's minimality uses `ScaleStrict`; the batch cycling uses `DivModOfSum`; the circular log-window length uses `MultiplesApart`.
- `pytext.dfy`: the Python string, list and path semantics the code relies on: `str.split`, `sep.join`, `str.replace`, `s[:-k]`, `l[-3]`, `l[-2:]`, `posixpath.join` and `str(n)`.
- `padding.dfy`: `pad_seq` and the trim.
- `embeddings.dfy`: `get_embedding`.
- `checkpoints.dfy`: the checkpoint bundle, `load_trainable_model` as a function, and the checkpoint store.
- `schedule.dfy`: the loader cursor, the save and log schedules, the checkpoint paths and the messages both trainers share.
- `solver_encoder.dfy`: module `IdentitySolver`.
- `solver_encoder_circular.dfy`: module `CircularSolver`.
- `converter.dfy`: module `Converter`.

Each trainer is specified by the mutually recursive functions `Run` (the first `k` iterations of a call) and `Iteration` (iteration `k`). `Solver.Train` is an imperative loop over the class fields, proved to end in the state `Run` prescribes. The lemmas about `Run` state what the loop promises.

`posixpath.join` is modelled in full:
- an absolute second part replaces the first;
- no `/` is added after an empty or `/`-terminated first part.

With a non-empty first part that has no trailing `/`, and a relative second part, it is `a + "/" + b`. `PyText.PathJoin` states that case.

## Model

| member | source | states |
|---|---|---|
| Padding.PaddedLength | converter.py:17 | `len_out` is a multiple of `base`, at least the input length, and less than the length plus `base` |
| Padding.PadSeq | converter.py:16-20 | `0 <= len_pad < base`; the padded length is a multiple of `base`; the input is an unchanged prefix; only zero rows of the same width are appended; the column count is kept |
| Padding.PadSeqIsMinimal | converter.py:17-18 | no multiple of `base` that is at least the input length is shorter than the padded length |
| Padding.Trim | converter.py:87-90 | with `len_pad == 0` every row is kept; otherwise exactly the last `len_pad` rows are dropped |
| Padding.SliceWithoutSpecialCaseLosesRows | converter.py:87-90 | without the `len_pad == 0` branch, `y[:-0]` would return no rows |
| Padding.TrimUndoesPad | converter.py:83-90 | trimming a padded sequence by its `len_pad` returns the original rows |
| Padding.TrimKeepsOriginalLength | converter.py:86-90 | any output as long as the padded input trims to the input's length |
| Embeddings.EmbeddingFor | converter.py:22-26 | succeeds iff some entry's id is `speaker`; the result is the embedding of the first such entry with a leading axis; otherwise the message `Embedding was not found for speaker <speaker>.` |
| Embeddings.GetEmbedding | converter.py:22-26 | the scanning loop with early return yields exactly `EmbeddingFor` |
| Embeddings.FirstEntryWins | converter.py:23-25 | an entry after the first match for the same id never changes the result |
| PyText.ReplaceChar | converter.py:48-49 | same length; each `from` becomes `to`, every other character is kept; no `from` is left |
| PyText.Split | converter.py:50 | at least one part, and no part contains the separator |
| PyText.JoinSplit | converter.py:50-51 | joining the parts of a split with the separator gives back the string |
| PyText.SliceToNeg | converter.py:30 | `s[:-k]` is the prefix of length `len(s) - k` when `0 < k <= len(s)`, and empty otherwise, including `k == 0` |
| PyText.ThirdFromLast | converter.py:35 | `l[-3]` exists iff the list has three elements, and is the third from last |
| PyText.LastTwo | converter.py:35 | `l[-2:]` has two elements, or the whole list when shorter, and is a suffix |
| PyText.PathJoin | converter.py:30 | `posixpath.join`: an absolute second part wins; otherwise the parts are joined, with a `/` only when the first part is non-empty and does not end in `/` |
| PyText.PathJoinComponents | converter.py:51 | joining two `/`-free parts, the first non-empty, splits back into exactly those two parts |
| PyText.NatToString | solver_encoder.py:185 | `str(n)`: at least one digit, every character a digit, a single digit iff `n < 10` |
| PyText.NatToStringInjective | solver_encoder.py:185 | different numbers print differently |
| Converter.NormaliseSlashes | converter.py:48-49 | no backslash is left, and every other character is kept in place |
| Converter.Person | converter.py:50 | the speaker is the longest prefix without `/`, and the path continues with `/` after it when it is longer |
| Converter.SpmelPathOf | converter.py:51 | defines the single-file spectrogram path: `os.path.join` of the speaker and the remaining components concatenated |
| Converter.SpmelPathComponents | converter.py:51 | the single-file spectrogram path is the speaker, `/`, then the remaining components concatenated without separator: exactly two components |
| Converter.JoinWithoutSeparator | converter.py:51 | concatenating `/`-free components gives a `/`-free string |
| Converter.FlattenMembers | converter.py:75 | the walked file list holds exactly the file names of the visited directories |
| Converter.Utterances | converter.py:71-77 | a file yields its single-file spectrogram path; a directory yields `source/<file>` for every walked file, in walk order, with sub-directory names dropped; anything else fails with `Wrong path: <wavsFolder/source>` |
| Converter.SourceFile | converter.py:81 | defines the source file: the components after the first, joined with `__` |
| Converter.SourceFileOfTwoComponents | converter.py:81 | for a path `a/b` the source file is `b` |
| Converter.Label | converter.py:91 | defines the output name `<source_person>_<source_file[:-4]>_by_<target_person>` |
| Converter.LabelDeterminesStem | converter.py:91 | for fixed speakers, two labels are equal only when their stems are |
| Converter.PrimarySpmelPath | converter.py:30 | `spmelFolder/` + the wav path with its last four characters replaced by `.npy` |
| Converter.AlternateSuffix | converter.py:35 | defined iff the path has at least three components; then the third-from-last component joined with the last two glued together |
| Converter.GlueLastTwo | converter.py:35 | `''.join(l[-2:])` on two or more strings is the last two concatenated |
| Converter.UttrMelspect | converter.py:29-42 | succeeds iff the primary `.npy` exists, with its contents; otherwise `IndexError` for a short path, a `TypeError` when the alternate file exists (line 38 omits `spmelFolder`), and else `The spectogram for <wav> does not exist, auto-convert is not supported yet.` |
| Converter.LoadGenerator | converter.py:54-64 | succeeds iff the file is a bundle whose `G_state_dict`, or else `model`, weights fit the layout of `hyperparams` or the default; the result is that layout and those weights |
| Converter.DefaultLayout | converter.py:55-64 | a bundle without `hyperparams` loads iff its weights have the default layout (32, 256, 512) |
| Converter.ConvertOne | converter.py:79-91 | one utterance converts iff its spectrogram loads; otherwise it fails with that error; the output name is `<source_person>_<stem>_by_<target_person>` of its normalised path; the frames are the generator's output on the spectrogram padded to a multiple of 32, with the last `len_pad` rows trimmed off |
| Converter.ConvertOneKeepsLength | converter.py:83-90 | a frame-preserving generator yields as many frames as the stored spectrogram |
| Converter.ConvertOneIdentity | converter.py:83-90 | with a generator returning its input, the output is the stored spectrogram: the padding leaves no trace |
| Converter.CollectSuccess | converter.py:79-91 | the loop succeeds iff every pass does, and yields their values in order |
| Converter.CollectExtend | converter.py:79-91 | one more pass appends its value or ends the loop with its error |
| Converter.CollectFailureSticks | converter.py:79-91 | once a pass fails, later passes change nothing |
| Converter.CollectFirstFailure | converter.py:79-91 | the loop fails with the error of the first failing pass |
| Converter.Outcomes | converter.py:79-91 | one pass result per utterance, in order |
| Converter.ConvertAll | converter.py:79-91 | defines the loop building `spect_vc` as `Collect` of the per-utterance outcomes |
| Converter.ConvertAllSuccess | converter.py:79-91 | `spect_vc` has one conversion per utterance, in `X_orgs` order, iff every utterance converts |
| Converter.ConvertAllFirstFailure | converter.py:79-91 | the first utterance whose spectrogram cannot be loaded decides the error |
| Converter.Prepare | converter.py:48-77 | defines the set-up, in the source's order of failures: the model from `args.model`, the metadata from `args.spmelFolder/args.metadata`, both embeddings, then the utterances |
| Converter.Conversions | converter.py:44-91 | defines `converter` up to the vocoder: the set-up, then `ConvertAll`; `model_ckpt` and `metadata_dir` are not read |
| Converter.ConversionLabels | converter.py:44-91 | a successful run has one output per element of `X_orgs`, each named `<source_person>_<stem>_by_<target_person>`, where the stem is the `__`-join of the components after the first, minus its last four characters |
| Converter.WavPath | converter.py:104 | defines the output path `<outputFolder>/<name>.wav` |
| Converter.Written | converter.py:100-104 | defines the files after the write loop: one map update per conversion, in order |
| Converter.WrittenPaths | converter.py:100-104 | after the write loop the files are the old ones plus `<outputFolder>/<name>.wav` for each conversion |
| Converter.WrittenLastWins | converter.py:100-104 | a name written twice holds the waveform of its last conversion |
| Converter.WrittenKeepsOthers | converter.py:100-104 | files no conversion is named after keep their contents |
| Converter.AudioStore.constructor | converter.py:46-47 | the store starts with the given directories and files |
| Converter.AudioStore.MakeDir | converter.py:46-47 | fails with `FileExistsError` iff `outputFolder` is a regular file, changing nothing; otherwise the directory exists afterwards, and nothing else changes |
| Converter.AudioStore.Write | converter.py:104 | the path holds the waveform, and nothing else changes |
| Converter.AudioStore.WriteAll | converter.py:100-104 | the files become `Written` of the old files and the conversions |
| Converter.PrepareRun | converter.py:48-77 | the set-up with its embedding loops yields exactly `Prepare`: the model from `args.model`, the metadata from `args.spmelFolder/args.metadata`, both embeddings, then the utterances |
| Converter.ConvertEach | converter.py:79-91 | the loop building `spect_vc` yields exactly `ConvertAll` |
| Converter.Convert | converter.py:44-104 | when the output folder is a regular file, `FileExistsError` before anything is loaded or written; otherwise the result is `Conversions`, which ignores `model_ckpt` and `metadata_dir`, and the output folder exists afterwards; the `.wav` files are `Written` on success and untouched on any exception |
| Checkpoints.TrainableBundle | solver_encoder.py:91-97 | defines the `save_trainable_model` bundle: hyperparameters, weights, optimizer state and history, with no legacy `model` key |
| Checkpoints.ModelBundle | solver_encoder.py:58-62 | defines the `save_model` bundle: weights and hyperparameters only |
| Checkpoints.HParamsOrDefault | converter.py:55-61 | the stored `hyperparams`, or exactly (32, 256, 512, 32) when absent |
| Checkpoints.WeightsOrLegacy | converter.py:64 | `G_state_dict`, falling back to `model`; absent iff both are absent |
| Checkpoints.Resume | solver_encoder.py:76-89 | a missing path gives `Incorrect path: <p>`; a bundle lacking weights of the right layout, optimizer state or `G_loss` gives `Could not load model at <p>.`; otherwise the stored weights, optimizer and history, with `init_iter = len(G_loss)` |
| Checkpoints.WeightsLoad | solver_encoder.py:81 | defines when `G.load_state_dict(checkpoint['G_state_dict'])` succeeds: the file is a bundle with that key, of the model's layout |
| Checkpoints.AfterLoadAttempt | solver_encoder.py:80-87 | the weights are the stored ones iff `G.load_state_dict` succeeds, else unchanged; the optimizer state is the stored one iff that succeeded and `g_optimizer_state_dict` is present, else unchanged; so a failed load leaves the calls that ran before the failure applied |
| Checkpoints.SaveThenResume | solver_encoder.py:76-97 | resuming from a just-saved trainable bundle restores exactly what was saved, with `init_iter` the history length |
| Checkpoints.ModelBundleCannotResume | solver_encoder.py:58-89 | a `save_model` bundle cannot be resumed: `Could not load model at <p>.` |
| Checkpoints.CheckpointStore.constructor | solver_encoder.py:91-97 | the store starts with the given files and directories |
| Checkpoints.CheckpointStore.Save | solver_encoder.py:91-97 | `torch.save` replaces the file at the path, and nothing else changes |
| Checkpoints.IsRegularFile | solver_encoder.py:183-184 | defines a name that exists but is not a directory: `os.path.exists` holds, `os.path.isdir` does not |
| Checkpoints.CheckpointStore.EnsureDir | solver_encoder.py:183-184 | `trained_models` is a directory afterwards unless a regular file of that name exists, which `os.path.exists` also accepts; no file changes |
| Schedule.Fetch | solver_encoder.py:125-129 | fails iff the loader is empty; from a position inside the pass it returns that batch and advances by one; from an unbound or exhausted cursor it restarts with batch 0 |
| Schedule.SaveDue | solver_encoder.py:182 | defines the save schedule: `saving_pace != 0 and (i+1) % saving_pace == 0` |
| Schedule.LogDue | solver_encoder.py:174 | defines the log schedule: `(i+1) % log_step == 0` |
| Schedule.CheckpointPath | solver_encoder.py:185 | defines the path `./trained_models/autovc_<prefix>_<i+1>` |
| Schedule.FetchCycles | solver_encoder.py:125-129 | fetch `j` of a call returns batch `j mod n` of a loader of `n >= 1` batches |
| Schedule.CheckpointPathInjective | solver_encoder.py:185 | periodic checkpoints of different iterations have different paths |
| Schedule.CheckpointPathIsNotDir | solver_encoder.py:183-185 | no periodic checkpoint path is the `trained_models` entry itself |
| Schedule.LogDueAbs | solver_encoder_circular.py:195 | whether `(i+1) % log_step == 0` holds depends only on `abs(log_step)`, for negative `log_step` too |
| Schedule.AutosaveIsNotPeriodic | solver_encoder.py:185-188 | the autosave file is never a periodic checkpoint |
| IdentitySolver.TotalLoss | solver_encoder.py:156 | defines `g_loss = g_loss_id + g_loss_id_psnt + lambda_cd * g_loss_cd` |
| IdentitySolver.LogValues | solver_encoder.py:163-179 | defines the values of a log line: that iteration's four losses, tagged in the order of `keys` |
| IdentitySolver.Iteration | solver_encoder.py:118-185 | defines one loop body, as the specification `Solver.Iterate` is proved against: interrupt, fetch (StopIteration on an empty loader), append, step, log, save |
| IdentitySolver.Run | solver_encoder.py:116-190 | defines the first `k` iterations of a call, stopping at the first exception; the specification every trainer lemma and `Solver.Train` is stated against |
| IdentitySolver.IterationEffect | solver_encoder.py:118-185 | an iteration that raises nothing fetches the next batch, appends `loss_id + loss_id_psnt + lambda_cd*loss_cd` to the history, steps the weights and optimizer, logs iff `(i+1) % log_step == 0` with that iteration's values, and saves the full bundle iff the save is due; a due save found no regular file `trained_models` in its way |
| IdentitySolver.IterationStep | solver_encoder.py:118-185 | an iteration with no interrupt, a batch, `log_step != 0` and, when the save is due, no regular file `trained_models` raises nothing |
| IdentitySolver.RunHalts | solver_encoder.py:116-190 | after an exception no further iteration runs |
| IdentitySolver.RunKeepsDirFile | solver_encoder.py:182-185 | over completed iterations, a regular file `trained_models` stays in the way exactly as long as it was at the start |
| IdentitySolver.RanIff | solver_encoder.py:116-190 | the first `k` iterations complete iff no interrupt arrives among them; when `k > 0`, the loader has a batch and `log_step != 0`; and, when `trained_models` is a regular file, none of them is due to save (the save would raise `NotADirectoryError`) |
| IdentitySolver.RunAppendsHistory | solver_encoder.py:157 | each iteration appends exactly its total loss; the history grows by `k`, earlier entries stay, `len(loss) == init_iter + k`, and the weights keep their layout |
| IdentitySolver.RunCyclesBatches | solver_encoder.py:125-129 | iteration `j` of a call is computed on batch `j mod n` with the weights the previous iterations left |
| IdentitySolver.ScheduledLogsSound | solver_encoder.py:174-180 | every scheduled line belongs to an iteration `m` with `m % log_step == 0` and reports that iteration's own values |
| IdentitySolver.ScheduledLogsComplete | solver_encoder.py:174-180 | every due iteration of the call has a line |
| IdentitySolver.ScheduledLogsIncreasing | solver_encoder.py:174-180 | the lines are in increasing iteration order |
| IdentitySolver.RunLogs | solver_encoder.py:163-180 | the lines a call prints are exactly the scheduled ones |
| IdentitySolver.RanPrefix | solver_encoder.py:118 | a call that ran `k` iterations ran every shorter prefix |
| IdentitySolver.RunSavesCheckpoint | solver_encoder.py:182-185 | a due iteration saves the state it ends in to `./trained_models/autovc_<prefix>_<i+1>`, and the directory exists |
| IdentitySolver.RunKeepsOtherFiles | solver_encoder.py:182-185 | iterations change no file but their own periodic checkpoints and create no directory but `trained_models` |
| IdentitySolver.RunCheckpoints | solver_encoder.py:182-185 | after the call each due iteration's checkpoint holds the hyperparameters, weights, optimizer and history of that iteration |
| IdentitySolver.ResumeFromPeriodicCheckpoint | solver_encoder.py:76-97 | resuming from the checkpoint of iteration `m` restores that iteration's state, with `init_iter = m` |
| IdentitySolver.InterruptContract | solver_encoder.py:186-190 | an interrupt saves `autovc_autosave.ckpt` and raises `KeyboardInterrupt: autosave done.` with autosave; otherwise it raises `KeyboardInterrupt: no autosave.` and writes nothing; no later iteration runs |
| IdentitySolver.Solver.constructor | solver_encoder.py:12-53 | the configuration is copied (`autosave` iff `checkpoint_mode == 'autosave'`), with a fresh Generator, an empty history and `init_iter = 0` |
| IdentitySolver.Solver.SaveModel | solver_encoder.py:58-63 | writes weights and hyperparameters only |
| IdentitySolver.Solver.SaveTrainableModel | solver_encoder.py:91-97 | writes hyperparameters, weights, optimizer state and the full history |
| IdentitySolver.Solver.LoadTrainableModel | solver_encoder.py:76-89 | reads `init_model`; on success the state is replaced as `Resume` says; on failure the message is returned and only the already-applied state loads stay |
| IdentitySolver.Solver.SaveCheckpoint | solver_encoder.py:183-185 | raises `NotADirectoryError` iff `trained_models` is a regular file, changing nothing; otherwise `trained_models` is a directory and the path holds the full trainable bundle |
| IdentitySolver.Solver.Iterate | solver_encoder.py:125-185 | one loop body ends in the state and exception `Iteration` prescribes |
| IdentitySolver.Solver.Train | solver_encoder.py:107-190 | the loop over `range(init_iter, init_iter + num_iters)` ends in the state, log lines and exception `Run` prescribes |
| IdentitySolver.NewSolver | solver_encoder.py:12-44 | loading is attempted only when `init_model` is non-empty; the solver exists iff that load succeeds, and then holds the resumed state |
| CircularSolver.StyleTerm | solver_encoder_circular.py:162-165 | the style term is 0 without `use_speaker_loss`, and the style distance with it |
| CircularSolver.Accumulate | solver_encoder_circular.py:175-179 | all five running sums are present afterwards |
| CircularSolver.AccumulateAdds | solver_encoder_circular.py:175-179 | each sum grows by that iteration's value, starting from 0; the style sum is accumulated whatever `use_speaker_loss` says; no other key is added |
| CircularSolver.AccumulateUnfolds | solver_encoder_circular.py:175-179 | the five statements in source order |
| CircularSolver.AddLosses | solver_encoder_circular.py:175-179 | the five in-place dict updates yield `Accumulate` |
| CircularSolver.Keys | solver_encoder_circular.py:115-117 | the four identity tags, then `G/loss_tgt_style` iff `use_speaker_loss` |
| CircularSolver.LogValues | solver_encoder_circular.py:199-200 | one value per key |
| CircularSolver.LogValuesAt | solver_encoder_circular.py:199-200 | entry `j` is `keys[j]` with `loss[keys[j]] / log_step` |
| CircularSolver.TotalLoss | solver_encoder_circular.py:172 | defines `g_loss = g_loss_id + g_loss_id_psnt + g_loss_target_style + lambda_cd * g_loss_cd` |
| CircularSolver.Iteration | solver_encoder_circular.py:124-207 | defines one loop body, as the specification `Solver.Iterate` is proved against: interrupt, fetch, accumulate, append, step, log and reset, save |
| CircularSolver.Run | solver_encoder_circular.py:121-212 | defines the first `k` iterations of a call, stopping at the first exception; the specification every trainer lemma and `Solver.Train` is stated against |
| CircularSolver.IterationEffect | solver_encoder_circular.py:131-186 | an iteration that raises nothing fetches the next triple, appends `loss_id + loss_id_psnt + style + lambda_cd*loss_cd`, and steps the weights and optimizer |
| CircularSolver.Finish | solver_encoder_circular.py:194-207 | defines the end of a loop body after the step: the log line and reset, then the save, raising `NotADirectoryError` under a regular file `trained_models` |
| CircularSolver.FinishLogEffect | solver_encoder_circular.py:194-202 | an end of loop body that raises nothing keeps the trace, prints iff `(i+1) % log_step == 0` the sums divided by `log_step`, and then resets them to `{}` |
| CircularSolver.IterationLogEffect | solver_encoder_circular.py:175-202 | the sums are accumulated; a due iteration prints them divided by `log_step` and resets them to `{}` |
| CircularSolver.IterationSaveEffect | solver_encoder_circular.py:204-207 | a due iteration found no regular file `trained_models` in its way and saves the full bundle to its periodic path |
| CircularSolver.IterationStep | solver_encoder_circular.py:124-207 | an iteration with no interrupt, a triple, `log_step != 0` and, when the save is due, no regular file `trained_models` raises nothing |
| CircularSolver.RunHalts | solver_encoder_circular.py:121-212 | after an exception no further iteration runs |
| CircularSolver.RunKeepsDirFile | solver_encoder_circular.py:204-207 | over completed iterations, a regular file `trained_models` stays in the way exactly as long as it was at the start |
| CircularSolver.RanIff | solver_encoder_circular.py:121-212 | the first `k` iterations complete iff no interrupt arrives among them; when `k > 0`, the loader has a triple and `log_step != 0`; and, when `trained_models` is a regular file, none of them is due to save (the save would raise `NotADirectoryError`) |
| CircularSolver.RunAppendsHistory | solver_encoder_circular.py:183 | one total loss per iteration; the history grows by `k`, `len(loss) == init_iter + k`, and earlier entries stay |
| CircularSolver.RunCyclesBatches | solver_encoder_circular.py:131-135 | iteration `j` of a call is computed on triple `j mod n` |
| CircularSolver.WindowStart | solver_encoder_circular.py:123-202 | the window of the running sums starts no later than the current iteration |
| CircularSolver.WindowTotals | solver_encoder_circular.py:175-179 | a window holds exactly the five tags |
| CircularSolver.WindowValues | solver_encoder_circular.py:199-200 | one value per key |
| CircularSolver.WindowValuesMeaning | solver_encoder_circular.py:199-200 | entry `j` is `keys[j]` with its window sum divided by `log_step`, not by the window length |
| CircularSolver.WindowStep | solver_encoder_circular.py:175-179 | accumulating from an empty dict or from the sums of `a .. k-1` yields the sums of `a .. k` |
| CircularSolver.RunLogStep | solver_encoder_circular.py:175-202 | an iteration's effect on the history trace, the sums and the printed lines |
| CircularSolver.WindowExtend | solver_encoder_circular.py:175-179 | the window grows by one iteration |
| CircularSolver.RunAccumulates | solver_encoder_circular.py:123-202 | after `k` iterations the running sums are those of the current window (empty right after a log) |
| CircularSolver.LogsExtend | solver_encoder_circular.py:195-202 | one more iteration appends exactly its scheduled line |
| CircularSolver.RunLogs | solver_encoder_circular.py:195-202 | the lines a call prints are exactly the scheduled ones |
| CircularSolver.ScheduledLogsSound | solver_encoder_circular.py:195-202 | every scheduled line belongs to a due iteration and prints its window's sums divided by `log_step` |
| CircularSolver.ScheduledLogsComplete | solver_encoder_circular.py:195-202 | every due iteration of the call has a line |
| CircularSolver.ScheduledLogsIncreasing | solver_encoder_circular.py:195-202 | the lines are in increasing iteration order |
| CircularSolver.WindowStartIsLastLog | solver_encoder_circular.py:202 | the sums are reset only right after a log line: a window starts at the call start or after a logging iteration, and no iteration inside it logs |
| CircularSolver.WindowLength | solver_encoder_circular.py:195-202 | for any non-zero `log_step`, a line sums `min(abs(log_step), k)` iterations, so the first line after a resume not aligned to `log_step` sums fewer; the sums are still divided by `log_step` itself, negative or not |
| CircularSolver.RanPrefix | solver_encoder_circular.py:124 | a call that ran `k` iterations ran every shorter prefix |
| CircularSolver.RunSavesCheckpoint | solver_encoder_circular.py:204-207 | a due iteration saves the state it ends in, and the directory exists |
| CircularSolver.RunKeepsOtherFiles | solver_encoder_circular.py:204-207 | iterations change no file but their own periodic checkpoints and create no directory but `trained_models` |
| CircularSolver.RunCheckpoints | solver_encoder_circular.py:204-207 | after the call each due iteration's checkpoint holds that iteration's full bundle |
| CircularSolver.ResumeFromPeriodicCheckpoint | solver_encoder_circular.py:79-100 | resuming from the checkpoint of iteration `m` restores that iteration's state, with `init_iter = m` |
| CircularSolver.InterruptContract | solver_encoder_circular.py:208-212 | autosave to `autovc_autosave.ckpt` plus `autosave done.`, or `no autosave.` with nothing written; no later iteration runs |
| CircularSolver.Solver.constructor | solver_encoder_circular.py:13-56 | the configuration is copied, including `use_speaker_loss`, with a fresh Generator, an empty history and `init_iter = 0` |
| CircularSolver.Solver.SaveModel | solver_encoder_circular.py:61-66 | writes weights and hyperparameters only |
| CircularSolver.Solver.SaveTrainableModel | solver_encoder_circular.py:94-100 | writes hyperparameters, weights, optimizer state and the full history |
| CircularSolver.Solver.LoadTrainableModel | solver_encoder_circular.py:79-92 | reads `init_model`; on success the state is replaced as `Resume` says; on failure the message is returned |
| CircularSolver.Solver.SaveCheckpoint | solver_encoder_circular.py:205-207 | raises `NotADirectoryError` iff `trained_models` is a regular file, changing nothing; otherwise `trained_models` is a directory and the path holds the full trainable bundle |
| CircularSolver.Solver.LogAndSave | solver_encoder_circular.py:194-207 | the log line with its reset and the save end in the state and exception `Finish` prescribes |
| CircularSolver.Solver.Iterate | solver_encoder_circular.py:131-207 | one loop body ends in the state and exception `Iteration` prescribes |
| CircularSolver.Solver.Train | solver_encoder_circular.py:110-212 | the loop ends in the state, running sums, log lines and exception `Run` prescribes |
| CircularSolver.NewSolver | solver_encoder_circular.py:13-47 | loading is attempted only when `init_model` is non-empty; the solver exists iff that load succeeds |

## Left out

- The Generator forward passes, `F.l1_loss`/`F.mse_loss`, `backward`, the Adam step and the speaker embedder are all numerics inside foreign code. They are function parameters returning opaque losses and parameter values.
- Floats are modelled as `real`: `.item()` rounding and the `{:.4f}` formatting of the log values are not modelled.
- `torch.save`, `torch.load`, `pickle.load` and `np.load` are map look-ups and updates on the file system values. No serialisation is modelled, and any failure inside `torch.load`, `load_state_dict` or `pickle.load` is one `LoadFailure`.
- Paths are not normalised: the file system maps are keyed by the path string as written. `./trained_models/autovc_p_5`, `trained_models/autovc_p_5` and `trained_models//autovc_p_5` name one file to the operating system but are three keys here. For example, Checkpoints.Resume with `init_model = "trained_models/autovc_p_5"` reports `Incorrect path` for a checkpoint saved under `./trained_models/autovc_p_5`, where the source loads it. The trainer lemmas are unaffected, since they look up the exact strings `CheckpointPath` builds. Symbolic links are not modelled either.
- The text of the `NotADirectoryError` that `torch.save` raises under a regular file `trained_models` follows Python's `open`; newer `torch` versions word this error differently.
- The vocoder is not modelled: `build_model`, the load of its checkpoint (lines 96-98) and `wavegen` are foreign. `Converter.Convert` takes the waveform function as a parameter and assumes the vocoder checkpoint loads.
- `sf.write` at 16 kHz is a map update, with no audio encoding.
- `load_model` is not modelled: it is an inference-only loader, and all it does is call into `torch`.
- Device placement, `print`, `time.time`/`datetime` (log lines omit the elapsed time), `argparse` and the `__main__` block are I/O and are left out. The globals `args.model`, `args.spmelFolder` and `args.metadata` are the value `Converter.Globals`.
- The order of `os.walk` is not modelled: the walk of a directory is a given sequence of file-name lists.
- `os.mkdir` failing because a parent directory is missing, or for lack of permission, is not modelled.
- A `KeyboardInterrupt` is modelled only as arriving at the start of an iteration, given as `Env.interrupt`. An interrupt in the middle of an iteration is not modelled.
- The Generator's parameter layout is modelled as (`dim_neck`, `dim_emb`, `dim_pre`), without `freq`. `load_state_dict` succeeds iff that layout matches. This rests on `freq` being only a down-sampling factor that creates no parameters; `model_vc.py` is not part of this model.
- The data loader is modelled as a fixed sequence of batches, the same on every pass. A shuffling loader is not modelled.
- Padding.PadSeq: `base <= 0` is excluded by its precondition. The converter only calls `pad_seq` with the default 32.
- Converter.UttrMelspect: line 38 is modelled as the `TypeError` its missing `spmelFolder` argument raises, so nothing is loaded from the alternate path.
- CircularSolver.LogValues: reads the sums with `loss.get(tag, 0)` rather than `loss[tag]`. `LogValuesAt` shows the two agree whenever every key is present, which `Accumulate` guarantees before any line is built.
- IdentitySolver.Solver.constructor: `build_model`'s Generator and Adam optimizer are parameters `g0` and `opt0`, required to have the layout of the configuration.

## Premises

- RunAppendsHistory and ResumeFromPeriodicCheckpoint assume the history has `init_iter` entries at the start of the call. That holds for a fresh solver and right after a resume. A second `train` call on the same solver breaks it: `init_iter` is not advanced, so `range(self.init_iter, …)` repeats iteration numbers while the history keeps growing. `Run` models that case as the source does: the iteration numbers, log lines and checkpoint paths repeat. Only these two lemmas' conclusions about `len(loss) == i + 1` and `init_iter = m` then do not apply.
