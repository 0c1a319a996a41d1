/** The batch prediction wrapper: it writes a descriptor for the embedding stage, runs
    it, copies the input as the remapped sequence file, writes a descriptor for the
    inference stage, runs it, and normalises the predictions into the standard table
    (plmsol_predict_wrapper.py). */
module Wrapper {
  import opened Wrappers
  import opened Paths
  import opened Yaml
  import opened Fasta
  import opened Embeddings
  import opened Frames
  import opened Normalizer

  const EmbedConfigName := "embed_config.yml"
  const InferConfigName := "infer_config.yml"
  const PredictionsName := "plmsol_predictions.csv"
  const ModelConfig := "./configs/inference_Sol_biLSTM_TextCNN.yml"

  // ---------------------------------------------------------------------------
  // Descriptors and commands

  /** The embedding descriptor: the template with both fields filled. */
  function EmbedDescriptor(sequencesFile: string, prefix: string): Yaml
  {
    YMap([("global", GlobalSection(sequencesFile, prefix))])
  }

  /** The inference descriptor: the template's model configuration, with the three
      paths filled. */
  function InferDescriptor(embeddingsFile: string, remapping: string, outputFile: string): Yaml
  {
    YMap([("global", YMap([("model_config", YStr(ModelConfig)),
                           ("embeddings_file", YStr(embeddingsFile)),
                           ("remapping", YStr(remapping)),
                           ("output_file", YStr(outputFile))]))])
  }

  /** `run_embeddings`: the command line of the embedding stage. */
  function EmbedCommand(configPath: string): seq<string>
  {
    ["python", "generate_embeddings_memory_efficient.py", "--config", configPath]
  }

  /** `run_inference`: the command line of the inference stage. */
  function InferCommand(configPath: string): seq<string>
  {
    ["python", "inference.py", "--config", configPath]
  }

  /** What the embedding script reads back from the wrapper's descriptor is exactly what
      the wrapper put there. */
  lemma EmbedDescriptorRoundTrip(sequencesFile: string, prefix: string)
    ensures ReadEmbedJob(EmbedDescriptor(sequencesFile, prefix)) == Some(EmbedJob(YStr(sequencesFile), prefix))
  {
    var entries: seq<(string, Yaml)> := [("global", GlobalSection(sequencesFile, prefix))];
    assert entries + [] == entries;
    ReadGlobalSection(sequencesFile, prefix, []);
  }

  /** The entries of the inference descriptor's `global` section, by key. */
  lemma InferEntries(embeddingsFile: string, remapping: string, outputFile: string)
    ensures Get(InferDescriptor(embeddingsFile, remapping, outputFile), "global").Some?
    ensures Get(Get(InferDescriptor(embeddingsFile, remapping, outputFile), "global").value, "model_config") == Some(YStr(ModelConfig))
    ensures Get(Get(InferDescriptor(embeddingsFile, remapping, outputFile), "global").value, "embeddings_file") == Some(YStr(embeddingsFile))
    ensures Get(Get(InferDescriptor(embeddingsFile, remapping, outputFile), "global").value, "remapping") == Some(YStr(remapping))
    ensures Get(Get(InferDescriptor(embeddingsFile, remapping, outputFile), "global").value, "output_file") == Some(YStr(outputFile))
  {
    var entries := [("model_config", YStr(ModelConfig)), ("embeddings_file", YStr(embeddingsFile)),
                    ("remapping", YStr(remapping)), ("output_file", YStr(outputFile))];
    assert |entries[0].0| == 12 && |entries[1].0| == 15 && |entries[2].0| == 9 && |entries[3].0| == 11;
    LookupAt(entries, 0);
    LookupAt(entries, 1);
    LookupAt(entries, 2);
    LookupAt(entries, 3);
    assert Get(InferDescriptor(embeddingsFile, remapping, outputFile), "global") == Some(YMap(entries));
  }

  /** The model configuration and the three paths of the inference descriptor read back
      unchanged. */
  lemma InferDescriptorFields(embeddingsFile: string, remapping: string, outputFile: string)
    ensures GetString(InferDescriptor(embeddingsFile, remapping, outputFile), ["global", "model_config"]) == Some(ModelConfig)
    ensures GetString(InferDescriptor(embeddingsFile, remapping, outputFile), ["global", "embeddings_file"]) == Some(embeddingsFile)
    ensures GetString(InferDescriptor(embeddingsFile, remapping, outputFile), ["global", "remapping"]) == Some(remapping)
    ensures GetString(InferDescriptor(embeddingsFile, remapping, outputFile), ["global", "output_file"]) == Some(outputFile)
  {
    var doc := InferDescriptor(embeddingsFile, remapping, outputFile);
    InferEntries(embeddingsFile, remapping, outputFile);
    GetPathTwo(doc, "global", "model_config");
    GetPathTwo(doc, "global", "embeddings_file");
    GetPathTwo(doc, "global", "remapping");
    GetPathTwo(doc, "global", "output_file");
  }

  // ---------------------------------------------------------------------------
  // The output directory

  /** What `os.makedirs(os.path.dirname(out), exist_ok=True)` does. */
  datatype MakeDirs = Create(dir: string) | Skip | Raise

  /** As written: the parent directory of the output is created, and a bare file name
      has the empty string as parent, for which `makedirs` raises. */
  function MakeOutputDirAsWritten(out: string): (r: MakeDirs)
    ensures r != Skip
  {
    if Dirname(out) == "" then Raise else Create(Dirname(out))
  }

  /** As intended: a bare file name goes to the working directory, which exists. */
  function MakeOutputDir(out: string): (r: MakeDirs)
    ensures r != Raise
  {
    if Dirname(out) == "" then Skip else Create(Dirname(out))
  }

  /** The as-written step raises for exactly the output paths without a separator,
      such as "predictions.csv", a file in the current directory. */
  lemma MakeOutputDirAsWrittenRaises(out: string)
    ensures MakeOutputDirAsWritten(out) == Raise <==> '/' !in out
    ensures MakeOutputDirAsWritten("predictions.csv") == Raise
  {
    DirnameEmptyIff(out);
    DirnameEmptyIff("predictions.csv");
  }

  /** The corrected step never raises, creates exactly the non-empty parent directory,
      and agrees with the code as written whenever the path has a separator. */
  lemma MakeOutputDirCorrect(out: string)
    ensures MakeOutputDir(out) == Skip <==> '/' !in out
    ensures MakeOutputDir(out).Create? ==> MakeOutputDir(out).dir == Dirname(out) != ""
    ensures '/' in out ==> MakeOutputDir(out) == MakeOutputDirAsWritten(out)
  {
    DirnameEmptyIff(out);
  }

  // ---------------------------------------------------------------------------
  // The pipeline

  /** One observable step of the wrapper. */
  datatype Event =
    | WroteDescriptor(path: string, doc: Yaml)
    | Ran(argv: seq<string>, exitCode: int)
    | Copied(source: string, target: string)
    | MadeDirs(path: string)
    | WroteTable(path: string, table: Frame)

  datatype Outcome =
    | Completed
    | StageFailed(argv: seq<string>, exitCode: int)   // `check=True` raised
    | NormalizeFailed(error: NormError)

  /** The files the wrapper's own steps have created: exactly the descriptors written
      and the copy targets, and nothing else. */
  function Created(events: seq<Event>): (paths: set<string>)
    ensures forall e :: e in events && e.WroteDescriptor? ==> e.path in paths
    ensures forall e :: e in events && e.Copied? ==> e.target in paths
    ensures forall p :: p in paths ==>
      exists e :: e in events && ((e.WroteDescriptor? && e.path == p) || (e.Copied? && e.target == p))
  {
    if events == [] then {}
    else
      var last := events[|events| - 1];
      var prefix := events[..|events| - 1];
      assert forall e :: e in events ==> e in prefix || e == last;
      Created(prefix) + match last
        case WroteDescriptor(p, _) => {p}
        case Copied(_, t) => {t}
        case _ => {}
  }

  /** No step follows a stage run that exited non-zero. */
  predicate HaltsOnFailure(events: seq<Event>)
  {
    forall k :: 0 <= k < |events| && events[k].Ran? && events[k].exitCode != 0 ==> k == |events| - 1
  }

  /** The first five steps as the source orders them, as far as the run got. */
  predicate StagesInOrder(events: seq<Event>, fasta: string, cwd: string, tmpdir: string)
  {
    var embedPath := Join(tmpdir, EmbedConfigName);
    var inferPath := Join(tmpdir, InferConfigName);
    && |events| >= 2
    && events[0] == WroteDescriptor(embedPath, EmbedDescriptor(AbsPath(cwd, fasta), tmpdir))
    && events[1].Ran? && events[1].argv == EmbedCommand(embedPath)
    && (|events| > 2 ==>
          && |events| >= 5
          && events[1].exitCode == 0
          && events[2] == Copied(fasta, RemappedPath(tmpdir))
          && events[3] == WroteDescriptor(inferPath, InferDescriptor(StorePath(tmpdir), RemappedPath(tmpdir), Join(tmpdir, PredictionsName)))
          && events[4].Ran? && events[4].argv == InferCommand(inferPath))
  }

  /** Steps 1 to 4 of `main`: the embedding descriptor, the embedding stage, the copy
      of the input as remapped file, the inference descriptor and the inference stage.
      `ok` says both stages exited with 0; a failing stage ends the run. */
  method RunStages(fasta: string, cwd: string, tmpdir: string, run: seq<string> -> int)
    returns (events: seq<Event>, ok: bool)
    ensures StagesInOrder(events, fasta, cwd, tmpdir)
    ensures HaltsOnFailure(events)
    ensures events[1].exitCode == run(EmbedCommand(Join(tmpdir, EmbedConfigName)))
    ensures events[1].exitCode != 0 <==> |events| == 2
    ensures |events| > 2 ==> |events| == 5 && events[4].exitCode == run(InferCommand(Join(tmpdir, InferConfigName)))
    ensures ok <==> |events| == 5 && events[4].exitCode == 0
  {
    var embedPath := Join(tmpdir, EmbedConfigName);
    var wroteEmbed := WroteDescriptor(embedPath, EmbedDescriptor(AbsPath(cwd, fasta), tmpdir));
    var code := run(EmbedCommand(embedPath));
    var ranEmbed := Ran(EmbedCommand(embedPath), code);
    if code != 0 {
      return [wroteEmbed, ranEmbed], false;
    }
    var embeddingsFile := Join(Join(tmpdir, EmbeddingsDirName), StoreFileName);
    var remappedFasta := Join(tmpdir, RemappedFileName);
    var copied := Copied(fasta, remappedFasta);
    var outputFile := Join(tmpdir, PredictionsName);
    var inferPath := Join(tmpdir, InferConfigName);
    var wroteInfer := WroteDescriptor(inferPath, InferDescriptor(embeddingsFile, remappedFasta, outputFile));
    code := run(InferCommand(inferPath));
    var ranInfer := Ran(InferCommand(inferPath), code);
    events := [wroteEmbed, ranEmbed, copied, wroteInfer, ranInfer];
    ok := code == 0;
  }

  /** Steps appended after both stages succeeded keep the stage order, and keep the
      run halting on failure when none of them is a stage run. */
  lemma StagesExtend(events: seq<Event>, more: seq<Event>, fasta: string, cwd: string, tmpdir: string)
    requires StagesInOrder(events, fasta, cwd, tmpdir) && |events| == 5
    requires HaltsOnFailure(events) && events[4].exitCode == 0
    requires forall k :: 0 <= k < |more| ==> !more[k].Ran?
    ensures StagesInOrder(events + more, fasta, cwd, tmpdir)
    ensures HaltsOnFailure(events + more)
  {
    var all := events + more;
    assert forall k :: 5 <= k < |all| ==> all[k] == more[k - 5];
  }

  /** Step 5's last two actions: the (corrected) creation of the output directory and
      the writing of the table. A bare file name creates no directory. */
  function OutputSteps(out: string, table: Frame): (steps: seq<Event>)
    ensures forall k :: 0 <= k < |steps| ==> !steps[k].Ran?
    ensures |steps| == 2 <==> '/' in out
    ensures |steps| == 1 || |steps| == 2
    ensures steps[|steps| - 1] == WroteTable(out, table)
    ensures |steps| == 2 ==> steps[0] == MadeDirs(Dirname(out)) && Dirname(out) != ""
  {
    MakeOutputDirCorrect(out);
    var dirStep := MakeOutputDir(out);
    (if dirStep.Create? then [MadeDirs(dirStep.dir)] else []) + [WroteTable(out, table)]
  }

  /** A run that got past both stages and wrote its table: the stage steps stay in
      place, and the output steps follow them. */
  lemma CompletedRun(stages: seq<Event>, fasta: string, out: string, cwd: string, tmpdir: string, table: Frame)
    requires StagesInOrder(stages, fasta, cwd, tmpdir) && HaltsOnFailure(stages)
    requires |stages| == 5 && stages[4].exitCode == 0
    ensures StagesInOrder(stages + OutputSteps(out, table), fasta, cwd, tmpdir)
    ensures HaltsOnFailure(stages + OutputSteps(out, table))
    ensures (stages + OutputSteps(out, table))[1] == stages[1]
    ensures (stages + OutputSteps(out, table))[4] == stages[4]
    ensures |stages + OutputSteps(out, table)| > 5
    ensures (|stages + OutputSteps(out, table)| == 7 <==> '/' in out)
    ensures (stages + OutputSteps(out, table))[|stages + OutputSteps(out, table)| - 1] == WroteTable(out, table)
    ensures |stages + OutputSteps(out, table)| == 7 ==> (stages + OutputSteps(out, table))[5] == MadeDirs(Dirname(out))
  {
    var more := OutputSteps(out, table);
    StagesExtend(stages, more, fasta, cwd, tmpdir);
    var all := stages + more;
    assert all[|all| - 1] == more[|more| - 1];
    assert |more| == 2 ==> all[5] == more[0];
  }

  /** `plmsol_predict_wrapper.main` after argument parsing. `cwd` is the working
      directory, `tmpdir` the fresh temporary directory, `run` the exit code of a
      command line; `predictions` is the table the inference stage wrote to its output
      file, `records` what the FASTA parser reads from `fasta`. The output directory
      step is the corrected one (see `MakeOutputDirAsWritten`). */
  method PredictMain(fasta: string, out: string, cwd: string, tmpdir: string, run: seq<string> -> int,
                     records: seq<Record>, predictions: Frame)
    returns (events: seq<Event>, outcome: Outcome)
    requires Valid(predictions)
    ensures StagesInOrder(events, fasta, cwd, tmpdir)
    ensures HaltsOnFailure(events)
    ensures events[1].exitCode == run(EmbedCommand(Join(tmpdir, EmbedConfigName)))
    ensures events[1].exitCode != 0 <==> |events| == 2
    ensures events[1].exitCode != 0 ==> outcome == StageFailed(events[1].argv, events[1].exitCode)
    ensures |events| > 2 ==> events[4].exitCode == run(InferCommand(Join(tmpdir, InferConfigName)))
    ensures |events| > 2 && events[4].exitCode != 0 ==> |events| == 5 && outcome == StageFailed(events[4].argv, events[4].exitCode)
    ensures outcome.NormalizeFailed? <==> |events| == 5 && events[4].exitCode == 0 && Normalize(predictions, records).Err?
    ensures outcome.NormalizeFailed? ==> outcome.error == Normalize(predictions, records).error
    ensures outcome.Completed? <==> |events| > 5
    ensures outcome.Completed? ==>
      && events[4].exitCode == 0
      && Normalize(predictions, records).Ok?
      && events[|events| - 1] == WroteTable(out, Normalize(predictions, records).value)
      && (|events| == 7 <==> '/' in out)
      && (|events| == 7 ==> events[5] == MadeDirs(Dirname(out)))
  {
    var ok;
    events, ok := RunStages(fasta, cwd, tmpdir, run);
    if !ok {
      var failed := events[|events| - 1];
      return events, StageFailed(failed.argv, failed.exitCode);
    }
    var normalized := Normalize(predictions, records);
    if normalized.Err? {
      return events, NormalizeFailed(normalized.error);
    }
    CompletedRun(events, fasta, out, cwd, tmpdir, normalized.value);
    events := events + OutputSteps(out, normalized.value);
    outcome := Completed;
  }

  // ---------------------------------------------------------------------------
  // What the two scripts agree on

  /** The embedding run reads the original FASTA: when it starts, the wrapper has
      created only the embedding descriptor in the fresh temporary directory, so the
      remapped file the embedding script looks for does not exist yet, and it embeds
      the absolute path of the input instead. */
  lemma EmbeddingReadsOriginal(fasta: string, cwd: string, tmpdir: string, events: seq<Event>)
    requires StagesInOrder(events, fasta, cwd, tmpdir)
    ensures ReadEmbedJob(events[0].doc).Some?
    ensures SelectSource(ReadEmbedJob(events[0].doc).value, Created(events[..1])) == Some(AbsPath(cwd, fasta))
  {
    EmbedDescriptorRoundTrip(AbsPath(cwd, fasta), tmpdir);
    CreatedFirst(events);
    JoinEndsWith(tmpdir, RemappedFileName, EmbedConfigName);
    assert RemappedPath(tmpdir) !in Created(events[..1]);
  }

  /** After the first step only the file it wrote exists. */
  lemma CreatedFirst(events: seq<Event>)
    requires |events| >= 1 && events[0].WroteDescriptor?
    ensures Created(events[..1]) == {events[0].path}
  {
    assert events[..1] == [] + [events[0]];
  }

  /** The inference descriptor points at the store and the remapped file exactly where
      the embedding script puts and looks for them under the prefix it was given. */
  lemma InferenceFindsEmbeddings(fasta: string, cwd: string, tmpdir: string, events: seq<Event>)
    requires StagesInOrder(events, fasta, cwd, tmpdir) && |events| > 2
    ensures ReadEmbedJob(events[0].doc).Some?
    ensures GetString(events[3].doc, ["global", "embeddings_file"]) == Some(StorePath(ReadEmbedJob(events[0].doc).value.prefix))
    ensures GetString(events[3].doc, ["global", "remapping"]) == Some(RemappedPath(ReadEmbedJob(events[0].doc).value.prefix))
    ensures GetString(events[3].doc, ["global", "output_file"]) == Some(Join(tmpdir, PredictionsName))
    ensures events[2].target == RemappedPath(ReadEmbedJob(events[0].doc).value.prefix)
  {
    EmbedDescriptorRoundTrip(AbsPath(cwd, fasta), tmpdir);
    InferDescriptorFields(StorePath(tmpdir), RemappedPath(tmpdir), Join(tmpdir, PredictionsName));
  }
}
