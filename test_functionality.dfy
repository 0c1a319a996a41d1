/** test_plmsol_functionality.py: check the imports, then set up the files for a
    manual run with a dependent annotation stage. The import probe is outside code and
    enters as its outcome. */
module FunctionalityTest {
  import opened Wrappers
  import opened Paths
  import opened Yaml
  import opened Fasta
  import opened Embeddings
  import opened TestSetup

  /** The `annotations_from_t5` stage: an extraction that consumes the embeddings. */
  function AnnotationStage(): Yaml
  {
    YMap([("type", YStr("extract")), ("protocol", YStr("la_prott5")), ("depends_on", YStr("t5_embeddings"))])
  }

  /** `create_embedding_config(fasta_path, output_dir)`: the `global` section, the
      embedding stage and the annotation stage. */
  function EmbeddingConfig(fastaPath: string, outputDir: string): Yaml
  {
    YMap([("global", GlobalSection(fastaPath, OutputPrefix(fastaPath, outputDir))),
          ("t5_embeddings", T5Stage()),
          ("annotations_from_t5", AnnotationStage())])
  }

  lemma AnnotationStageFields()
    ensures Get(AnnotationStage(), "type") == Some(YStr("extract"))
    ensures Get(AnnotationStage(), "depends_on") == Some(YStr("t5_embeddings"))
  {
    var entries := AnnotationStage().entries;
    assert |entries[0].0| == 4 && |entries[1].0| == 8 && |entries[2].0| == 10;
    LookupAt(entries, 0);
    LookupAt(entries, 2);
  }

  /** The descriptor names the FASTA file and the derived prefix, and has the global
      section and the two stages in order; the annotation stage depends on the
      embedding stage. */
  lemma EmbeddingConfigFields(fastaPath: string, outputDir: string)
    ensures ReadEmbedJob(EmbeddingConfig(fastaPath, outputDir)) == Some(EmbedJob(YStr(fastaPath), OutputPrefix(fastaPath, outputDir)))
    ensures TopKeys(EmbeddingConfig(fastaPath, outputDir)) == ["global", "t5_embeddings", "annotations_from_t5"]
    ensures GetString(EmbeddingConfig(fastaPath, outputDir), ["annotations_from_t5", "depends_on"]) == Some("t5_embeddings")
  {
    var prefix := OutputPrefix(fastaPath, outputDir);
    var doc := EmbeddingConfig(fastaPath, outputDir);
    var entries := doc.entries;
    ReadGlobalSection(fastaPath, prefix, [("t5_embeddings", T5Stage()), ("annotations_from_t5", AnnotationStage())]);
    assert |entries[0].0| == 6 && |entries[1].0| == 13 && |entries[2].0| == 19;
    LookupAt(entries, 2);
    GetPathTwo(doc, "annotations_from_t5", "depends_on");
    AnnotationStageFields();
  }

  /** Every dependency resolves: only the annotation stage names one, the embedding
      stage, which is another section of the descriptor. */
  lemma EmbeddingConfigResolves(fastaPath: string, outputDir: string)
    ensures DependenciesResolve(EmbeddingConfig(fastaPath, outputDir))
  {
    var prefix := OutputPrefix(fastaPath, outputDir);
    var doc := EmbeddingConfig(fastaPath, outputDir);
    var global := GlobalSection(fastaPath, prefix);
    assert |"depends_on"| == 10;
    assert |global.entries[0].0| == 14 && |global.entries[1].0| == 6;
    LookupAbsent(global.entries, "depends_on");
    T5StageFields();
    AnnotationStageFields();
    assert TopKeys(doc)[1] == "t5_embeddings";
  }

  /** `main` of the functionality test. `importsOk` is what the import probe returns,
      `sequences` the fixture (`TestSequences()`), `writable` how many writes the file
      system accepts. A write that raises makes the result False. */
  method RunFunctionality(cwd: string, importsOk: bool, sequences: seq<Record>, writable: nat)
    returns (ok: bool, dirs: seq<string>, files: seq<FileStep>)
    ensures ok <==> importsOk && writable >= 3
    ensures !importsOk ==> dirs == [] && files == []
    ensures importsOk ==> dirs == [Join(cwd, TestDirName)]
    ensures importsOk ==> files == SetupFiles(Join(cwd, TestDirName), sequences, EmbeddingConfig)[..if writable < 3 then writable else 3]
  {
    if !importsOk {
      return false, [], [];
    }
    var testDir := Join(cwd, TestDirName);
    dirs := [testDir];
    var raised;
    files, raised := SetUp(testDir, sequences, EmbeddingConfig, writable);
    ok := !raised;
  }

  /** What the functionality setup writes fits together. */
  lemma SetupAgrees(testDir: string, sequences: seq<Record>)
    ensures ReadEmbedJob(SetupFiles(testDir, sequences, EmbeddingConfig)[1].doc).Some?
    ensures GetString(SetupFiles(testDir, sequences, EmbeddingConfig)[2].doc, ["embeddings"])
         == Some(StorePath(ReadEmbedJob(SetupFiles(testDir, sequences, EmbeddingConfig)[1].doc).value.prefix))
    ensures GetString(SetupFiles(testDir, sequences, EmbeddingConfig)[2].doc, ["remapping"])
         == Some(RemappedPath(ReadEmbedJob(SetupFiles(testDir, sequences, EmbeddingConfig)[1].doc).value.prefix))
  {
    forall f, d
      ensures ReadEmbedJob(EmbeddingConfig(f, d)) == Some(EmbedJob(YStr(f), OutputPrefix(f, d)))
    {
      EmbeddingConfigFields(f, d);
    }
    SetupFilesAgree(testDir, sequences, EmbeddingConfig);
  }
}
