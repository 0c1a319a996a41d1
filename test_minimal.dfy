/** test_plmsol_minimal.py: probe the environment, then set up the files for a manual
    run of the two stages. The probes (imports, the model checkpoint, the embedder
    class) are outside code and enter as their outcomes. */
module MinimalTest {
  import opened Wrappers
  import opened Paths
  import opened Yaml
  import opened Fasta
  import opened Embeddings
  import opened TestSetup

  /** `create_embedding_config(fasta_path, output_dir)`: the descriptor it writes, a
      `global` section and the single `t5_embeddings` stage. */
  function EmbeddingConfig(fastaPath: string, outputDir: string): Yaml
  {
    YMap([("global", GlobalSection(fastaPath, OutputPrefix(fastaPath, outputDir))),
          ("t5_embeddings", T5Stage())])
  }

  /** The descriptor names the FASTA file and the derived prefix, and has the global
      section and the one embedding stage. */
  lemma EmbeddingConfigFields(fastaPath: string, outputDir: string)
    ensures ReadEmbedJob(EmbeddingConfig(fastaPath, outputDir)) == Some(EmbedJob(YStr(fastaPath), OutputPrefix(fastaPath, outputDir)))
    ensures TopKeys(EmbeddingConfig(fastaPath, outputDir)) == ["global", "t5_embeddings"]
    ensures Get(EmbeddingConfig(fastaPath, outputDir), "t5_embeddings") == Some(T5Stage())
  {
    var prefix := OutputPrefix(fastaPath, outputDir);
    var doc := EmbeddingConfig(fastaPath, outputDir);
    ReadGlobalSection(fastaPath, prefix, [("t5_embeddings", T5Stage())]);
    assert |doc.entries[0].0| != |doc.entries[1].0|;
    LookupAt(doc.entries, 1);
  }

  /** No section names a dependency, so there is none to resolve. */
  lemma EmbeddingConfigResolves(fastaPath: string, outputDir: string)
    ensures DependenciesResolve(EmbeddingConfig(fastaPath, outputDir))
  {
    var global := GlobalSection(fastaPath, OutputPrefix(fastaPath, outputDir));
    assert |"depends_on"| == 10;
    assert |global.entries[0].0| == 14 && |global.entries[1].0| == 6;
    LookupAbsent(global.entries, "depends_on");
    T5StageFields();
  }

  /** The probes of `main`, in the order it runs them. */
  datatype Probe = Imports | ModelFiles | Embedder

  /** `main` of the minimal test. `importsOk`, `modelFilesOk` and `embedderOk` are what
      the three probes return, `sequences` the fixture (`TestSequences()`), `writable`
      how many writes the file system accepts. */
  method RunMinimal(cwd: string, importsOk: bool, modelFilesOk: bool, embedderOk: bool,
              sequences: seq<Record>, writable: nat)
    returns (ok: bool, probes: seq<Probe>, dirs: seq<string>, files: seq<FileStep>)
    ensures probes == (if !importsOk then [Imports]
                       else if !modelFilesOk then [Imports, ModelFiles]
                       else [Imports, ModelFiles, Embedder])
    ensures ok <==> importsOk && modelFilesOk && embedderOk
    ensures !ok ==> dirs == [] && files == []
    ensures ok ==> dirs == [Join(cwd, TestDirName)]
    ensures ok ==> files == SetupFiles(Join(cwd, TestDirName), sequences, EmbeddingConfig)[..if writable < 3 then writable else 3]
  {
    probes := [Imports];
    if !importsOk {
      return false, probes, [], [];
    }
    probes := probes + [ModelFiles];
    if !modelFilesOk {
      return false, probes, [], [];
    }
    probes := probes + [Embedder];
    if !embedderOk {
      return false, probes, [], [];
    }
    var testDir := Join(cwd, TestDirName);
    dirs := [testDir];
    var raised;
    files, raised := SetUp(testDir, sequences, EmbeddingConfig, writable);
    ok := true;
  }

  /** What the minimal setup writes fits together, as the functionality test's does. */
  lemma SetupAgrees(testDir: string, sequences: seq<Record>)
    ensures ReadEmbedJob(SetupFiles(testDir, sequences, EmbeddingConfig)[1].doc).Some?
    ensures GetString(SetupFiles(testDir, sequences, EmbeddingConfig)[2].doc, ["embeddings"])
         == Some(StorePath(ReadEmbedJob(SetupFiles(testDir, sequences, EmbeddingConfig)[1].doc).value.prefix))
    ensures GetString(SetupFiles(testDir, sequences, EmbeddingConfig)[2].doc, ["remapping"])
         == Some(RemappedPath(ReadEmbedJob(SetupFiles(testDir, sequences, EmbeddingConfig)[1].doc).value.prefix))
  {
    forall f, d
      ensures ReadEmbedJob(EmbeddingConfig(f, d)) == Some(EmbedJob(YStr(f), OutputPrefix(f, d)))
    {
      EmbeddingConfigFields(f, d);
    }
    SetupFilesAgree(testDir, sequences, EmbeddingConfig);
  }
}
