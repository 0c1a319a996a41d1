/** The fixture shared by the two setup scripts (test_plmsol_minimal.py and
    test_plmsol_functionality.py, whose `create_test_fasta` and
    `create_inference_config` are the same code): the FASTA file of the test proteins,
    the output prefix, the embedding stage section, the inference descriptor, the
    expected output paths, and the files the setup writes. */
module TestSetup {
  import opened Wrappers
  import opened Paths
  import opened Yaml
  import opened Fasta
  import opened Embeddings

  const TestDirName := "plmsol_test"
  const TestFastaName := "test_dataset.fasta"
  const EmbeddingConfigName := "test_embedding_config.yml"
  const InferenceConfigName := "test_inference_config.yml"
  const ModelParamPath := "./model_param/model_param.t7"

  // ---------------------------------------------------------------------------
  // The test FASTA file

  /** `test_sequences` of `create_test_fasta`: three fluorescent-protein variants. The
      setup below takes the fixture as a parameter; `CreateFixtureFasta` passes these. */
  function TestSequences(): seq<Record>
  {
    [Record("test_protein_1", "MSKGEELFTGVVPILVELDGDVNGHKFSVSGEGEGDATYGKLTLKFICTTGKLPVPWPTLVTTFSYGVQCFSRYPDHMKQHDFFKSAMPEGYVQERTIFFKDDGNYKTRAEVKFEGDTLVNRIELKGIDFKEDGNILGHKLEYNYNSHNVYIMADKQKNGIKVNFKIRHNIEDGSVQLADHYQQNTPIGDGPVLLPDNHYLSTQSALSKDPNEKRDHMVLLEFVTAAGITHGMDELYK"),
     Record("test_protein_2", "MVSKGEELFTGVVPILVELDGDVNGHKFSVSGEGEGDATYGKLTLKFICTTGKLPVPWPTLVTTLSWGVQCFARYPDHMKQHDFFKSAMPEGYVQERTIFFKDDGNYKTRAEVKFEGDTLVNRIELKGIDFKEDGNILGHKLEYNYNSHNVYIMADKQKNGIKVNFKIRHNIEDGSVQLADHYQQNTPIGDGPVLLPDNHYLSTQSALSKDPNEKRDHMVLLEFVTAAGITHGMDELYK"),
     Record("test_protein_3", "MSKGEELFTGVVPILVELDGDVNGHKFSVSGEGEGDATYGKLTLKFICTTGKLPVPWPTLVTTLTYGVQCFSRYPDHMKRHDFFKSAMPEGYVQERTIFFKDDGNYKTRAEVKFEGDTLVNRIELKGIDFKEDGNILGHKLEYNYNSHNVYIMADKQKNGIKVNFKIRHNIEDGSVQLADHYQQNTPIGDGPVLLPDNHYLSTQSALSKDPNEKRDHMVLLEFVTAAGITHGMDELYK")]
  }

  /** `create_test_fasta(output_dir)` writing the fixture `sequences`: the path of the
      file and the text its loop writes, two lines per protein. The embedding script's
      pre-scan counts one header per protein in it. */
  method CreateTestFasta(outputDir: string, sequences: seq<Record>) returns (path: string, text: string)
    ensures path == Join(outputDir, TestFastaName)
    ensures text == JoinLines(FastaLines(sequences))
    ensures (forall k :: 0 <= k < |sequences| ==> WellFormed(sequences[k])) ==> HeaderCount(text) == |sequences|
  {
    path := Join(outputDir, TestFastaName);
    text := WriteFasta(sequences);
    if forall k :: 0 <= k < |sequences| ==> WellFormed(sequences[k]) {
      FastaHeaderCount(sequences);
    }
  }

  /** `create_test_fasta(output_dir)` as the scripts call it, with its own fixture. */
  method CreateFixtureFasta(outputDir: string) returns (path: string, text: string)
    ensures path == Join(outputDir, TestFastaName)
    ensures text == JoinLines(FastaLines(TestSequences()))
  {
    path, text := CreateTestFasta(outputDir, TestSequences());
  }

  // ---------------------------------------------------------------------------
  // The output prefix and the expected paths

  /** `join(output_dir, basename(fasta_path).split('.')[0] + "_emb")`. */
  function OutputPrefix(fastaPath: string, outputDir: string): string
  {
    Join(outputDir, Stem(Basename(fastaPath)) + "_emb")
  }

  /** The prefix is the output directory joined with the file's stem and `_emb`: its
      last component is exactly that name, and it is never empty nor ends with a
      separator. */
  lemma OutputPrefixShape(fastaPath: string, outputDir: string)
    ensures Basename(OutputPrefix(fastaPath, outputDir)) == Stem(Basename(fastaPath)) + "_emb"
    ensures outputDir != "" && outputDir[|outputDir| - 1] != '/' ==>
      OutputPrefix(fastaPath, outputDir) == outputDir + "/" + Stem(Basename(fastaPath)) + "_emb"
    ensures OutputPrefix(fastaPath, outputDir) != ""
    ensures OutputPrefix(fastaPath, outputDir)[|OutputPrefix(fastaPath, outputDir)| - 1] == 'b'
  {
    var name := Stem(Basename(fastaPath)) + "_emb";
    PrefixNameHasNoSeparator(fastaPath);
    BasenameJoin(outputDir, name);
    JoinShape(outputDir, name);
    JoinLast(outputDir, name);
  }

  /** The last component of the prefix holds no separator: the stem comes from a
      base name, and `_emb` has none. */
  lemma PrefixNameHasNoSeparator(fastaPath: string)
    ensures '/' !in Stem(Basename(fastaPath)) + "_emb"
  {
    var stem := Stem(Basename(fastaPath));
    var name := stem + "_emb";
    BasenameSplits(fastaPath);
    assert '/' !in stem by {
      forall k | 0 <= k < |stem|
        ensures stem[k] != '/'
      {
        assert stem[k] == Basename(fastaPath)[k];
      }
    }
    forall k | 0 <= k < |name|
      ensures name[k] != '/'
    {
      if k < |stem| {
        assert name[k] == stem[k];
      }
    }
  }

  /** The embedding file the scripts expect: `f"{output_prefix}/t5_embeddings/embeddings_file.h5"`. */
  function ExpectedEmbeddingPath(prefix: string): string
  {
    prefix + "/t5_embeddings/embeddings_file.h5"
  }

  /** The remapping file the scripts expect: `f"{output_prefix}/remapped_sequences_file.fasta"`. */
  function ExpectedRemappingPath(prefix: string): string
  {
    prefix + "/remapped_sequences_file.fasta"
  }

  /** The expected paths, spelled by concatenation, are where the embedding script puts
      its store and looks for its remapped file under the same prefix. */
  lemma ExpectedPathsMatchLayout(fastaPath: string, outputDir: string)
    ensures ExpectedEmbeddingPath(OutputPrefix(fastaPath, outputDir)) == StorePath(OutputPrefix(fastaPath, outputDir))
    ensures ExpectedRemappingPath(OutputPrefix(fastaPath, outputDir)) == RemappedPath(OutputPrefix(fastaPath, outputDir))
  {
    OutputPrefixShape(fastaPath, outputDir);
    LayoutByConcatenation(OutputPrefix(fastaPath, outputDir));
  }

  // ---------------------------------------------------------------------------
  // Descriptors

  /** The `t5_embeddings` stage of the embedding descriptor. */
  function T5Stage(): Yaml
  {
    YMap([("type", YStr("embed")), ("protocol", YStr("prottrans_t5_xl_u50")),
          ("half_precision_model", YBool(true)), ("half_precision", YBool(true))])
  }

  /** The stage embeds with the ProtT5-XL-U50 protocol, model and computation in half
      precision. */
  lemma T5StageFields()
    ensures Get(T5Stage(), "type") == Some(YStr("embed"))
    ensures Get(T5Stage(), "protocol") == Some(YStr("prottrans_t5_xl_u50"))
    ensures Get(T5Stage(), "half_precision_model") == Some(YBool(true))
    ensures Get(T5Stage(), "half_precision") == Some(YBool(true))
    ensures Get(T5Stage(), "depends_on") == None
  {
    var entries := T5Stage().entries;
    assert |entries[0].0| == 4 && |entries[1].0| == 8 && |entries[2].0| == 20 && |entries[3].0| == 14;
    LookupAt(entries, 0);
    LookupAt(entries, 1);
    LookupAt(entries, 2);
    LookupAt(entries, 3);
    assert |"depends_on"| == 10;
  }

  /** `create_inference_config(embedding_path, remapping_path, model_param_path, output_dir)`:
      the descriptor it writes. */
  function InferenceConfig(embeddingPath: string, remappingPath: string, modelParamPath: string): Yaml
  {
    YMap([("output_files_name", YStr("test_inference")), ("log_iterations", YInt(100)),
          ("n_draws", YInt(1000)), ("batch_size", YInt(1)),
          ("checkpoints_list", YList([YStr(modelParamPath)])),
          ("embeddings", YStr(embeddingPath)), ("remapping", YStr(remappingPath)),
          ("key_format", YStr("fasta_descriptor"))])
  }

  /** One checkpoint, the given one; one sequence per batch; the two paths unchanged. */
  lemma InferenceConfigFields(embeddingPath: string, remappingPath: string, modelParamPath: string)
    ensures Get(InferenceConfig(embeddingPath, remappingPath, modelParamPath), "checkpoints_list") == Some(YList([YStr(modelParamPath)]))
    ensures Get(InferenceConfig(embeddingPath, remappingPath, modelParamPath), "batch_size") == Some(YInt(1))
    ensures GetString(InferenceConfig(embeddingPath, remappingPath, modelParamPath), ["embeddings"]) == Some(embeddingPath)
    ensures GetString(InferenceConfig(embeddingPath, remappingPath, modelParamPath), ["remapping"]) == Some(remappingPath)
  {
    var doc := InferenceConfig(embeddingPath, remappingPath, modelParamPath);
    var entries := doc.entries;
    assert |entries[0].0| == 17 && |entries[1].0| == 14 && |entries[2].0| == 7 && |entries[3].0| == 10;
    assert |entries[4].0| == 16 && |entries[5].0| == 10 && |entries[6].0| == 9;
    assert entries[3].0[0] == 'b' && entries[5].0[0] == 'e';
    LookupAt(entries, 3);
    LookupAt(entries, 4);
    LookupAt(entries, 5);
    LookupAt(entries, 6);
    assert ["embeddings"][0] == "embeddings" && ["embeddings"][1..] == [];
    assert ["remapping"][0] == "remapping" && ["remapping"][1..] == [];
  }

  // ---------------------------------------------------------------------------
  // The setup

  /** A file the setup writes: plain text, or a YAML descriptor. */
  datatype FileStep = WroteText(path: string, text: string) | WroteDoc(path: string, doc: Yaml)

  /** The files the `try` block of `main` writes into `testDir`, in order: the FASTA
      file, the embedding descriptor built by the script's own `embedConfig`, and the
      inference descriptor pointing at the expected paths. */
  function SetupFiles(testDir: string, sequences: seq<Record>, embedConfig: (string, string) -> Yaml): (files: seq<FileStep>)
    ensures |files| == 3
  {
    var fastaPath := Join(testDir, TestFastaName);
    var prefix := OutputPrefix(fastaPath, testDir);
    [WroteText(fastaPath, JoinLines(FastaLines(sequences))),
     WroteDoc(Join(testDir, EmbeddingConfigName), embedConfig(fastaPath, testDir)),
     WroteDoc(Join(testDir, InferenceConfigName),
              InferenceConfig(ExpectedEmbeddingPath(prefix), ExpectedRemappingPath(prefix), ModelParamPath))]
  }

  /** The `try` block of `main`: the three writes in order, where the file system
      accepts the first `writable` writes and the next one raises. */
  method SetUp(testDir: string, sequences: seq<Record>, embedConfig: (string, string) -> Yaml, writable: nat)
    returns (files: seq<FileStep>, raised: bool)
    ensures raised <==> writable < 3
    ensures files == SetupFiles(testDir, sequences, embedConfig)[..if raised then writable else 3]
  {
    var all := SetupFiles(testDir, sequences, embedConfig);
    ThreePrefixes(all);
    if writable == 0 {
      return [], true;
    }
    var fastaPath, text := CreateTestFasta(testDir, sequences);
    var fastaStep := WroteText(fastaPath, text);
    if writable == 1 {
      return [fastaStep], true;
    }
    var prefix := OutputPrefix(fastaPath, testDir);
    var embedStep := WroteDoc(Join(testDir, EmbeddingConfigName), embedConfig(fastaPath, testDir));
    var embeddingPath := ExpectedEmbeddingPath(prefix);
    var remappingPath := ExpectedRemappingPath(prefix);
    var inferStep := WroteDoc(Join(testDir, InferenceConfigName), InferenceConfig(embeddingPath, remappingPath, ModelParamPath));
    assert all == [fastaStep, embedStep, inferStep];
    if writable == 2 {
      return [fastaStep, embedStep], true;
    }
    files, raised := [fastaStep, embedStep, inferStep], false;
  }

  lemma ThreePrefixes(all: seq<FileStep>)
    requires |all| == 3
    ensures all[..0] == [] && all[..1] == [all[0]] && all[..2] == [all[0], all[1]] && all[..3] == all
  {
  }

  /** What the setup writes fits together: the embedding descriptor names the FASTA file
      written first, which has one header per well-formed protein, and the inference
      descriptor reads the store and the remapped file exactly where the embedding
      run's layout puts them under the prefix it was given. `embedConfig` is any
      builder that opens with the `global` section of `create_embedding_config`. */
  lemma SetupFilesAgree(testDir: string, sequences: seq<Record>, embedConfig: (string, string) -> Yaml)
    requires forall f, d :: ReadEmbedJob(embedConfig(f, d)) == Some(EmbedJob(YStr(f), OutputPrefix(f, d)))
    ensures ReadEmbedJob(SetupFiles(testDir, sequences, embedConfig)[1].doc).Some?
    ensures ReadEmbedJob(SetupFiles(testDir, sequences, embedConfig)[1].doc).value.sequencesFile
         == YStr(SetupFiles(testDir, sequences, embedConfig)[0].path)
    ensures GetString(SetupFiles(testDir, sequences, embedConfig)[2].doc, ["embeddings"])
         == Some(StorePath(ReadEmbedJob(SetupFiles(testDir, sequences, embedConfig)[1].doc).value.prefix))
    ensures GetString(SetupFiles(testDir, sequences, embedConfig)[2].doc, ["remapping"])
         == Some(RemappedPath(ReadEmbedJob(SetupFiles(testDir, sequences, embedConfig)[1].doc).value.prefix))
    ensures (forall k :: 0 <= k < |sequences| ==> WellFormed(sequences[k])) ==>
      HeaderCount(SetupFiles(testDir, sequences, embedConfig)[0].text) == |sequences|
  {
    var fastaPath := Join(testDir, TestFastaName);
    var prefix := OutputPrefix(fastaPath, testDir);
    assert ReadEmbedJob(embedConfig(fastaPath, testDir)) == Some(EmbedJob(YStr(fastaPath), prefix));
    ExpectedPathsMatchLayout(fastaPath, testDir);
    InferenceConfigFields(ExpectedEmbeddingPath(prefix), ExpectedRemappingPath(prefix), ModelParamPath);
    if forall k :: 0 <= k < |sequences| ==> WellFormed(sequences[k]) {
      FastaHeaderCount(sequences);
    }
  }
}
