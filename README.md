# PLM_Sol pipeline core, modelled in Dafny

This project models the three pieces of logic in the PLM_Sol solubility-prediction helper scripts and proves properties of them:

- **The memory-bounded embedding script** (`generate_embeddings_memory_efficient.py`):
  - it reads the stage descriptor and picks the remapped or the original sequence file;
  - a pre-scan counts the lines that start with `>`;
  - records are streamed into two lock-step buffers (residues and ids);
  - a batch is flushed to the embedder and the keyed HDF5 store when it is full, or when the processed count plus the buffer length reaches the header count;
  - there is no flush after the loop.
- **The batch prediction wrapper** (`plmsol_predict_wrapper.py`):
  - the five pipeline steps: embedding descriptor, embedding run, copy of the input as the remapped file, inference descriptor, inference run;
  - each run halts the pipeline on a non-zero exit;
  - the normaliser that turns the prediction table into the six-column standard table.
- **The two setup scripts** (`test_plmsol_minimal.py`, `test_plmsol_functionality.py`):
  - the FASTA writer;
  - the output-prefix derivation;
  - the embedding and inference descriptors and the expected output paths;
  - the early-return control flow of their `main`.
  - Their `create_test_fasta` and `create_inference_config` are the same code in both files (minimal lines 81-96 and 126-146, functionality lines 45-60 and 104-124). The model therefore shares them in one module, `TestSetup`.

Modules:

| Module | What it holds |
|---|---|
| `Wrappers` | `Option` and `Result` |
| `Paths` | POSIX `os.path.join`, `basename`, `dirname` and `abspath`, and `str.split('.')[0]` |
| `Yaml` | descriptor documents as nested maps, lists and scalars, with key lookup |
| `Fasta` | records, the universal-newline header scan, and the writer |
| `Embeddings` | the embedding script: the file layout, the descriptor read, the batching plan `Batches` (a specification function), the store as a class, the imperative loop `EmbedRecords`, and the script's `main` |
| `Frames` | the column-major part of a pandas DataFrame the wrapper uses |
| `Normalizer` | the score precedence rule and the standard table |
| `Wrapper` | the wrapper's `main`, as an event trace over an abstract `run: seq<string> -> int` |
| `TestSetup`, `MinimalTest`, `FunctionalityTest` | the two setup scripts |

Subprocesses, the embedder (`embed_many`), the FASTA parser, CSV reading and the environment probes are parameters of the model:
- `run` gives an exit code per command line;
- `embed` gives the vectors a batch yields and whether the generator raises afterwards;
- `parse` gives the records a text parses to;
- boolean parameters stand for the outcome of each probe.

Scores are `real`, and NaN is a `Missing` cell.

## Model

| member | source | states |
|---|---|---|
| Paths.JoinShape | generate_embeddings_memory_efficient.py:40-47 | `os.path.join` ends with its second component, starts with its first unless the second is absolute, and inserts exactly one separator when neither supplies one |
| Paths.AbsPath | plmsol_predict_wrapper.py:66 | an absolute input path is returned unchanged |
| Paths.Stem | test_plmsol_minimal.py:103 | `split('.')[0]` is a prefix of the name with no dot, followed in the name by a dot unless it is the whole name |
| Paths.BasenameSplits | test_plmsol_minimal.py:103 | the basename has no separator, and the path is its directory part followed by the basename |
| Paths.BasenameJoin | test_plmsol_minimal.py:103-104 | the basename of a join with a separator-free component is that component |
| Paths.StripTrailingSlashes | plmsol_predict_wrapper.py:109 | the result is a prefix with no trailing separator, and only separators were removed |
| Paths.DirnameEmptyIff | plmsol_predict_wrapper.py:109 | `os.path.dirname(p)` is empty exactly when `p` has no separator |
| Paths.JoinEndsWith | plmsol_predict_wrapper.py:68-75 | joins onto one directory with components ending differently are different paths |
| Yaml.LookupFinds | generate_embeddings_memory_efficient.py:36-37 | a key is found exactly when an entry carries it, and the value found is stored under that key |
| Yaml.LookupAt | generate_embeddings_memory_efficient.py:36-37 | the entry at a position is found under its key when no earlier entry has that key |
| Yaml.LookupAbsent | generate_embeddings_memory_efficient.py:36-37 | a key no entry carries is not found (the KeyError case) |
| Yaml.GetPathTwo | generate_embeddings_memory_efficient.py:36-37 | `doc[k1][k2]` is the lookup of `k2` in the value found under `k1`, and missing if either is missing |
| Fasta.CountHeaders | generate_embeddings_memory_efficient.py:71-75 | the counting loop returns the number of lines that start with `>`, with `\n`, `\r` and `\r\n` all ending a line |
| Fasta.HeaderCountOfLine | generate_embeddings_memory_efficient.py:73-75 | one line without breaks adds one to the count exactly when it starts with `>` |
| Fasta.HeaderCountOfLines | generate_embeddings_memory_efficient.py:72-75 | the character scan equals counting header lines one line at a time |
| Fasta.WriteFasta | test_plmsol_minimal.py:91-93 | the writer loop produces `>id`, newline, residues, newline for each record in list order |
| Fasta.FastaLinesShape | test_plmsol_minimal.py:92-93 | for well-formed records, every written line is free of breaks and exactly one line per record is a header |
| Fasta.FastaHeaderCount | test_plmsol_minimal.py:91-93 | the header pre-scan of the embedding script counts exactly as many headers as the writer wrote records |
| Embeddings.LayoutByConcatenation | generate_embeddings_memory_efficient.py:40-47 | for a non-empty prefix without a trailing separator, the store is `prefix/t5_embeddings/embeddings_file.h5` and the remapped file is `prefix/remapped_sequences_file.fasta` |
| Embeddings.StoreLayout | generate_embeddings_memory_efficient.py:40-44 | the store path as plain concatenation |
| Embeddings.RemappedLayout | generate_embeddings_memory_efficient.py:47 | the remapped path as plain concatenation |
| Embeddings.ReadEmbedJobFields | generate_embeddings_memory_efficient.py:36-37 | a descriptor without a `global` section gives no job; otherwise a job is read exactly when that section holds some `sequences_file` value and a string `prefix`, and the job carries exactly those two values |
| Embeddings.ReadGlobalSection | generate_embeddings_memory_efficient.py:36-37 | a descriptor that opens with a `global` section reads back as exactly that job, whatever stages follow |
| Embeddings.RemappedIgnoresConfiguredValue | generate_embeddings_memory_efficient.py:36-53 | a descriptor whose `sequences_file` is the number 5 still gives a job, and when `prefix/remapped_sequences_file.fasta` exists that file is embedded |
| Embeddings.SelectSource | generate_embeddings_memory_efficient.py:47-53 | the remapped file is embedded exactly when it exists; otherwise the configured file is embedded, which fails exactly when the configured value is not a string |
| Embeddings.BatchesPreserveOrder | generate_embeddings_memory_efficient.py:89-107 | the flushed batches, followed by what stays buffered, are exactly the records in order: nothing is lost, duplicated or reordered |
| Embeddings.BatchesBounded | generate_embeddings_memory_efficient.py:93 | every flushed batch is non-empty and at most the batch size, or one record when the batch size is below one; fewer stay buffered |
| Embeddings.BatchesComplete | generate_embeddings_memory_efficient.py:89-107 | when the header count equals the number of records, nothing stays buffered and the processed count reaches the header count |
| Embeddings.BatchesFull | generate_embeddings_memory_efficient.py:93 | with a correct count, every batch except the last is exactly the batch size |
| Embeddings.BatchesSingletons | generate_embeddings_memory_efficient.py:93 | with the default batch size of one, each record is flushed alone, in order |
| Embeddings.ThreeRecordsInTwoBatches | generate_embeddings_memory_efficient.py:89-107 | three records counted as three, with batch size two, give a batch of two and then a batch of one |
| Embeddings.OvercountPending | generate_embeddings_memory_efficient.py:89-115 | when more headers are counted than records are parsed, the completion test never fires: only full batches are flushed, and the last `(buffered + records) mod batch_size` records are never embedded, since there is no flush after the loop |
| Embeddings.OvercountLeavesTail | generate_embeddings_memory_efficient.py:89-115 | one instance: three records counted as four with batch size two flush one batch of two and leave the third record unembedded |
| Embeddings.StoreZipStoresAll | generate_embeddings_memory_efficient.py:99-100 | distinct new ids with enough vectors are all stored, each under the vector at its own position, and no earlier entry changes |
| Embeddings.StoreZipRejectsDuplicate | generate_embeddings_memory_efficient.py:99-100 | an id already stored, or repeated in the batch, makes the batch fail before it is overwritten |
| Embeddings.StoreBatchStoresAll | generate_embeddings_memory_efficient.py:96-100 | one flush of distinct new ids stores exactly those ids, each with its own embedding |
| Embeddings.StoreBatchesAppend | generate_embeddings_memory_efficient.py:93-107 | running the flushes of two lists in a row is running the flushes of their concatenation |
| Embeddings.StoreBatchesComplete | generate_embeddings_memory_efficient.py:93-107 | with distinct new ids and enough vectors, every flush succeeds; the store gains exactly the flushed ids, each holding the vector at its position in its batch's embeddings, and nothing earlier changes |
| Embeddings.EmbeddingStore.constructor | generate_embeddings_memory_efficient.py:83 | a store opened with mode `'w'` is empty |
| Embeddings.EmbeddingStore.CreateDataset | generate_embeddings_memory_efficient.py:100 | a dataset is created exactly when its name is new, and the store is otherwise unchanged |
| Embeddings.FlushBatch | generate_embeddings_memory_efficient.py:95-100 | the store loop leaves the store that zipping ids with the yielded vectors describes, and fails exactly when that zip fails |
| Embeddings.BufferAppend | generate_embeddings_memory_efficient.py:90-91 | appending a record appends its residues and its id: the two buffers stay in lock-step |
| Embeddings.BufferStep | generate_embeddings_memory_efficient.py:89-93 | a record that does not trigger a flush keeps the loop invariant, with the record buffered |
| Embeddings.FlushSucceeds | generate_embeddings_memory_efficient.py:93-111 | a successful flush keeps the invariant: the processed count grows by the batch length, the buffers are empty, and there is one more cache release in half precision |
| Embeddings.FlushFails | generate_embeddings_memory_efficient.py:113-115 | a failing flush ends the run with exit code 1 and the store the planned flushes leave |
| Embeddings.LoopEnd | generate_embeddings_memory_efficient.py:89-116 | when the records run out, the flushes done are the whole plan and the buffer holds its unflushed tail |
| Embeddings.EmbedRecords | generate_embeddings_memory_efficient.py:83-115 | the imperative loop leaves the store that the plan's flushes produce, exits 1 exactly when one raised, releases the cache once per completed flush only in half precision, and otherwise reports the processed count and the unflushed ids |
| Embeddings.EmbeddingMain | generate_embeddings_memory_efficient.py:27-115 | a descriptor without `sequences_file` or a string prefix, a missing embedder, a non-string configured file when no remapped file exists, or a missing input exits 1 with no store; otherwise the store path is `prefix/t5_embeddings/embeddings_file.h5` and the store is what the plan over the chosen file's records and header count produces |
| Embeddings.WrittenFastaEmbedsCompletely | generate_embeddings_memory_efficient.py:71-107 | a file written by the setup scripts' writer is embedded completely for any batch size of at least one: batches are within the size and concatenate to the records, and the store holds exactly their ids, each with its own embedding |
| Frames.AssignConstant | plmsol_predict_wrapper.py:93 | after a scalar assignment, every row of the assigned column reads back as the scalar, and every other label reads as before |
| Frames.Assign | plmsol_predict_wrapper.py:93-105 | assigning a column makes that label read back as the column, leaves every other label's column as it was, appends a new label at the right, and keeps labels distinct |
| Frames.RenameReadBack | plmsol_predict_wrapper.py:107 | after renaming, no `from` label is left (unless it is also the target), a frame that had `from` has `to`, every other label keeps its presence and its column, and a new `to` reads as `from` did |
| Frames.RenameAbsent | plmsol_predict_wrapper.py:107 | renaming a label that is absent changes nothing |
| Frames.Select | plmsol_predict_wrapper.py:108 | `df[list]` is a KeyError exactly when a wanted label is absent |
| Frames.SelectDistinct | plmsol_predict_wrapper.py:108 | on distinct labels, the selection has exactly the wanted labels in order, each with its own column |
| Frames.SelectDuplicated | plmsol_predict_wrapper.py:107-108 | a wanted label that occurs twice is selected twice, so the result is wider than the list |
| Normalizer.Lower | plmsol_predict_wrapper.py:101 | the result has the length of the input and no capital letter; a capital becomes the small letter at the same place in the alphabet, and every other character stays |
| Normalizer.LowerIdempotent | plmsol_predict_wrapper.py:101 | lowering twice is lowering once |
| Normalizer.LabelScore | plmsol_predict_wrapper.py:101 | a label maps to 1 or 0 |
| Normalizer.LabelScoreIff | plmsol_predict_wrapper.py:101 | a characterisation made without `Lower`, in both directions: a number scores 1 exactly when it is 1; NaN scores 0; a string scores 1 exactly when it has seven characters and each is the matching letter of `soluble` in small or capital form |
| Normalizer.LabelExamples | plmsol_predict_wrapper.py:101 | `Soluble` and `SOLUBLE` map to 1; `insoluble`, the string `1`, the number 0.5 and NaN map to 0 |
| Normalizer.Complement | plmsol_predict_wrapper.py:105 | `1 - x` raises exactly on a string; a number and its complement sum to 1, and NaN stays NaN |
| Normalizer.ComplementInvolution | plmsol_predict_wrapper.py:105 | complementing a numeric or missing score twice gives it back |
| Normalizer.ComplementColumnInvolution | plmsol_predict_wrapper.py:105 | when `1 - column` succeeds, each numeric cell and its complement sum to 1, NaN cells stay NaN, and complementing the result again gives back the column |
| Normalizer.SeqIndex | plmsol_predict_wrapper.py:92 | the id index holds exactly the ids of the records |
| Normalizer.SeqIndexLast | plmsol_predict_wrapper.py:92 | a later record with the same id overrides an earlier one |
| Normalizer.LookupSequenceFinds | plmsol_predict_wrapper.py:92-94 | mapping an accession through the index of the records gives NaN exactly when it is not a string or no record has it as id; otherwise the residues of the last record with that id |
| Normalizer.ResolvedIsRowScore | plmsol_predict_wrapper.py:96-103 | the score of each row follows the precedence SolubilityScore, then probability, then the mapped pred_label, then 0.0 |
| Normalizer.ResolvedScoresAfterAssign | plmsol_predict_wrapper.py:93-94 | assigning the Predictor or Sequence column does not change the resolved score |
| Normalizer.WithPredictor | plmsol_predict_wrapper.py:93 | the Predictor column is `PLM_Sol` in every row; other columns and the score are unchanged |
| Normalizer.WithSequenceColumn | plmsol_predict_wrapper.py:94 | each row's Sequence is the lookup of its Accession; other columns and the score are unchanged |
| Normalizer.WithSequences | plmsol_predict_wrapper.py:93-94 | both columns are added; Accession, `name` and the resolved score are untouched |
| Normalizer.WithScore | plmsol_predict_wrapper.py:96-103 | SolubilityScore holds the resolved score, and no other column changes |
| Normalizer.WithProbabilities | plmsol_predict_wrapper.py:104-105 | Probability_Soluble copies the score and Probability_Insoluble holds its complement; no other column changes |
| Normalizer.Normalize | plmsol_predict_wrapper.py:91-110 | a standard table has the prediction table's height (its content is in the lemmas below) |
| Normalizer.NormalizeFailsIff | plmsol_predict_wrapper.py:94-108 | in both directions: normalisation fails exactly when Accession is missing (a KeyError at the lookup, even with a `name` column) or some row's score is a string |
| Normalizer.NormalizeErrIffComplement | plmsol_predict_wrapper.py:105-108 | with an Accession column, normalisation fails exactly when the complement step does |
| Normalizer.ScoresTextIff | plmsol_predict_wrapper.py:96-105 | a resolved score is a string exactly where that row's precedence rule yields one |
| Normalizer.NormalizedSelects | plmsol_predict_wrapper.py:108 | once the score is in place, the final selection finds all six columns |
| Normalizer.OutputColumnsPresent | plmsol_predict_wrapper.py:107-108 | the rename never removes a standard label |
| Normalizer.OutputColumnsSpelled | plmsol_predict_wrapper.py:108 | the standard columns are Accession, Sequence, Predictor, SolubilityScore, Probability_Soluble and Probability_Insoluble, in that order |
| Normalizer.StandardRow | plmsol_predict_wrapper.py:92-105 | a standard row has six cells, and for a numeric score the two probabilities sum to 1 |
| Normalizer.PreparedColumns | plmsol_predict_wrapper.py:93-105 | before the rename, each standard column holds what its assignment put there |
| Normalizer.NormalizeIsSelect | plmsol_predict_wrapper.py:107-108 | the standard table is the selection of the standard columns after the rename |
| Normalizer.NormalizeShape | plmsol_predict_wrapper.py:92-108 | for a CSV table with Accession and no `name`, holding numeric or missing scores: the result has exactly the six columns in order, one row per prediction row in the same order, and each row is the standard row |
| Normalizer.NormalizeWithName | plmsol_predict_wrapper.py:107-108 | with both Accession and `name`, the rename after the lookup makes two Accession columns, so the table gets a seventh column |
| Wrapper.EmbedDescriptorRoundTrip | plmsol_predict_wrapper.py:65-70 | the embedding script reads back exactly the input path and prefix the wrapper wrote |
| Wrapper.InferEntries | plmsol_predict_wrapper.py:79-85 | the inference descriptor's `global` section holds the model configuration and the three paths under their keys |
| Wrapper.InferDescriptorFields | plmsol_predict_wrapper.py:79-85 | the model configuration and the three paths of the inference descriptor read back unchanged |
| Wrapper.MakeOutputDirAsWritten | plmsol_predict_wrapper.py:109 | as written, the step either creates the parent directory or raises, and never skips |
| Wrapper.MakeOutputDirAsWrittenRaises | plmsol_predict_wrapper.py:109 | as written, the step raises exactly for output paths without a separator, such as `predictions.csv` |
| Wrapper.MakeOutputDir | plmsol_predict_wrapper.py:109 | the corrected step never raises |
| Wrapper.MakeOutputDirCorrect | plmsol_predict_wrapper.py:109 | the corrected step skips exactly for bare file names, creates only a non-empty parent, and agrees with the code as written whenever the path has a separator |
| Wrapper.Created | plmsol_predict_wrapper.py:63-85 | the created files are exactly the descriptors written and the copy targets: each of them is created, and nothing else is |
| Wrapper.RunStages | plmsol_predict_wrapper.py:63-88 | the steps come in the source order: embed descriptor, embed run, copy, infer descriptor, infer run. A non-zero embed exit ends the trace after the run; each run's exit code is `run` of its command; `ok` holds exactly when both exit 0 |
| Wrapper.StagesExtend | plmsol_predict_wrapper.py:88-110 | steps after two successful stages keep the stage order and the halting property when none of them is a stage run |
| Wrapper.OutputSteps | plmsol_predict_wrapper.py:109-110 | the output steps end with writing the table, and create the parent directory first exactly when the path has a separator |
| Wrapper.CompletedRun | plmsol_predict_wrapper.py:63-110 | a run past both stages keeps the stage steps in place, with the output steps after them |
| Wrapper.PredictMain | plmsol_predict_wrapper.py:57-111 | the stages run in order and halt on a failing exit; a normalisation failure carries the normaliser's error; a completed run ends with the normalised table written to `out`, after the directory step when `out` has a separator |
| Wrapper.EmbeddingReadsOriginal | plmsol_predict_wrapper.py:63-76 | the embedding run reads the original input: the remapped file it looks for does not exist yet when it starts |
| Wrapper.InferenceFindsEmbeddings | plmsol_predict_wrapper.py:74-82 | the inference descriptor points at the store and the remapped file where the embedding script puts and looks for them under the same prefix, and the copy goes to that remapped path |
| TestSetup.CreateFixtureFasta | test_plmsol_minimal.py:81-96 | `create_test_fasta` as the scripts call it writes `output_dir/test_dataset.fasta` with the writer's text for the three literal proteins |
| TestSetup.CreateTestFasta | test_plmsol_minimal.py:81-96 | the file is `output_dir/test_dataset.fasta`, its text is what the writer produces for the fixture, and for well-formed records the pre-scan counts one header per protein |
| TestSetup.OutputPrefixShape | test_plmsol_minimal.py:103-104 | the prefix's last component is the stem plus `_emb`; it is `dir/stem_emb` for a directory without a trailing separator; it is non-empty and ends in a letter |
| TestSetup.PrefixNameHasNoSeparator | test_plmsol_minimal.py:103 | the last component of the prefix has no separator |
| TestSetup.ExpectedPathsMatchLayout | test_plmsol_minimal.py:184-186 | the expected paths spelled by concatenation are exactly where the embedding script writes its store and looks for its remapped file |
| TestSetup.T5StageFields | test_plmsol_minimal.py:111-116 | the stage embeds with `prottrans_t5_xl_u50`, both half-precision flags are true, and it depends on nothing |
| TestSetup.InferenceConfigFields | test_plmsol_minimal.py:130-139 | `checkpoints_list` is exactly the given checkpoint, `batch_size` is 1, and the two paths pass through unchanged |
| TestSetup.SetupFiles | test_plmsol_minimal.py:176-194 | the setup writes three files |
| TestSetup.SetUp | test_plmsol_minimal.py:176-207 | the three writes happen in order; the block raises exactly when the file system refuses one of them, and the files written are the ones before it |
| TestSetup.SetupFilesAgree | test_plmsol_minimal.py:178-194 | the embedding descriptor names the FASTA file written first; the inference descriptor reads the store and the remapped file where the embedding run puts them; for well-formed records the header count is the protein count |
| MinimalTest.EmbeddingConfigFields | test_plmsol_minimal.py:98-117 | the descriptor names the FASTA file and the derived prefix, and holds `global` and `t5_embeddings` in that order |
| MinimalTest.EmbeddingConfigResolves | test_plmsol_minimal.py:106-117 | no section names a dependency |
| MinimalTest.RunMinimal | test_plmsol_minimal.py:148-209 | the probes run imports, then model files, then embedder, stopping at the first failure with result False and no file created; after that the result is True even when setup raised |
| MinimalTest.SetupAgrees | test_plmsol_minimal.py:176-194 | the files this script writes agree on the FASTA path, the store path and the remapped path |
| FunctionalityTest.AnnotationStageFields | test_plmsol_functionality.py:81-85 | the annotation stage is an extraction that depends on `t5_embeddings` |
| FunctionalityTest.EmbeddingConfigFields | test_plmsol_functionality.py:62-86 | the descriptor names the FASTA file and the derived prefix, holds `global`, `t5_embeddings` and `annotations_from_t5` in order, and the annotation stage depends on `t5_embeddings` |
| FunctionalityTest.EmbeddingConfigResolves | test_plmsol_functionality.py:70-86 | every dependency names another existing section that is not `global` |
| FunctionalityTest.RunFunctionality | test_plmsol_functionality.py:134-189 | the result is True exactly when the imports succeed and all three writes succeed; a failed import creates nothing |
| FunctionalityTest.SetupAgrees | test_plmsol_functionality.py:149-170 | the files this script writes agree on the FASTA path, the store path and the remapped path |

## Left out

- Printing, argument parsing, and the `sys.exit` in the import-failure branch are not modelled as code. The import failure is modelled as exit code 1.
- Subprocesses are the parameter `run`, which maps a command line to an exit code. Their own effects (the store and the predictions file) are parameters too.
- YAML serialisation, `pd.read_csv` and `to_csv` formatting, and `Bio.SeqIO` parsing are outside code:
  - the descriptors are documents, not their text;
  - the prediction table is a parameter;
  - the records a text parses to come from `parse`.
- The numerics of `embed_many` and the HDF5 file format are outside code.
  - The store is a map from dataset name to vector.
  - Creating a dataset whose name already exists is taken to raise, which gives exit 1. This is an assumption about h5py.
  - The names are flat. h5py's `create_dataset` reads a `/` in a record id as a group path, which the model does not. So ids `a` then `a/b` fail in h5py but succeed in the model, and h5py treats ids `/x` and `x` as one dataset.
- Floating point: scores and embeddings are `real`. A `pred_label` score is the number 1 or 0, not a Python `int` or `bool`.
- A cell has no boolean kind. A `True`/`False` column that `pd.read_csv` reads as bool is represented by `Num(1.0)`/`Num(0.0)`, which gives the source's results (`True == 1`, `1 - True == 0`). Given as `Text("True")` instead, it would score 0.
- Embeddings.SelectSource, Embeddings.EmbeddingMain: a configured `sequences_file` that is not a string is taken to fail when it is used. Python's `open` would accept an integer there as a file descriptor; that case is not modelled.
- `str.lower` is modelled on ASCII letters only.
- Paths.AbsPath: `os.path.abspath` is modelled as a join with the working directory, without normalisation of `.`, `..` or repeated separators.
- The writes into the temporary directory in the wrapper are taken to succeed. These are the two `yaml.safe_dump` descriptor writes (plmsol_predict_wrapper.py:69, :84) and the `shutil.copy` of the input (plmsol_predict_wrapper.py:76).
- `os.makedirs` of the embeddings directory (generate_embeddings_memory_efficient.py:41) and of the test directory (test_plmsol_minimal.py:173, test_plmsol_functionality.py:146) are taken to succeed.
- `tempfile.TemporaryDirectory` cleanup, `torch.cuda.empty_cache` (only counted), and the construction of the embedder object are not modelled.
- The shallow `.copy()` of the two descriptor templates (plmsol_predict_wrapper.py:65,79) shares and mutates the nested `global` dictionary. The model builds each descriptor as a value, so the aliasing is not captured. Within one run it changes nothing the wrapper reads.
- The environment probes of the setup scripts (module imports, the model checkpoint, the embedder class) are boolean parameters.
- A write that raises in the setup leaves no partial file in the model.
- Wrapper.PredictMain: requires a well-formed table (every column as tall as the table), which a table read by `pd.read_csv` always is.
- Wrapper.PredictMain: uses the corrected output-directory step (see Findings). The code as written is `Wrapper.MakeOutputDirAsWritten`.
- TestSetup.CreateTestFasta, TestSetup.CreateFixtureFasta: the fixture proteins are a parameter of the setup; `CreateFixtureFasta` passes the literal ones (`TestSequences`). Their well-formedness (no line breaks in the literal residues) is not proved. So the header count is stated for any well-formed fixture, rather than as 3 for the literals.
- Embeddings.WrittenFastaEmbedsCompletely: it takes the records the parser returns to be exactly the records written. `Bio.SeqIO` cuts `record.id` at the first whitespace of the header, so this holds only for ids without whitespace. The fixture ids have none.
- MinimalTest.EmbeddingConfigFields, FunctionalityTest.EmbeddingConfigFields: the section order stated is that of the dictionary. `yaml.dump` sorts keys by default, so the file written lists the sections alphabetically (`annotations_from_t5` first in the functionality test).
- Embeddings.EmbeddingMain: the embedder import and construction are one boolean. A failure while constructing the embedder object is not modelled separately.

## Findings

| source | as written | input that shows it | evidently intended | confidence | as-written member | corrected member |
|---|---|---|---|---|---|---|
| plmsol_predict_wrapper.py:109 | `os.makedirs(os.path.dirname(args.out), exist_ok=True)` is called on the parent directory even when it is empty | `--out predictions.csv` gives `os.path.dirname` = `''`, and `os.makedirs('')` raises FileNotFoundError after the whole pipeline has run | skip the directory creation when the output has no directory part | not executed | Wrapper.MakeOutputDirAsWritten, Wrapper.MakeOutputDirAsWrittenRaises | Wrapper.MakeOutputDir, Wrapper.MakeOutputDirCorrect |
