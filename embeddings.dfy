/** The memory-bounded embedding script: it reads the stage descriptor, picks the
    sequence file, counts its header lines, then streams the records into a buffer that
    it flushes to the embedder and the keyed store batch by batch. */
module Embeddings {
  import opened Wrappers
  import opened Paths
  import opened Yaml
  import opened Fasta

  /** An embedding: a fixed-dimension numeric array (floating point is modelled as real). */
  type Vector = seq<real>

  /** What iterating over `embed_many(batch)` produces: the vectors it yields, and whether
      it raises once those are exhausted (it is a generator, so it may fail part-way). */
  datatype Yielded = Yielded(vectors: seq<Vector>, raises: bool)

  /** The embedding model, treated as an opaque capability. */
  type Embedder = seq<string> -> Yielded

  // ---------------------------------------------------------------------------
  // File layout under the output prefix

  const EmbeddingsDirName := "t5_embeddings"
  const StoreFileName := "embeddings_file.h5"
  const RemappedFileName := "remapped_sequences_file.fasta"

  function EmbeddingsDir(prefix: string): string
  {
    Join(prefix, EmbeddingsDirName)
  }

  /** Where the script writes its store: `prefix/t5_embeddings/embeddings_file.h5`. */
  function StorePath(prefix: string): string
  {
    Join(EmbeddingsDir(prefix), StoreFileName)
  }

  /** Where the script looks for a remapped sequence file: `prefix/remapped_sequences_file.fasta`. */
  function RemappedPath(prefix: string): string
  {
    Join(prefix, RemappedFileName)
  }

  /** With a prefix that is non-empty and has no trailing separator, the joined layout
      is plain string concatenation, as the test scripts spell it. */
  lemma LayoutByConcatenation(prefix: string)
    requires prefix != "" && prefix[|prefix| - 1] != '/'
    ensures StorePath(prefix) == prefix + "/t5_embeddings/embeddings_file.h5"
    ensures RemappedPath(prefix) == prefix + "/remapped_sequences_file.fasta"
  {
    StoreLayout(prefix);
    RemappedLayout(prefix);
  }

  lemma StoreLayout(prefix: string)
    requires prefix != "" && prefix[|prefix| - 1] != '/'
    ensures StorePath(prefix) == prefix + "/t5_embeddings/embeddings_file.h5"
  {
    var dir := EmbeddingsDir(prefix);
    var d, f := "/" + EmbeddingsDirName, "/" + StoreFileName;
    assert dir == prefix + d;
    assert dir[|dir| - 1] == 's';
    assert StorePath(prefix) == dir + f;
    StoreSpelling();
    AppendAssoc(prefix, d, f);
  }

  lemma RemappedLayout(prefix: string)
    requires prefix != "" && prefix[|prefix| - 1] != '/'
    ensures RemappedPath(prefix) == prefix + "/remapped_sequences_file.fasta"
  {
    RemappedSpelling();
  }

  lemma AppendAssoc(a: string, b: string, c: string)
    ensures a + b + c == a + (b + c)
  {
  }

  lemma StoreSpelling()
    ensures "/t5_embeddings/embeddings_file.h5" == ("/" + EmbeddingsDirName) + ("/" + StoreFileName)
  {
  }

  lemma RemappedSpelling()
    ensures "/remapped_sequences_file.fasta" == "/" + RemappedFileName
  {
  }

  // ---------------------------------------------------------------------------
  // Reading the descriptor and choosing the input

  /** The two fields the script takes from its descriptor. The prefix is joined with
      path components at once, so it must be a string; `sequences_file` is kept as the
      value it is, since it is only used when no remapped file exists. */
  datatype EmbedJob = EmbedJob(sequencesFile: Yaml, prefix: string)

  /** The `global` section of a descriptor: the input file and the output prefix. */
  function GlobalSection(sequencesFile: string, prefix: string): Yaml
  {
    YMap([("sequences_file", YStr(sequencesFile)), ("prefix", YStr(prefix))])
  }

  /** `config['global']['sequences_file']` and `config['global']['prefix']`; None when
      either is missing (a KeyError in the script) or the prefix is not a string (a
      TypeError when it is joined with `t5_embeddings`). */
  function ReadEmbedJob(config: Yaml): (r: Option<EmbedJob>)
    ensures r.Some? <==>
      GetPath(config, ["global", "sequences_file"]).Some? && GetString(config, ["global", "prefix"]).Some?
    ensures r.Some? ==>
      GetPath(config, ["global", "sequences_file"]) == Some(r.value.sequencesFile) &&
      GetString(config, ["global", "prefix"]) == Some(r.value.prefix)
  {
    match (GetPath(config, ["global", "sequences_file"]), GetString(config, ["global", "prefix"]))
    case (Some(f), Some(p)) => Some(EmbedJob(f, p))
    case _ => None
  }

  /** The job read from a descriptor, in terms of the document: nothing without a
      `global` section, and otherwise a job exactly when that section holds some
      `sequences_file` and a string `prefix`, which are then the job's fields. */
  lemma ReadEmbedJobFields(config: Yaml)
    ensures Get(config, "global").None? ==> ReadEmbedJob(config) == None
    ensures Get(config, "global").Some? ==>
      var section := Get(config, "global").value;
      (ReadEmbedJob(config).Some? <==>
        Get(section, "sequences_file").Some? &&
        (exists p :: Get(section, "prefix") == Some(YStr(p))))
    ensures ReadEmbedJob(config).Some? ==>
      && Get(config, "global").Some?
      && Get(Get(config, "global").value, "sequences_file") == Some(ReadEmbedJob(config).value.sequencesFile)
      && Get(Get(config, "global").value, "prefix") == Some(YStr(ReadEmbedJob(config).value.prefix))
  {
    GetPathTwo(config, "global", "sequences_file");
    GetPathTwo(config, "global", "prefix");
    if Get(config, "global").Some? {
      var section := Get(config, "global").value;
      var pf := Get(section, "prefix");
      if pf.Some? && pf.value.YStr? {
        assert pf == Some(YStr(pf.value.s));
      }
    }
  }

  /** The configured input is not looked at while a remapped file exists: a descriptor
      whose `sequences_file` is the number 5 still gives a job, and the remapped file
      under its prefix is embedded. */
  lemma RemappedIgnoresConfiguredValue(existing: set<string>)
    requires RemappedPath("/t") in existing
    ensures ReadEmbedJob(YMap([("global", YMap([("sequences_file", YInt(5)), ("prefix", YStr("/t"))]))])).Some?
    ensures SelectSource(ReadEmbedJob(YMap([("global", YMap([("sequences_file", YInt(5)), ("prefix", YStr("/t"))]))])).value, existing)
         == Some(RemappedPath("/t"))
  {
    var inner := [("sequences_file", YInt(5)), ("prefix", YStr("/t"))];
    var entries := [("global", YMap(inner))];
    assert |inner[0].0| != |inner[1].0|;
    LookupAt(entries, 0);
    LookupAt(inner, 0);
    LookupAt(inner, 1);
    GetPathTwo(YMap(entries), "global", "sequences_file");
    GetPathTwo(YMap(entries), "global", "prefix");
  }

  /** A descriptor that opens with a `global` section reads back as exactly that job,
      whatever stage sections follow it. */
  lemma ReadGlobalSection(sequencesFile: string, prefix: string, stages: seq<(string, Yaml)>)
    ensures ReadEmbedJob(YMap([("global", GlobalSection(sequencesFile, prefix))] + stages))
         == Some(EmbedJob(YStr(sequencesFile), prefix))
  {
    var inner := [("sequences_file", YStr(sequencesFile)), ("prefix", YStr(prefix))];
    var entries := [("global", GlobalSection(sequencesFile, prefix))] + stages;
    var doc := YMap(entries);
    LookupAt(entries, 0);
    assert |inner[0].0| != |inner[1].0|;
    LookupAt(inner, 0);
    LookupAt(inner, 1);
    GetPathTwo(doc, "global", "sequences_file");
    GetPathTwo(doc, "global", "prefix");
  }

  /** The file embedded: the remapped file when it exists, otherwise the configured one,
      which fails (None) when the configured value is not a string. */
  function SelectSource(job: EmbedJob, existing: set<string>): (source: Option<string>)
    ensures RemappedPath(job.prefix) in existing ==> source == Some(RemappedPath(job.prefix))
    ensures RemappedPath(job.prefix) !in existing ==> (source.Some? <==> job.sequencesFile.YStr?)
    ensures RemappedPath(job.prefix) !in existing && job.sequencesFile.YStr? ==> source == Some(job.sequencesFile.s)
    ensures source.Some? ==> source.value == RemappedPath(job.prefix) || job.sequencesFile == YStr(source.value)
  {
    if RemappedPath(job.prefix) in existing then Some(RemappedPath(job.prefix))
    else if job.sequencesFile.YStr? then Some(job.sequencesFile.s)
    else None
  }

  // ---------------------------------------------------------------------------
  // The batching plan

  function Ids(rs: seq<Record>): (ids: seq<string>)
    ensures |ids| == |rs| && forall k :: 0 <= k < |rs| ==> ids[k] == rs[k].id
  {
    seq(|rs|, k requires 0 <= k < |rs| => rs[k].id)
  }

  function Residues(rs: seq<Record>): (rsd: seq<string>)
    ensures |rsd| == |rs| && forall k :: 0 <= k < |rs| ==> rsd[k] == rs[k].residues
  {
    seq(|rs|, k requires 0 <= k < |rs| => rs[k].residues)
  }

  function Flatten(batches: seq<seq<Record>>): seq<Record>
  {
    if batches == [] then [] else batches[0] + Flatten(batches[1..])
  }

  /** The flush test of the loop, with `len` the buffer length after the append. */
  predicate FlushDue(len: int, processed: int, count: int, batchSize: int)
  {
    len >= batchSize || processed + len == count
  }

  /** The batches the loop flushes, in order, and the records still buffered when the
      input runs out (there is no flush after the loop). */
  datatype Plan = Plan(flushed: seq<seq<Record>>, pending: seq<Record>)

  /** The buffering decisions of the loop over `records`, with `processed` records
      already flushed and `buffer` not yet flushed. */
  function Batches(records: seq<Record>, count: int, batchSize: int, processed: int, buffer: seq<Record>): Plan
    decreases |records|
  {
    if records == [] then Plan([], buffer)
    else
      var b := buffer + [records[0]];
      if FlushDue(|b|, processed, count, batchSize) then
        var rest := Batches(records[1..], count, batchSize, processed + |b|, []);
        Plan([b] + rest.flushed, rest.pending)
      else
        Batches(records[1..], count, batchSize, processed, b)
  }

  /** The plan for a whole run: nothing flushed and nothing buffered at the start. */
  function Plan0(records: seq<Record>, count: int, batchSize: int): Plan
  {
    Batches(records, count, batchSize, 0, [])
  }

  lemma {:induction false} FlattenAppend(a: seq<seq<Record>>, b: seq<seq<Record>>)
    ensures Flatten(a + b) == Flatten(a) + Flatten(b)
  {
    if a == [] {
      assert a + b == b;
    } else {
      assert (a + b)[1..] == a[1..] + b;
      FlattenAppend(a[1..], b);
    }
  }

  /** Nothing is lost, duplicated or reordered: the flushed batches followed by the
      unflushed remainder are exactly the buffer followed by the records. */
  lemma {:induction false} BatchesPreserveOrder(records: seq<Record>, count: int, batchSize: int, processed: int, buffer: seq<Record>)
    ensures var p := Batches(records, count, batchSize, processed, buffer);
      Flatten(p.flushed) + p.pending == buffer + records
  {
    if records != [] {
      var b := buffer + [records[0]];
      assert b + records[1..] == buffer + records;
      if FlushDue(|b|, processed, count, batchSize) {
        var rest := Batches(records[1..], count, batchSize, processed + |b|, []);
        BatchesPreserveOrder(records[1..], count, batchSize, processed + |b|, []);
        assert ([b] + rest.flushed)[1..] == rest.flushed;
        assert [] + records[1..] == records[1..];
      } else {
        BatchesPreserveOrder(records[1..], count, batchSize, processed, b);
      }
    }
  }

  /** Every flushed batch is non-empty and holds at most `max(batchSize, 1)` records, and
      fewer than that many stay buffered (with `batchSize <= 0` every batch is a single record). */
  lemma {:induction false} BatchesBounded(records: seq<Record>, count: int, batchSize: int, processed: int, buffer: seq<Record>)
    requires |buffer| < (if batchSize < 1 then 1 else batchSize)
    ensures var p := Batches(records, count, batchSize, processed, buffer);
      && (forall k :: 0 <= k < |p.flushed| ==> 0 < |p.flushed[k]| <= (if batchSize < 1 then 1 else batchSize))
      && |p.pending| < (if batchSize < 1 then 1 else batchSize)
  {
    if records != [] {
      var b := buffer + [records[0]];
      if FlushDue(|b|, processed, count, batchSize) {
        var rest := Batches(records[1..], count, batchSize, processed + |b|, []);
        BatchesBounded(records[1..], count, batchSize, processed + |b|, []);
        var fl := [b] + rest.flushed;
        assert forall k :: 1 <= k < |fl| ==> fl[k] == rest.flushed[k - 1];
      } else {
        BatchesBounded(records[1..], count, batchSize, processed, b);
      }
    }
  }

  /** When the header count equals the number of records, the last record always meets
      the flush test: nothing stays buffered and `processed` reaches the count. */
  lemma {:induction false} BatchesComplete(records: seq<Record>, count: int, batchSize: int, processed: int, buffer: seq<Record>)
    requires processed + |buffer| + |records| == count
    requires records == [] ==> buffer == []
    ensures var p := Batches(records, count, batchSize, processed, buffer);
      p.pending == [] && processed + |Flatten(p.flushed)| == count
  {
    if records != [] {
      var b := buffer + [records[0]];
      if FlushDue(|b|, processed, count, batchSize) {
        BatchesComplete(records[1..], count, batchSize, processed + |b|, []);
        var rest := Batches(records[1..], count, batchSize, processed + |b|, []);
        assert ([b] + rest.flushed)[1..] == rest.flushed;
      } else {
        BatchesComplete(records[1..], count, batchSize, processed, b);
      }
    }
  }

  predicate FullButLast(batches: seq<seq<Record>>, batchSize: int)
  {
    forall k :: 0 <= k < |batches| - 1 ==> |batches[k]| == batchSize
  }

  /** With a correct count, every batch but the last is full: the batches are
      `batchSize` records each, and the last holds the rest. */
  lemma {:induction false} BatchesFull(records: seq<Record>, count: int, batchSize: int, processed: int, buffer: seq<Record>)
    requires batchSize >= 1 && |buffer| < batchSize
    requires processed + |buffer| + |records| == count
    ensures FullButLast(Batches(records, count, batchSize, processed, buffer).flushed, batchSize)
  {
    if records != [] {
      var b := buffer + [records[0]];
      if FlushDue(|b|, processed, count, batchSize) {
        var rest := Batches(records[1..], count, batchSize, processed + |b|, []);
        var fl := [b] + rest.flushed;
        assert Batches(records, count, batchSize, processed, buffer) == Plan(fl, rest.pending);
        if records[1..] != [] {
          BatchesFull(records[1..], count, batchSize, processed + |b|, []);
          assert |b| == batchSize;
          assert forall k :: 1 <= k < |fl| ==> fl[k] == rest.flushed[k - 1];
        } else {
          assert rest.flushed == [];
        }
      } else {
        BatchesFull(records[1..], count, batchSize, processed, b);
      }
    }
  }

  /** A batch size of one or less (the script's default is one) flushes each record on its own. */
  lemma {:induction false} BatchesSingletons(records: seq<Record>, count: int, batchSize: int, processed: int)
    requires batchSize <= 1
    ensures var p := Batches(records, count, batchSize, processed, []);
      p.pending == [] && |p.flushed| == |records| &&
      forall k :: 0 <= k < |records| ==> p.flushed[k] == [records[k]]
  {
    if records != [] {
      assert [] + [records[0]] == [records[0]];
      BatchesSingletons(records[1..], count, batchSize, processed + 1);
    }
  }

  /** The end-to-end scenario: three records counted as three, batch size two, give a
      batch of two and then a batch of one. */
  lemma ThreeRecordsInTwoBatches(r1: Record, r2: Record, r3: Record)
    ensures Plan0([r1, r2, r3], 3, 2) == Plan([[r1, r2], [r3]], [])
  {
    assert [r1, r2, r3][1..] == [r2, r3] && [r2, r3][1..] == [r3] && [r3][1..] == [];
    assert [] + [r1] == [r1] && [r1] + [r2] == [r1, r2] && [] + [r3] == [r3];
    assert Batches([r3], 3, 2, 2, []) == Plan([[r3]], []);
    assert Batches([r2, r3], 3, 2, 0, [r1]) == Plan([[r1, r2], [r3]], []);
  }

  /** When the header count exceeds the records actually parsed, the records buffered
      after the last flush are never embedded: three records counted as four, batch
      size two, leave the third one unflushed. */
  lemma OvercountLeavesTail(r1: Record, r2: Record, r3: Record)
    ensures Plan0([r1, r2, r3], 4, 2) == Plan([[r1, r2]], [r3])
  {
    assert [r1, r2, r3][1..] == [r2, r3] && [r2, r3][1..] == [r3] && [r3][1..] == [];
    assert [] + [r1] == [r1] && [r1] + [r2] == [r1, r2] && [] + [r3] == [r3];
    assert Batches([], 4, 2, 2, [r3]) == Plan([], [r3]);
    assert Batches([r3], 4, 2, 2, []) == Plan([], [r3]);
    assert Batches([r2, r3], 4, 2, 0, [r1]) == Plan([[r1, r2]], [r3]);
  }

  /** The general overcount: when the header count exceeds every record the loop can
      see, the completion test never fires, so only full batches are flushed and the
      last `(|buffer| + |records|) % batchSize` records stay buffered and are never
      embedded. */
  lemma {:induction false} OvercountPending(records: seq<Record>, count: int, batchSize: int, processed: int, buffer: seq<Record>)
    requires batchSize >= 1 && |buffer| < batchSize
    requires count > processed + |buffer| + |records|
    ensures var plan := Batches(records, count, batchSize, processed, buffer);
      && |plan.pending| == (|buffer| + |records|) % batchSize
      && forall k :: 0 <= k < |plan.flushed| ==> |plan.flushed[k]| == batchSize
    decreases |records|
  {
    if records == [] {
      ModSmall(|buffer|, batchSize);
    } else {
      var b := buffer + [records[0]];
      if |b| == batchSize {
        OvercountPending(records[1..], count, batchSize, processed + |b|, []);
        ModShift(|records| - 1, batchSize);
      } else {
        OvercountPending(records[1..], count, batchSize, processed, b);
      }
    }
  }

  lemma ModSmall(x: nat, m: nat)
    requires x < m
    ensures x % m == x
  {
  }

  lemma ModShift(x: nat, m: nat)
    requires m >= 1
    ensures (x + m) % m == x % m
  {
    var q := x / m;
    assert x == q * m + x % m;
    assert x + m == (q + 1) * m + x % m;
    ModUnique(x + m, m, q + 1, x % m);
  }

  /** Euclidean division has one remainder. */
  lemma ModUnique(y: int, m: int, q: int, r: int)
    requires m >= 1 && 0 <= r < m && y == q * m + r
    ensures y % m == r
  {
    var d := q - y / m;
    assert d * m == y % m - r;
    if d != 0 {
      assert false;
    }
  }

  // ---------------------------------------------------------------------------
  // Storing one batch and a sequence of batches

  /** The keyed store after the attempt, and whether the attempt ended in an exception. */
  datatype Stored = Stored(entries: map<string, Vector>, failed: bool)

  /** `for seq_id, embedding in zip(batch_ids, embeddings): f.create_dataset(seq_id, ...)`:
      stops when the ids run out (the generator is not pulled further), or when the
      generator is exhausted (an exception if it raises, a silent stop otherwise), and
      fails on an id the store already holds. */
  function StoreZip(m: map<string, Vector>, ids: seq<string>, vectors: seq<Vector>, raises: bool): Stored
    decreases |ids|
  {
    if ids == [] then Stored(m, false)
    else if vectors == [] then Stored(m, raises)
    else if ids[0] in m then Stored(m, true)
    else StoreZip(m[ids[0] := vectors[0]], ids[1..], vectors[1..], raises)
  }

  /** The effect of one flush: embed the batch's residues and store them under its ids. */
  function StoreBatch(m: map<string, Vector>, batch: seq<Record>, embed: Embedder): Stored
  {
    var y := embed(Residues(batch));
    StoreZip(m, Ids(batch), y.vectors, y.raises)
  }

  /** The store after the flushes, how many flushes completed, and whether one failed. */
  datatype StoreRun = StoreRun(entries: map<string, Vector>, completed: nat, failed: bool)

  /** Flushing the batches in turn; the first failing batch ends the run. */
  function StoreBatches(m: map<string, Vector>, batches: seq<seq<Record>>, embed: Embedder): StoreRun
    decreases |batches|
  {
    if batches == [] then StoreRun(m, 0, false)
    else
      var s := StoreBatch(m, batches[0], embed);
      if s.failed then StoreRun(s.entries, 0, true)
      else
        var rest := StoreBatches(s.entries, batches[1..], embed);
        rest.(completed := rest.completed + 1)
  }

  lemma {:induction false} StoreBatchesAppend(m: map<string, Vector>, a: seq<seq<Record>>, b: seq<seq<Record>>, embed: Embedder)
    requires !StoreBatches(m, a, embed).failed
    ensures |a| == StoreBatches(m, a, embed).completed
    decreases |a|
    ensures var r := StoreBatches(StoreBatches(m, a, embed).entries, b, embed);
      StoreBatches(m, a + b, embed) == r.(completed := r.completed + |a|)
  {
    if a == [] {
      assert a + b == b;
    } else {
      assert (a + b)[0] == a[0] && (a + b)[1..] == a[1..] + b;
      var s := StoreBatch(m, a[0], embed);
      StoreBatchesAppend(s.entries, a[1..], b, embed);
    }
  }

  /** Ids that are pairwise distinct and new to the store, with at least one vector per
      id, are all stored: each id maps to the vector at its own position, and nothing
      else changes. */
  lemma {:induction false} StoreZipStoresAll(m: map<string, Vector>, ids: seq<string>, vectors: seq<Vector>, raises: bool)
    requires |vectors| >= |ids|
    requires forall k :: 0 <= k < |ids| ==> ids[k] !in m
    requires forall j, k :: 0 <= j < k < |ids| ==> ids[j] != ids[k]
    decreases |ids|
    ensures !StoreZip(m, ids, vectors, raises).failed
    ensures forall x :: x in StoreZip(m, ids, vectors, raises).entries <==> x in m || x in ids
    ensures forall k :: 0 <= k < |ids| ==> StoreZip(m, ids, vectors, raises).entries[ids[k]] == vectors[k]
    ensures forall x :: x in m ==> StoreZip(m, ids, vectors, raises).entries[x] == m[x]
  {
    if ids != [] {
      var m' := m[ids[0] := vectors[0]];
      var ids', vectors' := ids[1..], vectors[1..];
      assert StoreZip(m, ids, vectors, raises) == StoreZip(m', ids', vectors', raises);
      assert forall k :: 1 <= k < |ids| ==> ids'[k - 1] == ids[k] && vectors'[k - 1] == vectors[k];
      forall k | 0 <= k < |ids'|
        ensures ids'[k] !in m'
      {
        assert ids[0] != ids[k + 1];
      }
      StoreZipStoresAll(m', ids', vectors', raises);
      assert forall x :: x in ids <==> x == ids[0] || x in ids';
    }
  }

  /** An id that is already in the store stops the batch with an exception before it is
      written again: no id is ever silently overwritten. */
  lemma {:induction false} StoreZipRejectsDuplicate(m: map<string, Vector>, ids: seq<string>, vectors: seq<Vector>, raises: bool, k: nat)
    requires k < |ids| && |vectors| >= |ids|
    requires ids[k] in m || exists j :: 0 <= j < k && ids[j] == ids[k]
    decreases k
    ensures var s := StoreZip(m, ids, vectors, raises);
      s.failed && forall x :: x in m ==> x in s.entries && s.entries[x] == m[x]
  {
    if ids[0] !in m {
      var m' := m[ids[0] := vectors[0]];
      if k == 0 {
        assert false;
      }
      assert ids[1..][k - 1] == ids[k];
      if ids[k] !in m {
        var j :| 0 <= j < k && ids[j] == ids[k];
        if j > 0 {
          assert ids[1..][j - 1] == ids[k];
        }
      }
      StoreZipRejectsDuplicate(m', ids[1..], vectors[1..], raises, k - 1);
    }
  }

  predicate DistinctIds(rs: seq<Record>)
  {
    forall j, k :: 0 <= j < k < |rs| ==> rs[j].id != rs[k].id
  }

  /** The ids of a list of records, as a set. */
  function IdSet(rs: seq<Record>): set<string>
  {
    set x | x in Ids(rs)
  }

  /** The embedder yields at least one vector per sequence of every batch. */
  predicate YieldsEnough(batches: seq<seq<Record>>, embed: Embedder)
  {
    forall k :: 0 <= k < |batches| ==> |embed(Residues(batches[k])).vectors| >= |batches[k]|
  }

  lemma IdsAppend(a: seq<Record>, b: seq<Record>)
    ensures Ids(a + b) == Ids(a) + Ids(b)
    ensures IdSet(a + b) == IdSet(a) + IdSet(b)
  {
    assert Ids(a + b) == Ids(a) + Ids(b);
  }

  lemma DistinctSplit(a: seq<Record>, b: seq<Record>)
    requires DistinctIds(a + b)
    ensures DistinctIds(a) && DistinctIds(b)
    ensures forall x :: x in IdSet(a) ==> x !in IdSet(b)
  {
    var ab := a + b;
    assert forall j :: 0 <= j < |a| ==> ab[j] == a[j];
    assert forall j :: 0 <= j < |b| ==> ab[|a| + j] == b[j];
    forall i, j | 0 <= i < |a| && 0 <= j < |b|
      ensures Ids(a)[i] != Ids(b)[j]
    {
      assert ab[i].id != ab[|a| + j].id;
    }
  }

  /** Everything in the store the flushes promise: each record of each batch holds the
      vector at its own position in what the embedder yielded for that batch. */
  predicate HoldsEmbeddings(entries: map<string, Vector>, batches: seq<seq<Record>>, embed: Embedder)
  {
    forall k, j :: 0 <= k < |batches| && 0 <= j < |batches[k]| ==>
      && batches[k][j].id in entries
      && j < |embed(Residues(batches[k])).vectors|
      && entries[batches[k][j].id] == embed(Residues(batches[k])).vectors[j]
  }

  /** One flush of a batch of distinct new ids with enough vectors stores all of them. */
  lemma StoreBatchStoresAll(m: map<string, Vector>, b: seq<Record>, embed: Embedder)
    requires |embed(Residues(b)).vectors| >= |b|
    requires DistinctIds(b)
    requires forall x :: x in IdSet(b) ==> x !in m
    ensures !StoreBatch(m, b, embed).failed
    ensures StoreBatch(m, b, embed).entries.Keys == m.Keys + IdSet(b)
    ensures forall x :: x in m ==> StoreBatch(m, b, embed).entries[x] == m[x]
    ensures forall j :: 0 <= j < |b| ==>
      b[j].id in StoreBatch(m, b, embed).entries &&
      StoreBatch(m, b, embed).entries[b[j].id] == embed(Residues(b)).vectors[j]
  {
    var ids := Ids(b);
    var y := embed(Residues(b));
    assert forall k :: 0 <= k < |ids| ==> ids[k] in IdSet(b);
    forall j, k | 0 <= j < k < |ids|
      ensures ids[j] != ids[k]
    {
      assert b[j].id != b[k].id;
    }
    StoreZipStoresAll(m, ids, y.vectors, y.raises);
  }

  /** With distinct ids new to the store and an embedder that yields a vector per
      sequence, every flush succeeds: the store gains exactly the ids of the flushed
      records, each holding the vector at its own position in its batch's embeddings,
      and nothing that was there before changes. */
  lemma {:induction false} StoreBatchesComplete(m: map<string, Vector>, batches: seq<seq<Record>>, embed: Embedder)
    requires YieldsEnough(batches, embed)
    requires DistinctIds(Flatten(batches))
    requires forall x :: x in IdSet(Flatten(batches)) ==> x !in m
    decreases |batches|
    ensures !StoreBatches(m, batches, embed).failed
    ensures StoreBatches(m, batches, embed).completed == |batches|
    ensures StoreBatches(m, batches, embed).entries.Keys == m.Keys + IdSet(Flatten(batches))
    ensures forall x :: x in m ==> StoreBatches(m, batches, embed).entries[x] == m[x]
    ensures HoldsEmbeddings(StoreBatches(m, batches, embed).entries, batches, embed)
  {
    if batches != [] {
      var b0, tl := batches[0], batches[1..];
      assert Flatten(batches) == b0 + Flatten(tl);
      DistinctSplit(b0, Flatten(tl));
      IdsAppend(b0, Flatten(tl));
      StoreBatchStoresAll(m, b0, embed);
      var s := StoreBatch(m, b0, embed);
      assert YieldsEnough(tl, embed) by {
        forall k | 0 <= k < |tl|
          ensures |embed(Residues(tl[k])).vectors| >= |tl[k]|
        {
          assert tl[k] == batches[k + 1];
        }
      }
      StoreBatchesComplete(s.entries, tl, embed);
      var r := StoreBatches(s.entries, tl, embed);
      assert StoreBatches(m, batches, embed) == r.(completed := r.completed + 1);
      CombineHolds(s.entries, r.entries, b0, tl, embed);
    }
  }

  lemma CombineHolds(s: map<string, Vector>, r: map<string, Vector>, b0: seq<Record>, tl: seq<seq<Record>>, embed: Embedder)
    requires |embed(Residues(b0)).vectors| >= |b0|
    requires forall j :: 0 <= j < |b0| ==> b0[j].id in s && s[b0[j].id] == embed(Residues(b0)).vectors[j]
    requires forall x :: x in s ==> x in r && r[x] == s[x]
    requires HoldsEmbeddings(r, tl, embed)
    ensures HoldsEmbeddings(r, [b0] + tl, embed)
  {
    var bs: seq<seq<Record>> := [b0] + tl;
    forall k, j | 0 <= k < |bs| && 0 <= j < |bs[k]|
      ensures bs[k][j].id in r && j < |embed(Residues(bs[k])).vectors|
      ensures r[bs[k][j].id] == embed(Residues(bs[k])).vectors[j]
    {
      if k > 0 {
        assert bs[k] == tl[k - 1];
      }
    }
  }

  // ---------------------------------------------------------------------------
  // The store object and the batch loop

  /** The open HDF5 file: a map from dataset name to the array stored under it. */
  class EmbeddingStore {
    var entries: map<string, Vector>

    /** `h5py.File(path, 'w')` truncates: a freshly opened store is empty. */
    constructor ()
      ensures entries == map[]
    {
      entries := map[];
    }

    /** `create_dataset(name, data=...)`: refused when the name already exists. */
    method CreateDataset(name: string, data: Vector) returns (ok: bool)
      modifies this
      ensures ok == (name !in old(entries))
      ensures entries == if ok then old(entries)[name := data] else old(entries)
    {
      ok := name !in entries;
      if ok {
        entries := entries[name := data];
      }
    }
  }

  /** One step of the plan when the buffered record triggers a flush. */
  lemma PlanStepFlush(records: seq<Record>, i: nat, count: int, batchSize: int, processed: int, pending: seq<Record>)
    requires i < |records|
    requires FlushDue(|pending| + 1, processed, count, batchSize)
    ensures var b := pending + [records[i]];
      var rest := Batches(records[i + 1..], count, batchSize, processed + |b|, []);
      Batches(records[i..], count, batchSize, processed, pending) == Plan([b] + rest.flushed, rest.pending)
  {
    assert records[i..][0] == records[i] && records[i..][1..] == records[i + 1..];
  }

  /** The `try` block of one flush: embed the buffered residues and store each vector
      under the id at the same position; `ok` is false when this raised. */
  method FlushBatch(batch: seq<string>, batchIds: seq<string>, embed: Embedder, store: EmbeddingStore)
    returns (ok: bool)
    modifies store
    ensures var y := embed(batch);
      Stored(store.entries, !ok) == StoreZip(old(store.entries), batchIds, y.vectors, y.raises)
  {
    var y := embed(batch);
    var j := 0;
    while j < |batchIds|
      invariant 0 <= j <= |batchIds| && j <= |y.vectors|
      invariant StoreZip(old(store.entries), batchIds, y.vectors, y.raises)
             == StoreZip(store.entries, batchIds[j..], y.vectors[j..], y.raises)
    {
      if j == |y.vectors| {
        return !y.raises;
      }
      assert batchIds[j..][1..] == batchIds[j + 1..] && y.vectors[j..][1..] == y.vectors[j + 1..];
      ok := store.CreateDataset(batchIds[j], y.vectors[j]);
      if !ok {
        return;
      }
      j := j + 1;
    }
    ok := true;
  }

  /** What a run of the loop leaves behind, given its plan and the store it started from:
      the store the planned flushes produce, exit code 1 exactly when one of them raised,
      one cache release per completed flush in half precision and, when no flush failed,
      every flushed record counted as processed and the unflushed ids still buffered. */
  ghost predicate EmbedOutcome(plan: Plan, halfPrecision: bool, embed: Embedder, m0: map<string, Vector>,
                               entries: map<string, Vector>, exitCode: int, processed: nat,
                               cacheClears: nat, unflushed: seq<string>)
  {
    var run := StoreBatches(m0, plan.flushed, embed);
    && entries == run.entries
    && exitCode == (if run.failed then 1 else 0)
    && cacheClears == (if halfPrecision then run.completed else 0)
    && (!run.failed ==> processed == |Flatten(plan.flushed)| && unflushed == Ids(plan.pending))
  }

  /** The batch/flush/store loop. `exitCode` is 1 when embedding or storing a batch
      raised (the script exits), 0 when the records ran out; `cacheClears` counts the
      accelerator cache releases; `unflushed` holds the ids still buffered at the end. */
  method EmbedRecords(records: seq<Record>, count: int, batchSize: int, halfPrecision: bool,
                      embed: Embedder, store: EmbeddingStore)
    returns (exitCode: int, processed: nat, cacheClears: nat, unflushed: seq<string>)
    modifies store
    ensures EmbedOutcome(Plan0(records, count, batchSize), halfPrecision, embed, old(store.entries),
                         store.entries, exitCode, processed, cacheClears, unflushed)
  {
    var batch: seq<string> := [];
    var batchIds: seq<string> := [];
    processed, cacheClears := 0, 0;
    ghost var m0 := store.entries;
    ghost var plan := Plan0(records, count, batchSize);
    ghost var done: seq<seq<Record>> := [];
    ghost var pending: seq<Record> := [];
    assert done + plan.flushed == plan.flushed;
    var i := 0;
    while i < |records|
      invariant i <= |records|
      invariant LoopInv(records, count, batchSize, halfPrecision, embed, m0, plan, i, done, pending,
                        store.entries, processed, cacheClears, batch, batchIds)
    {
      var record := records[i];
      ghost var b := pending + [record];
      batch := batch + [record.residues];
      batchIds := batchIds + [record.id];
      BufferAppend(pending, record);
      if |batch| >= batchSize || processed + |batch| == count {
        ghost var before := store.entries;
        var ok := FlushBatch(batch, batchIds, embed, store);
        if !ok {
          FlushFails(records, count, batchSize, halfPrecision, embed, m0, plan, i, done, pending,
                     before, store.entries, processed, cacheClears, batchIds);
          return 1, processed, cacheClears, batchIds;
        }
        FlushSucceeds(records, count, batchSize, halfPrecision, embed, m0, plan, i, done, pending,
                      before, store.entries, processed, cacheClears);
        processed := processed + |batch|;
        batch, batchIds := [], [];
        if halfPrecision {
          cacheClears := cacheClears + 1;
        }
        done := done + [b];
        pending := [];
      } else {
        BufferStep(records, count, batchSize, halfPrecision, embed, m0, plan, i, done, pending,
                   store.entries, processed, cacheClears);
        pending := b;
      }
      i := i + 1;
    }
    LoopEnd(records, count, batchSize, halfPrecision, embed, m0, plan, done, pending,
            store.entries, processed, cacheClears, batch, batchIds);
    exitCode, unflushed := 0, batchIds;
  }

  /** The loop invariant of `EmbedRecords` after `i` records: the buffers hold the
      pending records in lock-step; the flushes done so far followed by the plan of the
      remaining records make up the whole plan; the store is what the flushes done so
      far produced; `processed` counts their records; one cache release per flush. */
  ghost predicate LoopInv(records: seq<Record>, count: int, batchSize: int, halfPrecision: bool,
                          embed: Embedder, m0: map<string, Vector>, plan: Plan, i: nat,
                          done: seq<seq<Record>>, pending: seq<Record>, entries: map<string, Vector>,
                          processed: nat, cacheClears: nat, batch: seq<string>, batchIds: seq<string>)
  {
    && i <= |records|
    && batch == Residues(pending) && batchIds == Ids(pending)
    && var rest := Batches(records[i..], count, batchSize, processed, pending);
    && plan == Plan(done + rest.flushed, rest.pending)
    && StoreBatches(m0, done, embed) == StoreRun(entries, |done|, false)
    && processed == |Flatten(done)|
    && cacheClears == (if halfPrecision then |done| else 0)
  }

  /** Appending a record to the buffer appends its residues and its id to the buffers. */
  lemma BufferAppend(pending: seq<Record>, r: Record)
    ensures Residues(pending + [r]) == Residues(pending) + [r.residues]
    ensures Ids(pending + [r]) == Ids(pending) + [r.id]
  {
    assert Residues(pending + [r]) == Residues(pending) + [r.residues];
    assert Ids(pending + [r]) == Ids(pending) + [r.id];
  }

  /** One step of the plan when the buffered record does not trigger a flush. */
  lemma BufferStep(records: seq<Record>, count: int, batchSize: int, halfPrecision: bool,
                   embed: Embedder, m0: map<string, Vector>, plan: Plan, i: nat,
                   done: seq<seq<Record>>, pending: seq<Record>, entries: map<string, Vector>,
                   processed: nat, cacheClears: nat)
    requires i < |records|
    requires LoopInv(records, count, batchSize, halfPrecision, embed, m0, plan, i, done, pending,
                     entries, processed, cacheClears, Residues(pending), Ids(pending))
    requires !FlushDue(|pending| + 1, processed, count, batchSize)
    ensures LoopInv(records, count, batchSize, halfPrecision, embed, m0, plan, i + 1, done, pending + [records[i]],
                    entries, processed, cacheClears, Residues(pending) + [records[i].residues], Ids(pending) + [records[i].id])
  {
    var b := pending + [records[i]];
    assert records[i..][0] == records[i] && records[i..][1..] == records[i + 1..];
    assert Residues(b) == Residues(pending) + [records[i].residues];
    assert Ids(b) == Ids(pending) + [records[i].id];
  }

  /** A successful flush of the buffered records: the run goes on with them flushed,
      `|b|` more records processed, empty buffers and one more cache release. */
  lemma FlushSucceeds(records: seq<Record>, count: int, batchSize: int, halfPrecision: bool,
                      embed: Embedder, m0: map<string, Vector>, plan: Plan, i: nat,
                      done: seq<seq<Record>>, pending: seq<Record>,
                      before: map<string, Vector>, after: map<string, Vector>,
                      processed: nat, cacheClears: nat)
    requires i < |records|
    requires LoopInv(records, count, batchSize, halfPrecision, embed, m0, plan, i, done, pending,
                     before, processed, cacheClears, Residues(pending), Ids(pending))
    requires FlushDue(|pending| + 1, processed, count, batchSize)
    requires StoreBatch(before, pending + [records[i]], embed) == Stored(after, false)
    ensures LoopInv(records, count, batchSize, halfPrecision, embed, m0, plan, i + 1, done + [pending + [records[i]]], [],
                    after, processed + |pending| + 1, if halfPrecision then cacheClears + 1 else cacheClears, [], [])
  {
    var b := pending + [records[i]];
    var rest := Batches(records[i + 1..], count, batchSize, processed + |b|, []);
    PlanStepFlush(records, i, count, batchSize, processed, pending);
    StoreBatchesAppend(m0, done, [b], embed);
    assert [b][0] == b && [b][1..] == [];
    FlattenAppend(done, [b]);
    assert Flatten([b]) == b + Flatten([]);
    assert done + ([b] + rest.flushed) == (done + [b]) + rest.flushed;
  }

  /** A failing flush of the buffered records ends the run with the store it leaves and
      exit code 1. */
  lemma FlushFails(records: seq<Record>, count: int, batchSize: int, halfPrecision: bool,
                   embed: Embedder, m0: map<string, Vector>, plan: Plan, i: nat,
                   done: seq<seq<Record>>, pending: seq<Record>,
                   before: map<string, Vector>, after: map<string, Vector>,
                   processed: nat, cacheClears: nat, unflushed: seq<string>)
    requires i < |records|
    requires LoopInv(records, count, batchSize, halfPrecision, embed, m0, plan, i, done, pending,
                     before, processed, cacheClears, Residues(pending), Ids(pending))
    requires FlushDue(|pending| + 1, processed, count, batchSize)
    requires StoreBatch(before, pending + [records[i]], embed) == Stored(after, true)
    ensures EmbedOutcome(plan, halfPrecision, embed, m0, after, 1, processed, cacheClears, unflushed)
  {
    var b := pending + [records[i]];
    var tail := Batches(records[i + 1..], count, batchSize, processed + |b|, []).flushed;
    PlanStepFlush(records, i, count, batchSize, processed, pending);
    StoreBatchesAppend(m0, done, [b] + tail, embed);
    assert ([b] + tail)[0] == b && ([b] + tail)[1..] == tail;
  }

  /** When the records run out, the flushes done are the whole plan and the buffer is
      its unflushed tail. */
  lemma LoopEnd(records: seq<Record>, count: int, batchSize: int, halfPrecision: bool,
                embed: Embedder, m0: map<string, Vector>, plan: Plan,
                done: seq<seq<Record>>, pending: seq<Record>, entries: map<string, Vector>,
                processed: nat, cacheClears: nat, batch: seq<string>, batchIds: seq<string>)
    requires LoopInv(records, count, batchSize, halfPrecision, embed, m0, plan, |records|, done, pending,
                     entries, processed, cacheClears, batch, batchIds)
    ensures EmbedOutcome(plan, halfPrecision, embed, m0, entries, 0, processed, cacheClears, batchIds)
  {
    assert records[|records|..] == [];
    assert done + [] == done;
  }

  // ---------------------------------------------------------------------------
  // The script's main

  /** The whole embedding script after argument parsing: `files` maps the paths that
      exist to their text, `parse` stands for the FASTA parser, `embedderAvailable` for
      the import of the embedder class. `stored` is the content of the store file, None
      when the script dies before creating it. Any uncaught exception exits with 1. */
  method EmbeddingMain(config: Yaml, files: map<string, string>, embedderAvailable: bool, batchSize: int,
                       halfPrecision: bool, parse: string -> seq<Record>, embed: Embedder)
    returns (exitCode: int, storePath: string, stored: Option<map<string, Vector>>)
    ensures ReadEmbedJob(config).None? ==> exitCode == 1 && stored.None?
    ensures ReadEmbedJob(config).Some? ==>
      var job := ReadEmbedJob(config).value;
      var source := SelectSource(job, files.Keys);
      && storePath == StorePath(job.prefix)
      && (!embedderAvailable || source.None? || source.value !in files ==> exitCode == 1 && stored.None?)
      && (embedderAvailable && source.Some? && source.value in files ==>
            var text := files[source.value];
            var run := StoreBatches(map[], Plan0(parse(text), HeaderCount(text), batchSize).flushed, embed);
            stored == Some(run.entries) && exitCode == (if run.failed then 1 else 0))
  {
    var job := ReadEmbedJob(config);
    if job.None? {
      return 1, "", None;
    }
    storePath := StorePath(job.value.prefix);
    var source := SelectSource(job.value, files.Keys);
    if !embedderAvailable || source.None? || source.value !in files {
      return 1, storePath, None;
    }
    var text := files[source.value];
    var count := CountHeaders(text);
    var store := new EmbeddingStore();
    var processed, cacheClears, unflushed;
    exitCode, processed, cacheClears, unflushed := EmbedRecords(parse(text), count, batchSize, halfPrecision, embed, store);
    stored := Some(store.entries);
  }

  /** The cross-file round trip: a file written by the test scripts' FASTA writer, parsed
      back into its records, is embedded completely with any batch size of at least one.
      Every batch is at most `batchSize` long, the batches concatenate to the records,
      and the store ends with exactly their ids, each holding its own embedding. */
  lemma {:induction false} WrittenFastaEmbedsCompletely(records: seq<Record>, batchSize: int, embed: Embedder)
    requires forall k :: 0 <= k < |records| ==> WellFormed(records[k])
    requires batchSize >= 1
    requires DistinctIds(records)
    requires YieldsEnough(Plan0(records, HeaderCount(JoinLines(FastaLines(records))), batchSize).flushed, embed)
    ensures var plan := Plan0(records, HeaderCount(JoinLines(FastaLines(records))), batchSize);
      && plan.pending == []
      && Flatten(plan.flushed) == records
      && (forall k :: 0 <= k < |plan.flushed| ==> 0 < |plan.flushed[k]| <= batchSize)
      && !StoreBatches(map[], plan.flushed, embed).failed
      && StoreBatches(map[], plan.flushed, embed).entries.Keys == IdSet(records)
      && HoldsEmbeddings(StoreBatches(map[], plan.flushed, embed).entries, plan.flushed, embed)
  {
    FastaHeaderCount(records);
    var count := |records|;
    BatchesComplete(records, count, batchSize, 0, []);
    BatchesPreserveOrder(records, count, batchSize, 0, []);
    BatchesBounded(records, count, batchSize, 0, []);
    var plan := Plan0(records, count, batchSize);
    assert [] + records == records;
    assert Flatten(plan.flushed) + plan.pending == Flatten(plan.flushed);
    StoreBatchesComplete(map[], plan.flushed, embed);
    var empty: map<string, Vector> := map[];
    assert empty.Keys + IdSet(records) == IdSet(records);
  }
}
