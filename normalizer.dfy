/** Step 5 of the prediction wrapper: the inference stage's prediction table is turned
    into the standard benchmark table (plmsol_predict_wrapper.py:91-110). */
module Normalizer {
  import opened Wrappers
  import opened Fasta
  import opened Frames

  const AccessionColumn := "Accession"
  const SequenceColumn := "Sequence"
  const PredictorColumn := "Predictor"
  const ScoreColumnName := "SolubilityScore"
  const SolubleColumn := "Probability_Soluble"
  const InsolubleColumn := "Probability_Insoluble"
  const ProbabilityColumn := "probability"
  const LabelColumn := "pred_label"
  const NameColumn := "name"
  const PredictorName := "PLM_Sol"

  /** The columns of the standard table, in their order. */
  const OutputColumns: seq<string> :=
    [AccessionColumn, SequenceColumn, PredictorColumn, ScoreColumnName, SolubleColumn, InsolubleColumn]

  /** Why normalisation stops: a KeyError on a column, or a TypeError when a score
      that is a string is subtracted from 1. */
  datatype NormError = MissingColumn(name: string) | NonNumericScore

  // ---------------------------------------------------------------------------
  // Per-cell rules

  function LowerChar(c: char): char
  {
    if 'A' <= c <= 'Z' then (c as int + 32) as char else c
  }

  /** `str.lower` on ASCII letters: the result has no capital letter, a capital becomes
      the small letter at the same place in the alphabet, and every other character
      stays. */
  function Lower(s: string): (r: string)
    ensures |r| == |s|
    ensures forall i :: 0 <= i < |r| ==> !('A' <= r[i] <= 'Z')
    ensures forall i :: 0 <= i < |s| && !('A' <= s[i] <= 'Z') ==> r[i] == s[i]
    ensures forall i :: 0 <= i < |s| && 'A' <= s[i] <= 'Z' ==>
      'a' <= r[i] <= 'z' && r[i] as int - 'a' as int == s[i] as int - 'A' as int
  {
    seq(|s|, i requires 0 <= i < |s| => LowerChar(s[i]))
  }

  /** The label rule: 1 for a label equal to 1 or spelled "soluble" in any case, else 0. */
  function LabelScore(x: Cell): (r: Cell)
    ensures r == Num(1.0) || r == Num(0.0)
  {
    if x == Num(1.0) || (x.Text? && Lower(x.text) == "soluble") then Num(1.0) else Num(0.0)
  }

  /** `1 - x` on a cell: a string raises; a number and its complement sum to 1, and
      NaN stays NaN. */
  function Complement(x: Cell): (r: Result<Cell, NormError>)
    ensures r.Err? <==> x.Text?
    ensures x.Num? ==> r.Ok? && r.value.Num? && x.value + r.value.value == 1.0
    ensures x.Missing? ==> r.Ok? && r.value.Missing?
  {
    match x
    case Num(v) => Ok(Num(1.0 - v))
    case Missing => Ok(Missing)
    case Text(_) => Err(NonNumericScore)
  }

  /** `{rec.id: str(rec.seq) for rec in records}`: a later record with the same id
      overrides an earlier one. */
  function SeqIndex(records: seq<Record>): (index: map<string, string>)
    ensures forall id :: id in index <==> exists k :: 0 <= k < |records| && records[k].id == id
  {
    if records == [] then map[]
    else
      var last := records[|records| - 1];
      var prefix := records[..|records| - 1];
      assert forall k :: 0 <= k < |prefix| ==> prefix[k] == records[k];
      SeqIndex(prefix)[last.id := last.residues]
  }

  /** `accession.map(index)`: the indexed sequence, or NaN for an absent key. A numeric
      accession never matches, since every key is a string. */
  function LookupSequence(index: map<string, string>, accession: Cell): (r: Cell)
    ensures r.Missing? <==> !(accession.Text? && accession.text in index)
    ensures r.Text? ==> r.text == index[accession.text]
  {
    if accession.Text? && accession.text in index then Text(index[accession.text]) else Missing
  }

  // ---------------------------------------------------------------------------
  // Column-level steps

  /** The score column as the precedence rule resolves it: an existing
      SolubilityScore column, else `probability`, else `pred_label` mapped by the
      label rule, else 0.0 everywhere. */
  function ResolvedScores(f: Frame): (col: seq<Cell>)
    requires Valid(f)
    ensures |col| == f.height
  {
    if ScoreColumnName in f.names then Column(f, ScoreColumnName)
    else if ProbabilityColumn in f.names then Column(f, ProbabilityColumn)
    else if LabelColumn in f.names then
      var labels := Column(f, LabelColumn);
      seq(f.height, i requires 0 <= i < f.height => LabelScore(labels[i]))
    else Constant(Num(0.0), f.height)
  }

  /** `1 - column`: raises when any cell is a string. */
  function ComplementColumn(col: seq<Cell>): (r: Result<seq<Cell>, NormError>)
    ensures r.Err? <==> exists i :: 0 <= i < |col| && col[i].Text?
    ensures r.Ok? ==> |r.value| == |col| && forall i :: 0 <= i < |col| ==> Ok(r.value[i]) == Complement(col[i])
  {
    if exists i :: 0 <= i < |col| && col[i].Text? then Err(NonNumericScore)
    else Ok(seq(|col|, i requires 0 <= i < |col| => Complement(col[i]).value))
  }

  /** Line 93: the constant Predictor column. */
  function WithPredictor(pred: Frame): (f: Frame)
    requires Valid(pred)
    ensures Valid(f) && f.height == pred.height
    ensures forall n :: n in f.names <==> n in pred.names || n == PredictorColumn
    ensures DistinctNames(pred.names) ==> DistinctNames(f.names)
    ensures Column(f, PredictorColumn) == Constant(Text(PredictorName), pred.height)
    ensures forall n :: n != PredictorColumn && n in pred.names ==> Column(f, n) == Column(pred, n)
    ensures ResolvedScores(f) == ResolvedScores(pred)
  {
    ResolvedScoresAfterAssign(pred, PredictorColumn, Constant(Text(PredictorName), pred.height));
    Assign(pred, PredictorColumn, Constant(Text(PredictorName), pred.height))
  }

  /** Line 94: the Sequence column, looked up row by row by Accession. */
  function WithSequenceColumn(f: Frame, records: seq<Record>): (r: Frame)
    requires Valid(f) && AccessionColumn in f.names
    ensures Valid(r) && r.height == f.height
    ensures forall n :: n in r.names <==> n in f.names || n == SequenceColumn
    ensures DistinctNames(f.names) ==> DistinctNames(r.names)
    ensures forall i :: 0 <= i < f.height ==>
      Column(r, SequenceColumn)[i] == LookupSequence(SeqIndex(records), Column(f, AccessionColumn)[i])
    ensures forall n :: n != SequenceColumn && n in f.names ==> Column(r, n) == Column(f, n)
    ensures ResolvedScores(r) == ResolvedScores(f)
  {
    var index := SeqIndex(records);
    var accessions := Column(f, AccessionColumn);
    var col := seq(f.height, i requires 0 <= i < f.height => LookupSequence(index, accessions[i]));
    ResolvedScoresAfterAssign(f, SequenceColumn, col);
    Assign(f, SequenceColumn, col)
  }

  /** Lines 93-94: the constant Predictor column, and the Sequence column looked up
      by Accession. */
  function WithSequences(pred: Frame, records: seq<Record>): (f: Frame)
    requires Valid(pred) && AccessionColumn in pred.names
    ensures Valid(f) && f.height == pred.height
    ensures forall n :: n in f.names <==> n in pred.names || n == PredictorColumn || n == SequenceColumn
    ensures DistinctNames(pred.names) ==> DistinctNames(f.names)
    ensures Column(f, PredictorColumn) == Constant(Text(PredictorName), pred.height)
    ensures forall i :: 0 <= i < pred.height ==>
      Column(f, SequenceColumn)[i] == LookupSequence(SeqIndex(records), Column(pred, AccessionColumn)[i])
    ensures Column(f, AccessionColumn) == Column(pred, AccessionColumn)
    ensures NameColumn in pred.names ==> Column(f, NameColumn) == Column(pred, NameColumn)
    ensures ResolvedScores(f) == ResolvedScores(pred)
  {
    WithSequenceColumn(WithPredictor(pred), records)
  }

  /** Lines 96-103: a SolubilityScore column already there is kept; otherwise the
      resolved scores are stored under that label. */
  function WithScore(f: Frame): (r: Frame)
    requires Valid(f)
    ensures Valid(r) && r.height == f.height
    ensures forall n :: n in r.names <==> n in f.names || n == ScoreColumnName
    ensures DistinctNames(f.names) ==> DistinctNames(r.names)
    ensures Column(r, ScoreColumnName) == ResolvedScores(f)
    ensures forall n :: n != ScoreColumnName && n in f.names ==> Column(r, n) == Column(f, n)
  {
    if ScoreColumnName in f.names then f else Assign(f, ScoreColumnName, ResolvedScores(f))
  }

  /** Lines 104-105: Probability_Soluble copies the score, Probability_Insoluble holds
      its complement. */
  function WithProbabilities(f: Frame, complement: seq<Cell>): (r: Frame)
    requires Valid(f) && ScoreColumnName in f.names && |complement| == f.height
    ensures Valid(r) && r.height == f.height
    ensures forall n :: n in r.names <==> n in f.names || n == SolubleColumn || n == InsolubleColumn
    ensures DistinctNames(f.names) ==> DistinctNames(r.names)
    ensures Column(r, SolubleColumn) == Column(f, ScoreColumnName)
    ensures Column(r, InsolubleColumn) == complement
    ensures forall n :: n != SolubleColumn && n != InsolubleColumn && n in f.names ==> Column(r, n) == Column(f, n)
  {
    Assign(Assign(f, SolubleColumn, Column(f, ScoreColumnName)), InsolubleColumn, complement)
  }

  /** Lines 93-108 in order: set Predictor, look up Sequence by Accession (a KeyError
      when the table has no Accession column; setting Predictor cannot add one),
      resolve the score, add the two probabilities, rename `name` to Accession, and
      select the standard columns. */
  function Normalize(pred: Frame, records: seq<Record>): (r: Result<Frame, NormError>)
    requires Valid(pred)
    ensures r.Ok? ==> Valid(r.value) && r.value.height == pred.height
  {
    if AccessionColumn !in pred.names then Err(MissingColumn(AccessionColumn))
    else
      var f3 := WithScore(WithSequences(pred, records));
      match ComplementColumn(Column(f3, ScoreColumnName))
      case Err(e) => Err(e)
      case Ok(complement) =>
        var f6 := Rename(WithProbabilities(f3, complement), NameColumn, AccessionColumn);
        match Select(f6, OutputColumns)
        case Err(name) => Err(MissingColumn(name))
        case Ok(out) => Ok(out)
  }

  // ---------------------------------------------------------------------------
  // Lemmas

  /** The label rule, letter by letter: a number scores 1 exactly when it is 1, NaN
      scores 0, and a string scores 1 exactly when it is seven letters long and each
      letter is that of "soluble" in small or capital form. */
  lemma LabelScoreIff(x: Cell)
    ensures x.Num? ==> (LabelScore(x) == Num(1.0) <==> x.value == 1.0)
    ensures x.Missing? ==> LabelScore(x) == Num(0.0)
    ensures x.Text? ==> (LabelScore(x) == Num(1.0) <==>
      |x.text| == 7 && forall i :: 0 <= i < 7 ==> x.text[i] == "soluble"[i] || x.text[i] == "SOLUBLE"[i])
  {
    if x.Text? && |x.text| == 7 {
      var s := x.text;
      forall i | 0 <= i < 7
        ensures Lower(s)[i] == "soluble"[i] <==> s[i] == "soluble"[i] || s[i] == "SOLUBLE"[i]
      {
        SolubleLetters(i);
      }
      assert Lower(s) == "soluble" <==> forall i :: 0 <= i < 7 ==> Lower(s)[i] == "soluble"[i];
    }
  }

  /** Each letter of "soluble" is small, and its capital is the same letter of "SOLUBLE". */
  lemma SolubleLetters(i: nat)
    requires i < 7
    ensures 'a' <= "soluble"[i] <= 'z'
    ensures "SOLUBLE"[i] as int - 'A' as int == "soluble"[i] as int - 'a' as int
  {
  }

  /** Lowering twice is lowering once. */
  lemma LowerIdempotent(s: string)
    ensures Lower(Lower(s)) == Lower(s)
  {
  }

  /** Complementing a numeric or missing score twice gives it back. */
  lemma ComplementInvolution(x: Cell)
    requires !x.Text?
    ensures Complement(x).Ok? && Complement(Complement(x).value) == Ok(x)
  {
  }

  /** `1 - (1 - column)` is the column again, and each numeric cell and its complement
      sum to 1, while NaN cells stay NaN. */
  lemma ComplementColumnInvolution(col: seq<Cell>)
    requires ComplementColumn(col).Ok?
    ensures forall i :: 0 <= i < |col| && col[i].Num? ==>
      ComplementColumn(col).value[i].Num? && col[i].value + ComplementColumn(col).value[i].value == 1.0
    ensures forall i :: 0 <= i < |col| && col[i].Missing? ==> ComplementColumn(col).value[i].Missing?
    ensures ComplementColumn(ComplementColumn(col).value) == Ok(col)
  {
    var once := ComplementColumn(col).value;
    forall i | 0 <= i < |col|
      ensures !once[i].Text? && Complement(once[i]) == Ok(col[i])
    {
      ComplementInvolution(col[i]);
    }
    var twice := ComplementColumn(once);
    assert twice.Ok?;
    assert twice.value == col;
  }

  /** Record `k` is the last one carrying `id`. */
  predicate LastWithId(records: seq<Record>, k: int, id: string)
  {
    0 <= k < |records| && records[k].id == id && forall j :: k < j < |records| ==> records[j].id != id
  }

  /** Looking an accession up in the index of the records gives NaN exactly when no
      record carries it as id, and otherwise the residues of the last record that does. */
  lemma LookupSequenceFinds(records: seq<Record>, accession: Cell)
    ensures LookupSequence(SeqIndex(records), accession).Missing? <==>
      !(accession.Text? && exists k :: 0 <= k < |records| && records[k].id == accession.text)
    ensures forall k :: accession.Text? && LastWithId(records, k, accession.text) ==>
      LookupSequence(SeqIndex(records), accession) == Text(records[k].residues)
  {
    forall k | accession.Text? && LastWithId(records, k, accession.text)
      ensures LookupSequence(SeqIndex(records), accession) == Text(records[k].residues)
    {
      SeqIndexLast(records, k);
    }
  }

  lemma LabelExamples()
    ensures LabelScore(Text("Soluble")) == Num(1.0)
    ensures LabelScore(Text("SOLUBLE")) == Num(1.0)
    ensures LabelScore(Text("insoluble")) == Num(0.0)
    ensures LabelScore(Text("1")) == Num(0.0)
    ensures LabelScore(Num(0.5)) == Num(0.0)
    ensures LabelScore(Missing) == Num(0.0)
  {
    assert Lower("Soluble") == "soluble";
    assert Lower("SOLUBLE") == "soluble";
    assert Lower("insoluble")[0] == 'i';
    assert |Lower("1")| == 1;
  }

  /** The sequence index answers with the LAST record carrying an id. */
  lemma {:induction false} SeqIndexLast(records: seq<Record>, k: nat)
    requires k < |records|
    requires forall j :: k < j < |records| ==> records[j].id != records[k].id
    ensures records[k].id in SeqIndex(records)
    ensures SeqIndex(records)[records[k].id] == records[k].residues
  {
    var n := |records|;
    var prefix := records[..n - 1];
    var last := records[n - 1];
    assert SeqIndex(records) == SeqIndex(prefix)[last.id := last.residues];
    if k < n - 1 {
      assert last.id != records[k].id;
      assert forall j :: k < j < |prefix| ==> prefix[j] == records[j];
      assert prefix[k] == records[k];
      SeqIndexLast(prefix, k);
    }
  }

  /** Only the label columns feed the score: assigning other labels leaves it alone. */
  lemma ResolvedScoresAfterAssign(f: Frame, name: string, col: seq<Cell>)
    requires Valid(f) && |col| == f.height
    requires name != ScoreColumnName && name != ProbabilityColumn && name != LabelColumn
    ensures ResolvedScores(Assign(f, name, col)) == ResolvedScores(f)
  {
  }

  /** The per-row precedence rule, read off the prediction table itself. */
  function RowScore(pred: Frame, i: nat): Cell
    requires Valid(pred) && i < pred.height
  {
    if ScoreColumnName in pred.names then Column(pred, ScoreColumnName)[i]
    else if ProbabilityColumn in pred.names then Column(pred, ProbabilityColumn)[i]
    else if LabelColumn in pred.names then LabelScore(Column(pred, LabelColumn)[i])
    else Num(0.0)
  }

  lemma ResolvedIsRowScore(f: Frame)
    requires Valid(f)
    ensures forall i :: 0 <= i < f.height ==> ResolvedScores(f)[i] == RowScore(f, i)
  {
  }

  /** After the two probability columns are assigned, every standard label is present
      once `name` is renamed (Accession, Sequence and the score were there already). */
  lemma OutputColumnsPresent(f5: Frame)
    requires forall w :: w in OutputColumns ==> w in f5.names
    ensures forall w :: w in OutputColumns ==> w in Rename(f5, NameColumn, AccessionColumn).names
  {
    var f6 := Rename(f5, NameColumn, AccessionColumn);
    forall w | w in OutputColumns
      ensures w in f6.names
    {
      var k :| 0 <= k < |f5.names| && f5.names[k] == w;
      assert f6.names[k] == w;
    }
  }

  /** Normalisation fails exactly when the prediction table has no Accession column
      (even if it has `name`), or when some resolved score is a string. */
  lemma NormalizeFailsIff(pred: Frame, records: seq<Record>)
    requires Valid(pred)
    ensures Normalize(pred, records).Err? <==>
      AccessionColumn !in pred.names || exists i :: 0 <= i < pred.height && RowScore(pred, i).Text?
    ensures AccessionColumn !in pred.names ==> Normalize(pred, records) == Err(MissingColumn(AccessionColumn))
  {
    if AccessionColumn in pred.names {
      NormalizeErrIffComplement(pred, records);
      ScoresTextIff(pred);
    }
  }

  /** With an Accession column, normalisation fails exactly when the complement of the
      resolved scores does. */
  lemma NormalizeErrIffComplement(pred: Frame, records: seq<Record>)
    requires Valid(pred) && AccessionColumn in pred.names
    ensures Normalize(pred, records).Err? <==> ComplementColumn(ResolvedScores(pred)).Err?
  {
    var f3 := WithScore(WithSequences(pred, records));
    var col := Column(f3, ScoreColumnName);
    assert col == ResolvedScores(pred);
    if ComplementColumn(col).Ok? {
      NormalizedSelects(f3, ComplementColumn(col).value);
    }
  }

  /** A resolved score is a string exactly where the row's score is. */
  lemma ScoresTextIff(pred: Frame)
    requires Valid(pred)
    ensures (exists i :: 0 <= i < |ResolvedScores(pred)| && ResolvedScores(pred)[i].Text?) <==>
            (exists i :: 0 <= i < pred.height && RowScore(pred, i).Text?)
  {
    ResolvedIsRowScore(pred);
  }

  /** Once the score is in place, the final selection always finds its columns. */
  lemma NormalizedSelects(f3: Frame, complement: seq<Cell>)
    requires Valid(f3) && |complement| == f3.height
    requires AccessionColumn in f3.names && SequenceColumn in f3.names
    requires PredictorColumn in f3.names && ScoreColumnName in f3.names
    ensures Select(Rename(WithProbabilities(f3, complement), NameColumn, AccessionColumn), OutputColumns).Ok?
  {
    var f5 := WithProbabilities(f3, complement);
    AllOutputColumns(f5.names);
    OutputColumnsPresent(f5);
  }

  lemma AllOutputColumns(names: seq<string>)
    requires AccessionColumn in names && SequenceColumn in names && PredictorColumn in names
    requires ScoreColumnName in names && SolubleColumn in names && InsolubleColumn in names
    ensures forall w :: w in OutputColumns ==> w in names
  {
  }

  /** Row `i` of the standard table as the wrapper promises it: the row's accession,
      the sequence indexed under it, the constant predictor, the resolved score twice
      (as SolubilityScore and Probability_Soluble), and its complement. */
  function StandardRow(pred: Frame, records: seq<Record>, i: nat): (row: seq<Cell>)
    requires Valid(pred) && AccessionColumn in pred.names && i < pred.height
    requires !RowScore(pred, i).Text?
    ensures |row| == |OutputColumns|
    ensures RowScore(pred, i).Num? ==> row[4].Num? && row[5].Num? && row[4].value + row[5].value == 1.0
  {
    var accession := Column(pred, AccessionColumn)[i];
    var score := RowScore(pred, i);
    [accession, LookupSequence(SeqIndex(records), accession), Text(PredictorName), score, score, Complement(score).value]
  }

  /** The standard table, from a prediction table read from CSV (distinct labels) that
      has Accession, no `name`, and numeric or missing scores: exactly the six standard
      columns in order, and one row per prediction row, in the same order, each the
      standard row of that prediction row. */
  lemma NormalizeShape(pred: Frame, records: seq<Record>)
    requires Valid(pred) && DistinctNames(pred.names)
    requires AccessionColumn in pred.names && NameColumn !in pred.names
    requires forall i :: 0 <= i < pred.height ==> !RowScore(pred, i).Text?
    ensures Normalize(pred, records).Ok?
    ensures Normalize(pred, records).value.names == OutputColumns
    ensures Normalize(pred, records).value.height == pred.height
    ensures forall i :: 0 <= i < pred.height ==> Row(Normalize(pred, records).value, i) == StandardRow(pred, records, i)
  {
    ResolvedIsRowScore(pred);
    NormalizeFailsIff(pred, records);
    NormalizeIsSelect(pred, records);
    var f5 := Prepared(pred, records);
    assert NameColumn !in f5.names;
    RenameAbsent(f5, NameColumn, AccessionColumn);
    SelectDistinct(f5, OutputColumns);
    PreparedColumns(pred, records);
    var out := Select(f5, OutputColumns).value;
    OutputColumnsSpelled();
    assert out.columns[0] == Column(f5, AccessionColumn);
    assert out.columns[1] == Column(f5, SequenceColumn);
    assert out.columns[2] == Column(f5, PredictorColumn);
    assert out.columns[3] == Column(f5, ScoreColumnName);
    assert out.columns[4] == Column(f5, SolubleColumn);
    assert out.columns[5] == Column(f5, InsolubleColumn);
    RowsOfStandardColumns(pred, records, out);
  }

  /** Reading the standard columns row by row gives the standard rows. */
  lemma RowsOfStandardColumns(pred: Frame, records: seq<Record>, out: Frame)
    requires Valid(pred) && AccessionColumn in pred.names
    requires forall i :: 0 <= i < pred.height ==> !RowScore(pred, i).Text?
    requires Valid(out) && out.height == pred.height && |out.columns| == |OutputColumns|
    requires out.columns[0] == Column(pred, AccessionColumn)
    requires forall i :: 0 <= i < pred.height ==>
      out.columns[1][i] == LookupSequence(SeqIndex(records), Column(pred, AccessionColumn)[i])
    requires out.columns[2] == Constant(Text(PredictorName), pred.height)
    requires out.columns[3] == ResolvedScores(pred) && out.columns[4] == ResolvedScores(pred)
    requires forall i :: 0 <= i < pred.height ==> Ok(out.columns[5][i]) == Complement(ResolvedScores(pred)[i])
    ensures forall i :: 0 <= i < pred.height ==> Row(out, i) == StandardRow(pred, records, i)
  {
    ResolvedIsRowScore(pred);
  }

  /** The frame just before the rename: the prediction table with the Predictor,
      Sequence, SolubilityScore and both probability columns in place. */
  ghost function Prepared(pred: Frame, records: seq<Record>): (f5: Frame)
    requires Valid(pred) && AccessionColumn in pred.names
    requires ComplementColumn(ResolvedScores(pred)).Ok?
    ensures Valid(f5) && f5.height == pred.height
    ensures forall n :: n in f5.names <==>
      (n in pred.names || n == PredictorColumn || n == SequenceColumn || n == ScoreColumnName || n == SolubleColumn || n == InsolubleColumn)
    ensures DistinctNames(pred.names) ==> DistinctNames(f5.names)
  {
    var f3 := WithScore(WithSequences(pred, records));
    WithProbabilities(f3, ComplementColumn(Column(f3, ScoreColumnName)).value)
  }

  /** What each standard column of the prepared frame holds. */
  lemma PreparedColumns(pred: Frame, records: seq<Record>)
    requires Valid(pred) && AccessionColumn in pred.names
    requires ComplementColumn(ResolvedScores(pred)).Ok?
    ensures Column(Prepared(pred, records), AccessionColumn) == Column(pred, AccessionColumn)
    ensures forall i :: 0 <= i < pred.height ==>
      Column(Prepared(pred, records), SequenceColumn)[i] == LookupSequence(SeqIndex(records), Column(pred, AccessionColumn)[i])
    ensures Column(Prepared(pred, records), PredictorColumn) == Constant(Text(PredictorName), pred.height)
    ensures Column(Prepared(pred, records), ScoreColumnName) == ResolvedScores(pred)
    ensures Column(Prepared(pred, records), SolubleColumn) == ResolvedScores(pred)
    ensures Column(Prepared(pred, records), InsolubleColumn) == ComplementColumn(ResolvedScores(pred)).value
  {
    var f2 := WithSequences(pred, records);
    var f3 := WithScore(f2);
    var f5 := WithProbabilities(f3, ComplementColumn(Column(f3, ScoreColumnName)).value);
    assert f5 == Prepared(pred, records);
    assert Column(f3, AccessionColumn) == Column(f2, AccessionColumn);
    assert Column(f3, SequenceColumn) == Column(f2, SequenceColumn);
    assert Column(f3, PredictorColumn) == Column(f2, PredictorColumn);
  }

  lemma NormalizeIsSelect(pred: Frame, records: seq<Record>)
    requires Valid(pred) && AccessionColumn in pred.names
    requires ComplementColumn(ResolvedScores(pred)).Ok?
    ensures Select(Rename(Prepared(pred, records), NameColumn, AccessionColumn), OutputColumns).Ok?
    ensures Normalize(pred, records) == Ok(Select(Rename(Prepared(pred, records), NameColumn, AccessionColumn), OutputColumns).value)
  {
    var f3 := WithScore(WithSequences(pred, records));
    NormalizedSelects(f3, ComplementColumn(Column(f3, ScoreColumnName)).value);
  }

  /** With both Accession and `name` in the prediction table, the rename after the
      lookup yields two Accession columns, and the standard table has a seventh column. */
  lemma NormalizeWithName(pred: Frame, records: seq<Record>)
    requires Valid(pred) && DistinctNames(pred.names)
    requires AccessionColumn in pred.names && NameColumn in pred.names
    requires forall i :: 0 <= i < pred.height ==> !RowScore(pred, i).Text?
    ensures Normalize(pred, records).Ok?
    ensures |Normalize(pred, records).value.names| > |OutputColumns|
  {
    NormalizeFailsIff(pred, records);
    var f3 := WithScore(WithSequences(pred, records));
    var c := ComplementColumn(Column(f3, ScoreColumnName)).value;
    var f5 := WithProbabilities(f3, c);
    var f6 := Rename(f5, NameColumn, AccessionColumn);
    var a := IndexOf(f5.names, AccessionColumn);
    var b := IndexOf(f5.names, NameColumn);
    assert f6.names[a] == AccessionColumn && f6.names[b] == AccessionColumn;
    NormalizedSelects(f3, c);
    if a < b {
      SelectDuplicated(f6, OutputColumns, a, b);
    } else {
      SelectDuplicated(f6, OutputColumns, b, a);
    }
  }

  lemma OutputColumnsSpelled()
    ensures |OutputColumns| == 6
    ensures OutputColumns[0] == AccessionColumn && OutputColumns[1] == SequenceColumn
    ensures OutputColumns[2] == PredictorColumn && OutputColumns[3] == ScoreColumnName
    ensures OutputColumns[4] == SolubleColumn && OutputColumns[5] == InsolubleColumn
  {
  }
}
