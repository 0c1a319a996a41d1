/** FASTA text as the pipeline produces and consumes it: the writer used by the test
    scripts (one header line and one sequence line per record) and the pre-scan of the
    embedding script that counts the lines starting with `>`. */
module Fasta {

  /** One sequence record: its identifier and its residue string. */
  datatype Record = Record(id: string, residues: string)

  /** Python's universal-newline reading treats `\n`, `\r` and `\r\n` as line ends. */
  predicate IsLineBreak(c: char)
  {
    c == '\n' || c == '\r'
  }

  predicate NoBreaks(s: string)
  {
    forall k :: 0 <= k < |s| ==> !IsLineBreak(s[k])
  }

  predicate IsHeaderLine(line: string)
  {
    |line| > 0 && line[0] == '>'
  }

  /** Number of `>` characters of `text` that begin a line; `atLineStart` says whether
      the first character of `text` begins one. */
  function HeaderCountFrom(text: string, atLineStart: bool): nat
    decreases |text|
  {
    if text == [] then 0
    else
      (if atLineStart && text[0] == '>' then 1 else 0)
      + HeaderCountFrom(text[1..], IsLineBreak(text[0]))
  }

  /** Number of lines of a file's text that start with `>`. */
  function HeaderCount(text: string): nat
  {
    HeaderCountFrom(text, true)
  }

  /** The text of a file whose lines are `lines`, each terminated by a newline. */
  function JoinLines(lines: seq<string>): string
  {
    if lines == [] then "" else lines[0] + "\n" + JoinLines(lines[1..])
  }

  /** Number of lines in `lines` that start with `>`. */
  function CountHeaderLines(lines: seq<string>): nat
  {
    if lines == [] then 0
    else (if IsHeaderLine(lines[0]) then 1 else 0) + CountHeaderLines(lines[1..])
  }

  /** The lines the test scripts' writer emits: `>id`, then the residues, per record. */
  function FastaLines(records: seq<Record>): seq<string>
  {
    if records == [] then []
    else [">" + records[0].id, records[0].residues] + FastaLines(records[1..])
  }

  /** A record the writer can emit as exactly two lines, the second not mistaken for a header. */
  predicate WellFormed(r: Record)
  {
    NoBreaks(r.id) && NoBreaks(r.residues) && !IsHeaderLine(r.residues)
  }

  /** The pre-scan of the embedding script: count the lines that start with `>`. The
      file's line iteration is folded into the scan as a flag that is set after every
      line break. */
  method CountHeaders(text: string) returns (count: nat)
    ensures count == HeaderCount(text)
  {
    count := 0;
    var atLineStart := true;
    var i := 0;
    while i < |text|
      invariant 0 <= i <= |text|
      invariant count + HeaderCountFrom(text[i..], atLineStart) == HeaderCount(text)
    {
      assert text[i..][0] == text[i] && text[i..][1..] == text[i + 1..];
      if atLineStart && text[i] == '>' {
        count := count + 1;
      }
      atLineStart := IsLineBreak(text[i]);
      i := i + 1;
    }
  }

  /** The FASTA writer of the test scripts: `>name\nseq\n` per record, in list order. */
  method WriteFasta(records: seq<Record>) returns (text: string)
    ensures text == JoinLines(FastaLines(records))
  {
    text := "";
    for i := 0 to |records|
      invariant text == JoinLines(FastaLines(records[..i]))
    {
      var pair := [">" + records[i].id, records[i].residues];
      FastaLinesSnoc(records[..i], records[i]);
      JoinLinesAppend(FastaLines(records[..i]), pair);
      assert pair[1..] == [records[i].residues] && pair[1..][1..] == [];
      assert JoinLines(pair) == ">" + records[i].id + "\n" + (records[i].residues + "\n");
      assert records[..i + 1] == records[..i] + [records[i]];
      text := text + ">" + records[i].id + "\n" + records[i].residues + "\n";
    }
    assert records[..|records|] == records;
  }

  lemma {:induction false} FastaLinesSnoc(rs: seq<Record>, r: Record)
    ensures FastaLines(rs + [r]) == FastaLines(rs) + [">" + r.id, r.residues]
  {
    if rs == [] {
      assert rs + [r] == [r];
    } else {
      assert (rs + [r])[1..] == rs[1..] + [r];
      FastaLinesSnoc(rs[1..], r);
    }
  }

  lemma {:induction false} JoinLinesAppend(a: seq<string>, b: seq<string>)
    ensures JoinLines(a + b) == JoinLines(a) + JoinLines(b)
  {
    if a == [] {
      assert a + b == b;
    } else {
      assert (a + b)[1..] == a[1..] + b;
      JoinLinesAppend(a[1..], b);
    }
  }

  /** A line without breaks contributes one header exactly when it starts with `>`, and
      the next line starts right after its newline. */
  lemma {:induction false} HeaderCountOfLine(line: string, rest: string, atLineStart: bool)
    requires NoBreaks(line)
    ensures HeaderCountFrom(line + "\n" + rest, atLineStart)
         == (if atLineStart && IsHeaderLine(line) then 1 else 0) + HeaderCountFrom(rest, true)
  {
    var t := line + "\n" + rest;
    if line == [] {
      assert t == "\n" + rest;
      assert t[1..] == rest;
    } else {
      assert t[0] == line[0];
      assert t[1..] == line[1..] + "\n" + rest;
      HeaderCountOfLine(line[1..], rest, false);
    }
  }

  /** The character scan agrees with counting header lines one line at a time. */
  lemma {:induction false} HeaderCountOfLines(lines: seq<string>)
    requires forall k :: 0 <= k < |lines| ==> NoBreaks(lines[k])
    ensures HeaderCount(JoinLines(lines)) == CountHeaderLines(lines)
  {
    if lines != [] {
      HeaderCountOfLine(lines[0], JoinLines(lines[1..]), true);
      HeaderCountOfLines(lines[1..]);
    }
  }

  /** The writer's output has one header line per record: the pre-scan of the embedding
      script counts exactly the records written. */
  lemma {:induction false} FastaHeaderCount(records: seq<Record>)
    requires forall k :: 0 <= k < |records| ==> WellFormed(records[k])
    ensures HeaderCount(JoinLines(FastaLines(records))) == |records|
  {
    FastaLinesShape(records);
    HeaderCountOfLines(FastaLines(records));
  }

  lemma {:induction false} FastaLinesShape(records: seq<Record>)
    requires forall k :: 0 <= k < |records| ==> WellFormed(records[k])
    ensures forall k :: 0 <= k < |FastaLines(records)| ==> NoBreaks(FastaLines(records)[k])
    ensures CountHeaderLines(FastaLines(records)) == |records|
  {
    if records != [] {
      var r := records[0];
      FastaLinesShape(records[1..]);
      var tail := FastaLines(records[1..]);
      var lines := FastaLines(records);
      assert lines == [">" + r.id, r.residues] + tail;
      assert lines[1..] == [r.residues] + tail && lines[1..][1..] == tail;
      assert WellFormed(r);
      assert IsHeaderLine(">" + r.id);
      forall k | 0 <= k < |lines|
        ensures NoBreaks(lines[k])
      {
        if k >= 2 {
          assert lines[k] == tail[k - 2];
        }
      }
    }
  }
}
