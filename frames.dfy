/** A column-major model of the small part of a pandas DataFrame the wrapper uses:
    whole-column assignment, renaming of column labels and selection of a list of
    columns. Rows are positions; no operation here reorders or drops them. */
module Frames {
  import opened Wrappers

  /** A cell read from a CSV file: a number, a string, or a missing value (NaN). */
  datatype Cell = Num(value: real) | Text(text: string) | Missing

  /** Column labels, one column of cells per label, and the common column height.
      Labels may repeat after a rename, as pandas allows. */
  datatype Frame = Frame(names: seq<string>, columns: seq<seq<Cell>>, height: nat)

  ghost predicate Valid(f: Frame)
  {
    && |f.names| == |f.columns|
    && forall k :: 0 <= k < |f.columns| ==> |f.columns[k]| == f.height
  }

  /** No label occurs twice, as in any frame pandas reads from a CSV file. */
  predicate DistinctNames(names: seq<string>)
  {
    forall j, k :: 0 <= j < k < |names| ==> names[j] != names[k]
  }

  /** The position of the first column carrying `name`. */
  function IndexOf(names: seq<string>, name: string): (k: nat)
    requires name in names
    ensures k < |names| && names[k] == name
    ensures name !in names[..k]
  {
    if names[0] == name then 0
    else
      assert names[1..][..IndexOf(names[1..], name)] == names[1..IndexOf(names[1..], name) + 1];
      1 + IndexOf(names[1..], name)
  }

  /** `f[name]`: the first column carrying `name`. */
  function Column(f: Frame, name: string): (c: seq<Cell>)
    requires Valid(f) && name in f.names
    ensures |c| == f.height
  {
    f.columns[IndexOf(f.names, name)]
  }

  /** A column holding the same cell in every row (assignment of a scalar). */
  function Constant(c: Cell, height: nat): (col: seq<Cell>)
    ensures |col| == height && forall i :: 0 <= i < height ==> col[i] == c
  {
    seq(height, _ => c)
  }

  /** `f[name] = col`: every column carrying `name` is replaced; a new label is
      appended at the right. Reading `name` back gives `col`, every other label reads
      as before, and no label is duplicated that was not before. */
  function Assign(f: Frame, name: string, col: seq<Cell>): (r: Frame)
    requires Valid(f) && |col| == f.height
    ensures Valid(r) && r.height == f.height
    ensures name in f.names ==> r.names == f.names
    ensures name !in f.names ==> r.names == f.names + [name]
    ensures name in r.names && Column(r, name) == col
    ensures forall n :: n != name && n in f.names ==> n in r.names && Column(r, n) == Column(f, n)
    ensures forall n :: n in r.names <==> n == name || n in f.names
    ensures DistinctNames(f.names) ==> DistinctNames(r.names)
  {
    var r :=
      if name in f.names then
        Frame(f.names, seq(|f.columns|, k requires 0 <= k < |f.columns| => if f.names[k] == name then col else f.columns[k]), f.height)
      else
        Frame(f.names + [name], f.columns + [col], f.height);
    AssignedColumns(f, r, name, col);
    r
  }

  /** The column-level reading of a position-wise replacement. */
  lemma AssignedColumns(f: Frame, r: Frame, name: string, col: seq<Cell>)
    requires Valid(f) && Valid(r) && f.names <= r.names && |r.names| <= |f.names| + 1
    requires |r.names| == |f.names| + 1 ==> name !in f.names && r.names[|f.names|] == name
    requires name in r.names
    requires forall k :: 0 <= k < |r.names| && r.names[k] == name ==> r.columns[k] == col
    requires forall k :: 0 <= k < |f.names| && f.names[k] != name ==> r.columns[k] == f.columns[k]
    ensures Column(r, name) == col
    ensures forall n :: n != name && n in f.names ==> n in r.names && Column(r, n) == Column(f, n)
  {
    forall n | n != name && n in f.names
      ensures n in r.names && Column(r, n) == Column(f, n)
    {
      IndexOfAgrees(f.names, r.names, n);
    }
  }

  /** Row `i`: the cell of every column at position `i`, in column order. */
  function Row(f: Frame, i: nat): (row: seq<Cell>)
    requires Valid(f) && i < f.height
    ensures |row| == |f.columns| && forall k :: 0 <= k < |f.columns| ==> row[k] == f.columns[k][i]
  {
    seq(|f.columns|, k requires 0 <= k < |f.columns| => f.columns[k][i])
  }

  /** `f.rename(columns={from: to})`: every label `from` becomes `to`; the cells stay. */
  function Rename(f: Frame, from: string, to: string): (r: Frame)
    ensures r.columns == f.columns && r.height == f.height && |r.names| == |f.names|
    ensures forall k :: 0 <= k < |f.names| ==> r.names[k] == (if f.names[k] == from then to else f.names[k])
  {
    Frame(seq(|f.names|, k requires 0 <= k < |f.names| => if f.names[k] == from then to else f.names[k]), f.columns, f.height)
  }

  /** Assigning a scalar under `name`: every row of that column reads back as the
      scalar, and every other label reads as before. */
  lemma AssignConstant(f: Frame, name: string, c: Cell)
    requires Valid(f)
    ensures forall i :: 0 <= i < f.height ==> Column(Assign(f, name, Constant(c, f.height)), name)[i] == c
    ensures forall n :: n != name && n in f.names ==>
      Column(Assign(f, name, Constant(c, f.height)), n) == Column(f, n)
  {
  }

  /** Renaming read back: no `from` label is left unless it is also the target, a
      frame that had `from` now has `to`, every other label keeps its presence and its
      column, and when `to` was not there before it reads as `from` did. */
  lemma RenameReadBack(f: Frame, from: string, to: string)
    requires Valid(f)
    ensures Valid(Rename(f, from, to))
    ensures from != to ==> from !in Rename(f, from, to).names
    ensures from in f.names ==> to in Rename(f, from, to).names
    ensures forall n :: n != from && n != to ==> (n in Rename(f, from, to).names <==> n in f.names)
    ensures forall n :: n != from && n != to && n in f.names ==> Column(Rename(f, from, to), n) == Column(f, n)
    ensures from in f.names && to !in f.names ==> Column(Rename(f, from, to), to) == Column(f, from)
  {
    var r := Rename(f, from, to);
    if from in f.names {
      var k := IndexOf(f.names, from);
      assert r.names[k] == to;
      if to !in f.names {
        IndexOfRenamed(f.names, r.names, from, to);
      }
    }
    forall n | n != from && n != to
      ensures n in r.names <==> n in f.names
    {
      if n in f.names {
        var k := IndexOf(f.names, n);
        assert r.names[k] == n;
      }
      if n in r.names {
        var k := IndexOf(r.names, n);
        assert f.names[k] == n;
      }
    }
    forall n | n != from && n != to && n in f.names
      ensures Column(r, n) == Column(f, n)
    {
      IndexOfAgrees(f.names, r.names, n);
    }
  }

  /** When the labels `x` of `a` sit exactly where the labels `y` of `b` do, the first `y` of `b` is where the first `x` of `a` was. */
  lemma {:induction false} IndexOfRenamed(a: seq<string>, b: seq<string>, x: string, y: string)
    requires |a| <= |b| && x in a
    requires forall k :: 0 <= k < |a| ==> (a[k] == x <==> b[k] == y)
    ensures y in b && IndexOf(b, y) == IndexOf(a, x)
  {
    if a[0] != x {
      assert forall k :: 0 <= k < |a| - 1 ==> a[1..][k] == a[k + 1] && b[1..][k] == b[k + 1];
      assert x in a[1..];
      IndexOfRenamed(a[1..], b[1..], x, y);
    }
  }

  /** Renaming a label the frame does not carry changes nothing. */
  lemma RenameAbsent(f: Frame, from: string, to: string)
    requires from !in f.names
    ensures Rename(f, from, to) == f
  {
    assert Rename(f, from, to).names == f.names;
  }

  /** The positions, in frame order, of the columns carrying `name`. */
  function Matching(names: seq<string>, name: string): (ks: seq<nat>)
    ensures forall i :: 0 <= i < |ks| ==> ks[i] < |names| && names[ks[i]] == name
    ensures forall k :: 0 <= k < |names| && names[k] == name ==> k in ks
    ensures forall i, j :: 0 <= i < j < |ks| ==> ks[i] < ks[j]
  {
    if names == [] then []
    else
      var prev := Matching(names[..|names| - 1], name);
      if names[|names| - 1] == name then prev + [|names| - 1] else prev
  }

  /** The positions picked by `f[wanted]`: for each wanted label in turn, all columns
      carrying it. */
  function Gather(names: seq<string>, wanted: seq<string>): (ks: seq<nat>)
    ensures forall i :: 0 <= i < |ks| ==> ks[i] < |names| && names[ks[i]] in wanted
  {
    if wanted == [] then [] else Matching(names, wanted[0]) + Gather(names, wanted[1..])
  }

  /** The first wanted label with no column, if any. */
  function FirstAbsent(names: seq<string>, wanted: seq<string>): (r: Option<string>)
    ensures r.None? <==> forall w :: w in wanted ==> w in names
    ensures r.Some? ==> r.value in wanted && r.value !in names
  {
    if wanted == [] then None
    else if wanted[0] !in names then Some(wanted[0])
    else FirstAbsent(names, wanted[1..])
  }

  /** `f[wanted]`: a KeyError naming an absent label, or the picked columns. */
  function Select(f: Frame, wanted: seq<string>): (r: Result<Frame, string>)
    requires Valid(f)
    ensures r.Err? <==> exists w :: w in wanted && w !in f.names
    ensures r.Ok? ==> Valid(r.value) && r.value.height == f.height
  {
    match FirstAbsent(f.names, wanted)
    case Some(w) => Err(w)
    case None =>
      var ks := Gather(f.names, wanted);
      Ok(Frame(seq(|ks|, i requires 0 <= i < |ks| => f.names[ks[i]]),
               seq(|ks|, i requires 0 <= i < |ks| => f.columns[ks[i]]), f.height))
  }

  // ---------------------------------------------------------------------------
  // Lemmas

  lemma MatchingAbsent(names: seq<string>, name: string)
    requires name !in names
    ensures Matching(names, name) == []
  {
  }

  lemma {:induction false} MatchingUnique(names: seq<string>, name: string)
    requires DistinctNames(names) && name in names
    ensures Matching(names, name) == [IndexOf(names, name)]
  {
    var n := |names|;
    var p := names[..n - 1];
    assert Matching(names, name) == if names[n - 1] == name then Matching(p, name) + [n - 1] else Matching(p, name);
    if names[n - 1] == name {
      DistinctLast(names);
      MatchingAbsent(p, name);
      assert IndexOf(names, name) == n - 1;
    } else {
      assert names == p + [names[n - 1]];
      assert name in p;
      DistinctPrefix(names);
      MatchingUnique(p, name);
      IndexOfPrefix(p, names[n - 1], name);
    }
  }

  /** The last label of a list of distinct labels occurs nowhere before it. */
  lemma DistinctLast(names: seq<string>)
    requires DistinctNames(names) && names != []
    ensures names[|names| - 1] !in names[..|names| - 1]
  {
    var p := names[..|names| - 1];
    forall k | 0 <= k < |p|
      ensures p[k] != names[|names| - 1]
    {
      assert p[k] == names[k];
    }
  }

  lemma DistinctPrefix(names: seq<string>)
    requires DistinctNames(names) && names != []
    ensures DistinctNames(names[..|names| - 1])
  {
    var p := names[..|names| - 1];
    forall j, k | 0 <= j < k < |p|
      ensures p[j] != p[k]
    {
      assert p[j] == names[j] && p[k] == names[k];
    }
  }

  /** A label found in a list is found at the same place once a label is appended. */
  lemma {:induction false} IndexOfPrefix(p: seq<string>, last: string, x: string)
    requires x in p
    ensures x in p + [last] && IndexOf(p + [last], x) == IndexOf(p, x)
  {
    if p[0] != x {
      assert (p + [last])[1..] == p[1..] + [last];
      IndexOfPrefix(p[1..], last, x);
    }
  }

  lemma {:induction false} GatherDistinct(names: seq<string>, wanted: seq<string>)
    requires DistinctNames(names)
    requires forall w :: w in wanted ==> w in names
    ensures |Gather(names, wanted)| == |wanted|
    ensures forall i :: 0 <= i < |wanted| ==> Gather(names, wanted)[i] == IndexOf(names, wanted[i])
  {
    if wanted != [] {
      MatchingUnique(names, wanted[0]);
      GatherDistinct(names, wanted[1..]);
      var g := Gather(names, wanted);
      assert g == [IndexOf(names, wanted[0])] + Gather(names, wanted[1..]);
      forall i | 0 <= i < |wanted|
        ensures g[i] == IndexOf(names, wanted[i])
      {
        if i > 0 {
          assert g[i] == Gather(names, wanted[1..])[i - 1];
          assert wanted[i] == wanted[1..][i - 1];
        }
      }
    }
  }

  /** On a frame whose labels are distinct, `f[wanted]` has exactly the wanted labels,
      in the wanted order, each with its own column. */
  lemma SelectDistinct(f: Frame, wanted: seq<string>)
    requires Valid(f) && DistinctNames(f.names)
    requires forall w :: w in wanted ==> w in f.names
    ensures Select(f, wanted).Ok?
    ensures Select(f, wanted).value.names == wanted
    ensures forall i :: 0 <= i < |wanted| ==> Select(f, wanted).value.columns[i] == Column(f, wanted[i])
  {
    GatherDistinct(f.names, wanted);
  }

  /** A label that occurs twice is picked twice: the selection is wider than the list. */
  lemma {:induction false} SelectDuplicated(f: Frame, wanted: seq<string>, j: nat, k: nat)
    requires Valid(f)
    requires forall w :: w in wanted ==> w in f.names
    requires j < k < |f.names| && f.names[j] == f.names[k] && f.names[j] in wanted
    ensures Select(f, wanted).Ok?
    ensures |Select(f, wanted).value.names| > |wanted|
  {
    GatherWide(f.names, wanted, j, k);
  }

  lemma {:induction false} GatherWide(names: seq<string>, wanted: seq<string>, j: nat, k: nat)
    requires forall w :: w in wanted ==> w in names
    requires j < k < |names| && names[j] == names[k] && names[j] in wanted
    ensures |Gather(names, wanted)| > |wanted|
  {
    GatherAtLeast(names, wanted[1..]);
    var ms := Matching(names, wanted[0]);
    if wanted[0] == names[j] {
      assert j in ms && k in ms;
      var a :| 0 <= a < |ms| && ms[a] == j;
      var b :| 0 <= b < |ms| && ms[b] == k;
      assert a != b;
    } else {
      assert names[j] in wanted[1..];
      GatherWide(names, wanted[1..], j, k);
      assert names[IndexOf(names, wanted[0])] == wanted[0];
    }
  }

  lemma {:induction false} GatherAtLeast(names: seq<string>, wanted: seq<string>)
    requires forall w :: w in wanted ==> w in names
    ensures |Gather(names, wanted)| >= |wanted|
  {
    if wanted != [] {
      assert IndexOf(names, wanted[0]) in Matching(names, wanted[0]);
      GatherAtLeast(names, wanted[1..]);
    }
  }

  /** Two label lists that carry `x` at the same positions find it at the same place. */
  lemma {:induction false} IndexOfAgrees(a: seq<string>, b: seq<string>, x: string)
    requires |a| <= |b| && x in a
    requires forall k :: 0 <= k < |a| ==> (a[k] == x <==> b[k] == x)
    ensures x in b && IndexOf(b, x) == IndexOf(a, x)
  {
    if a[0] != x {
      IndexOfAgrees(a[1..], b[1..], x);
    }
  }
}
