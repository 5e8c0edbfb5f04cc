/** Merging the rows of several trace files by their start times. */
module Merging {
  import opened Types

  type Byte = n: nat | n < 0x100

  /** One transmission of a trace file. `packet` is absent if its hexadecimal text is broken. */
  datatype Row = Row(start: int, size: int, modulation: int, freq: real, address: int, packet: Option<seq<Byte>>)

  /** A row and the file it comes from. */
  datatype Tagged = Tagged(file: nat, row: Row)

  /** What reading a file gives, line after line; None is a truncated line. */
  type Lines = seq<Option<Row>>

  /** The rows which are read: nothing after a truncated line. */
  function Rows(f: Lines): (r: seq<Row>)
    ensures |r| <= |f|
  {
    if f == [] || f[0] == None then [] else [f[0].value] + Rows(f[1..])
  }

  /** These are the rows up to the first truncated line. */
  lemma {:induction false} RowsArePrefix(f: Lines)
    ensures forall i :: 0 <= i < |Rows(f)| ==> f[i] == Some(Rows(f)[i])
    ensures |Rows(f)| < |f| ==> f[|Rows(f)|] == None
  {
    if f != [] && f[0] != None {
      RowsArePrefix(f[1..]);
      forall i | 0 <= i < |Rows(f)|
        ensures f[i] == Some(Rows(f)[i])
      {
        if i > 0 {
          assert f[i] == f[1..][i - 1];
        }
      }
    }
  }

  // ---------------------------------------------------------------- the next row

  /** File `i` has the earliest row, and no file before it has one as early. */
  ghost predicate IsMin(fs: seq<seq<Row>>, i: nat)
  {
    && i < |fs| && fs[i] != []
    && (forall j :: 0 <= j < |fs| && fs[j] != [] ==> fs[i][0].start <= fs[j][0].start)
    && (forall j :: 0 <= j < i && fs[j] != [] ==> fs[i][0].start < fs[j][0].start)
  }

  /** The file to take from, or -1 if all are used up. */
  function MinFile(fs: seq<seq<Row>>): (i: int)
    ensures i == -1 || (i >= 0 && IsMin(fs, i))
    ensures i == -1 ==> forall j :: 0 <= j < |fs| ==> fs[j] == []
  {
    if |fs| == 0 then -1
    else
      var last := |fs| - 1;
      var i := MinFile(fs[..last]);
      assert i >= 0 ==> IsMin(fs[..last], i);
      assert forall j :: 0 <= j < last ==> fs[..last][j] == fs[j];
      if fs[last] == [] then i
      else if i == -1 || fs[last][0].start < fs[i][0].start then last
      else i
  }

  lemma MinIsUnique(fs: seq<seq<Row>>, i: nat)
    requires IsMin(fs, i)
    ensures MinFile(fs) == i
  {
    assert fs[i] != [];
    assert MinFile(fs) >= 0;
  }

  function Total(fs: seq<seq<Row>>): nat
  {
    if |fs| == 0 then 0 else Total(fs[..|fs| - 1]) + |fs[|fs| - 1]|
  }

  lemma {:induction false} TotalTake(fs: seq<seq<Row>>, i: nat)
    requires i < |fs| && fs[i] != []
    ensures Total(fs[i := fs[i][1..]]) == Total(fs) - 1
  {
    var last := |fs| - 1;
    if i == last {
      assert fs[i := fs[i][1..]][..last] == fs[..last];
    } else {
      assert fs[i := fs[i][1..]][..last] == fs[..last][i := fs[..last][i][1..]];
      TotalTake(fs[..last], i);
    }
  }

  /** The files after their earliest row has been taken. */
  function Taken(fs: seq<seq<Row>>): (r: seq<seq<Row>>)
    requires MinFile(fs) >= 0
    ensures |r| == |fs| && Total(r) < Total(fs)
  {
    var i := MinFile(fs);
    TotalTake(fs, i);
    fs[i := fs[i][1..]]
  }

  /** The merged rows. */
  function Merge(fs: seq<seq<Row>>): seq<Tagged>
    decreases Total(fs)
  {
    var i := MinFile(fs);
    if i == -1 then [] else [Tagged(i, fs[i][0])] + Merge(Taken(fs))
  }

  // ---------------------------------------------------------------- properties

  /** Earlier, or at the same time from the same or a lower file. */
  predicate Precedes(a: Tagged, b: Tagged)
  {
    a.row.start < b.row.start || (a.row.start == b.row.start && a.file <= b.file)
  }

  ghost predicate Ordered(ms: seq<Tagged>)
  {
    forall a, b :: 0 <= a < b < |ms| ==> Precedes(ms[a], ms[b])
  }

  ghost predicate SortedFiles(fs: seq<seq<Row>>)
  {
    forall i, a, b :: 0 <= i < |fs| && 0 <= a < b < |fs[i]| ==> fs[i][a].start <= fs[i][b].start
  }

  /** The rows of one file among tagged ones. */
  function Of(ms: seq<Tagged>, i: nat): seq<Row>
  {
    if ms == [] then []
    else (if ms[0].file == i then [ms[0].row] else []) + Of(ms[1..], i)
  }

  ghost predicate FromFiles(ms: seq<Tagged>, n: nat) { forall k :: 0 <= k < |ms| ==> ms[k].file < n }

  /** Every row of every file is taken once, and those of one file in their order. */
  lemma {:induction false} MergeTakesAll(fs: seq<seq<Row>>, i: nat)
    requires i < |fs|
    ensures Of(Merge(fs), i) == fs[i] && FromFiles(Merge(fs), |fs|)
    decreases Total(fs)
  {
    var k := MinFile(fs);
    if k >= 0 {
      MergeTakesAll(Taken(fs), i);
      assert Merge(fs)[1..] == Merge(Taken(fs));
      if k == i {
        assert fs[i] == [fs[i][0]] + fs[i][1..];
      }
    }
  }

  /** What precedes the next row of every file precedes all the merged ones. */
  lemma {:induction false} PrecedesAll(fs: seq<seq<Row>>, x: Tagged)
    requires SortedFiles(fs)
    requires forall i :: 0 <= i < |fs| && fs[i] != [] ==> Precedes(x, Tagged(i, fs[i][0]))
    ensures forall k :: 0 <= k < |Merge(fs)| ==> Precedes(x, Merge(fs)[k])
    decreases Total(fs)
  {
    var i := MinFile(fs);
    if i >= 0 {
      var r := Taken(fs);
      forall j | 0 <= j < |r| && r[j] != []
        ensures Precedes(x, Tagged(j, r[j][0]))
      {
        assert Precedes(x, Tagged(j, fs[j][0]));
        if j == i {
          assert r[j][0] == fs[i][1];
        }
      }
      PrecedesAll(r, x);
    }
  }

  lemma {:induction false} MergeOrdered(fs: seq<seq<Row>>)
    requires SortedFiles(fs)
    ensures Ordered(Merge(fs))
    decreases Total(fs)
  {
    var i := MinFile(fs);
    if i >= 0 {
      var r := Taken(fs);
      var x := Tagged(i, fs[i][0]);
      forall j | 0 <= j < |r| && r[j] != []
        ensures Precedes(x, Tagged(j, r[j][0]))
      {
        if j == i {
          assert r[j][0] == fs[i][1];
        }
      }
      PrecedesAll(r, x);
      MergeOrdered(r);
    }
  }

  lemma {:induction false} FirstOf(ms: seq<Tagged>, i: nat) returns (k: nat)
    requires Of(ms, i) != []
    ensures k < |ms| && ms[k] == Tagged(i, Of(ms, i)[0])
  {
    if ms[0].file == i {
      k := 0;
    } else {
      k := FirstOf(ms[1..], i);
      k := k + 1;
    }
  }

  lemma FirstIsMin(fs: seq<seq<Row>>, ms: seq<Tagged>)
    requires ms != [] && Ordered(ms) && FromFiles(ms, |fs|)
    requires forall i :: 0 <= i < |fs| ==> Of(ms, i) == fs[i]
    ensures IsMin(fs, ms[0].file) && fs[ms[0].file][0] == ms[0].row
  {
    var f := ms[0].file;
    assert Of(ms, f) == fs[f];
    forall j | 0 <= j < |fs| && fs[j] != []
      ensures fs[f][0].start <= fs[j][0].start && (j < f ==> fs[f][0].start < fs[j][0].start)
    {
      var k := FirstOf(ms, j);
      assert k == 0 || Precedes(ms[0], ms[k]);
    }
  }

  /** The merge of sorted files is the one sequence which is ordered by time and then by file, and
      holds exactly the rows of each file, in their order. */
  lemma {:induction false} OnlyOneMerge(fs: seq<seq<Row>>, ms: seq<Tagged>)
    requires SortedFiles(fs)
    ensures ms == Merge(fs) <==>
            Ordered(ms) && FromFiles(ms, |fs|) && forall i :: 0 <= i < |fs| ==> Of(ms, i) == fs[i]
  {
    MergeOrdered(fs);
    forall i: nat | i < |fs|
      ensures Of(Merge(fs), i) == fs[i] && FromFiles(Merge(fs), |fs|)
    {
      MergeTakesAll(fs, i);
    }
    if |fs| == 0 {
      assert Merge(fs) == [];
    }
    if Ordered(ms) && FromFiles(ms, |fs|) && forall i :: 0 <= i < |fs| ==> Of(ms, i) == fs[i] {
      MergeIsForced(fs, ms);
    }
  }

  lemma {:induction false} MergeIsForced(fs: seq<seq<Row>>, ms: seq<Tagged>)
    requires Ordered(ms) && FromFiles(ms, |fs|)
    requires forall i :: 0 <= i < |fs| ==> Of(ms, i) == fs[i]
    ensures ms == Merge(fs)
    decreases |ms|
  {
    if ms == [] {
      assert MinFile(fs) == -1;
    } else {
      FirstIsMin(fs, ms);
      MinIsUnique(fs, ms[0].file);
      var r := Taken(fs);
      forall i | 0 <= i < |fs|
        ensures Of(ms[1..], i) == r[i]
      {
        assert Of(ms, i) == fs[i];
        if i == ms[0].file {
          assert fs[i] == [ms[0].row] + Of(ms[1..], i);
        }
      }
      MergeIsForced(r, ms[1..]);
    }
  }
}
