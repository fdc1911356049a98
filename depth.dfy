/** The integer parts of `BamDepth.get_Y_depth` and `BamReadLen.readlen` in
    tredparse/bam_parser.py: which panel rows are measured, and the read
    length taken from the first reads. */
module Depth {
  import opened Options

  /** Panel rows that still carry mapped reads and are skipped. */
  const EXCLUDED: set<int> := {1, 4, 6, 7, 10, 11, 13, 16, 18, 19}

  /** How many panel rows are measured by default. */
  const Y_ROWS: nat := 5

  /** `readlen` looks at this many reads, plus one. */
  const FIRST_N: nat := 100

  /** The rows below k that are not skipped, ascending. */
  function EligibleRows(k: nat): (r: seq<int>)
    ensures forall i :: 0 <= i < |r| ==> 0 <= r[i] < k && r[i] !in EXCLUDED
    ensures forall i, j :: 0 <= i < j < |r| ==> r[i] < r[j]
  {
    if k == 0 then [] else EligibleRows(k - 1) + (if k - 1 in EXCLUDED then [] else [k - 1])
  }

  /** No row is dropped: every row below k that is not excluded is listed. */
  lemma {:induction false} EligibleComplete(k: nat)
    ensures forall x :: 0 <= x < k && x !in EXCLUDED ==> x in EligibleRows(k)
  {
    if k > 0 {
      EligibleComplete(k - 1);
      var before, last := EligibleRows(k - 1), if k - 1 in EXCLUDED then [] else [k - 1];
      assert EligibleRows(k) == before + last;
      forall x | 0 <= x < k && x !in EXCLUDED
        ensures x in EligibleRows(k)
      {
        if x < k - 1 {
          assert x in before;
        } else {
          assert last == [x];
        }
      }
    }
  }

  function Take(s: seq<int>, n: nat): (r: seq<int>)
    ensures |r| == if |s| <= n then |s| else n
    ensures r <= s
  {
    if |s| <= n then s else s[..n]
  }

  /** Fewer rows never list a row that more rows would not list first. */
  lemma {:induction false} EligiblePrefix(a: nat, b: nat)
    requires a <= b
    ensures EligibleRows(a) <= EligibleRows(b)
    decreases b - a
  {
    if a < b {
      EligiblePrefix(a, b - 1);
    }
  }

  /** Of the first nine rows, 0, 2, 3, 5 and 8 are measured. */
  lemma FirstNineRows()
    ensures EligibleRows(9) == [0, 2, 3, 5, 8]
  {
    assert EligibleRows(1) == [0];
    assert EligibleRows(2) == [0];
    assert EligibleRows(3) == [0, 2];
    assert EligibleRows(4) == [0, 2, 3];
    assert EligibleRows(5) == [0, 2, 3];
    assert EligibleRows(6) == [0, 2, 3, 5];
    assert EligibleRows(7) == [0, 2, 3, 5];
    assert EligibleRows(8) == [0, 2, 3, 5];
  }

  /** With the default of five, the rows measured are 0, 2, 3, 5 and 8. */
  lemma DefaultPanelRows(nRows: nat)
    requires nRows >= 9
    ensures Take(EligibleRows(nRows), Y_ROWS) == [0, 2, 3, 5, 8]
  {
    EligiblePrefix(9, nRows);
    FirstNineRows();
  }

  /** The loop of `get_Y_depth`: walk the panel rows, skip the excluded
      ones, stop once n rows are taken. The result is the first n rows that
      are not skipped. */
  method YDepthRows(nRows: nat, n: nat) returns (rows: seq<int>)
    ensures rows == Take(EligibleRows(nRows), n)
  {
    rows := [];
    var i := 0;
    while i < nRows
      invariant 0 <= i <= nRows
      invariant rows == Take(EligibleRows(i), n)
    {
      if i in EXCLUDED {
        i := i + 1;
        continue;
      }
      if |rows| >= n {
        EligiblePrefix(i, nRows);
        return;
      }
      rows := rows + [i];
      i := i + 1;
    }
  }

  /** `readlen`: the longest of the first FIRST_N + 1 read lengths; an empty
      file has none (the source fails on `min` of an empty list). */
  method ReadLength(lengths: seq<int>) returns (r: Option<int>)
    ensures r.None? <==> lengths == []
    ensures r.Some? ==> r.value in lengths[..if |lengths| <= FIRST_N + 1 then |lengths| else FIRST_N + 1]
    ensures r.Some? ==> forall i :: 0 <= i < |lengths| && i <= FIRST_N ==> lengths[i] <= r.value
  {
    var rls: seq<int> := [];
    var i := 0;
    while i < |lengths|
      invariant 0 <= i <= |lengths|
      invariant rls == lengths[..i]
      invariant |rls| <= FIRST_N
    {
      assert lengths[..i + 1] == lengths[..i] + [lengths[i]];
      rls := rls + [lengths[i]];
      i := i + 1;
      if |rls| > FIRST_N {
        break;
      }
    }
    assert rls == lengths[..if |lengths| <= FIRST_N + 1 then |lengths| else FIRST_N + 1];
    if rls == [] {
      return None;
    }
    var rmax := rls[0];
    var j := 1;
    while j < |rls|
      invariant 1 <= j <= |rls|
      invariant rmax in rls[..j]
      invariant forall k :: 0 <= k < j ==> rls[k] <= rmax
    {
      if rls[j] > rmax {
        rmax := rls[j];
      }
      j := j + 1;
    }
    assert rls[..|rls|] == rls;
    return Some(rmax);
  }
}
