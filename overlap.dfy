/** Overlap geometry of one local alignment, as `get_hangs` in
    tredparse/bam_parser.py. */
module Overlap {

  /** What the local aligner reports: 0-based begin and inclusive end
      offsets on the reference and on the query, and the score. */
  datatype Alignment = Alignment(refBegin: int, refEnd: int, queryBegin: int, queryEnd: int, score: int)

  /** The offsets lie inside a reference of length refLen and a query of
      length queryLen. */
  predicate WithinBounds(al: Alignment, refLen: int, queryLen: int)
  {
    0 <= al.refBegin <= al.refEnd < refLen && 0 <= al.queryBegin <= al.queryEnd < queryLen
  }

  /** The four unaligned overhangs: left and right of the reference (a),
      left and right of the query (b). */
  function LeftRef(al: Alignment): int { al.refBegin }
  function RightRef(al: Alignment, refLen: int): int { refLen - al.refEnd - 1 }
  function LeftQuery(al: Alignment): int { al.queryBegin }
  function RightQuery(al: Alignment, queryLen: int): int { queryLen - al.queryEnd - 1 }

  /** The smallest overhang over the four overlap topologies: a before b,
      b before a, a inside b and b inside a. */
  function GetHangs(al: Alignment, refLen: int, queryLen: int): (h: int)
    ensures h <= RightRef(al, refLen) + LeftQuery(al)
    ensures h <= LeftRef(al) + RightQuery(al, queryLen)
    ensures h <= LeftRef(al) + RightRef(al, refLen)
    ensures h <= LeftQuery(al) + RightQuery(al, queryLen)
    ensures h == RightRef(al, refLen) + LeftQuery(al) || h == LeftRef(al) + RightQuery(al, queryLen)
         || h == LeftRef(al) + RightRef(al, refLen) || h == LeftQuery(al) + RightQuery(al, queryLen)
  {
    var s1 := RightRef(al, refLen) + LeftQuery(al);
    var s2 := LeftRef(al) + RightQuery(al, queryLen);
    var s3 := LeftRef(al) + RightRef(al, refLen);
    var s4 := LeftQuery(al) + RightQuery(al, queryLen);
    var m12 := if s1 <= s2 then s1 else s2;
    var m123 := if m12 <= s3 then m12 else s3;
    if m123 <= s4 then m123 else s4
  }

  /** The same alignment with the reference and query roles exchanged. */
  function Swap(al: Alignment): Alignment
  {
    Alignment(al.queryBegin, al.queryEnd, al.refBegin, al.refEnd, al.score)
  }

  /** Within bounds, no overhang is negative, so neither is the minimum. */
  lemma HangNonNegative(al: Alignment, refLen: int, queryLen: int)
    requires WithinBounds(al, refLen, queryLen)
    ensures GetHangs(al, refLen, queryLen) >= 0
  {
  }

  /** Exchanging which sequence plays the reference leaves the hang unchanged. */
  lemma HangSymmetric(al: Alignment, refLen: int, queryLen: int)
    ensures GetHangs(Swap(al), queryLen, refLen) == GetHangs(al, refLen, queryLen)
  {
  }

  /** An alignment that covers the whole reference has hang 0. */
  lemma FullCoverHangZero(al: Alignment, refLen: int, queryLen: int)
    requires WithinBounds(al, refLen, queryLen)
    requires al.refBegin == 0 && al.refEnd == refLen - 1
    ensures GetHangs(al, refLen, queryLen) == 0
  {
  }
}
