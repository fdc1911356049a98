/** The reference bank and the per-read classification of
    tredparse/bam_parser.py (`_buildDB` and the pure part of `_parseReadSW`). */
module Classifier {
  import opened Options
  import opened Dna
  import opened Overlap

  /** An alignment must start or end this close to a flank to anchor it. */
  const FLANKMATCH: int := 9
  /** The floor on the aligner's minimum score. */
  const SCORE_FLOOR: int := 30

  datatype Tag = Full | Pref | Post | Rept | Hang

  /** One hypothesis of the bank: a unit count and the reference it spells. */
  datatype BankEntry = BankEntry(units: nat, target: string)

  /** One `(score, units, tag)` triple collected while scanning the bank. */
  datatype Candidate = Candidate(score: int, units: int, tag: Tag)

  /** The local aligner: (query, reference, minimum score, minimum length)
      to an optional alignment. */
  type Aligner = (string, string, int, int) -> Option<Alignment>

  function Max(a: int, b: int): int { if a >= b then a else b }
  function Min(a: int, b: int): int { if a <= b then a else b }

  /** `int(math.ceil(READLEN * 1. / period))`: the fewest whole units whose
      total length reaches the read length. */
  function MaxUnits(readLen: nat, period: nat): (m: nat)
    requires period > 0
    ensures m * period >= readLen
    ensures m == 0 || (m - 1) * period < readLen
  {
    var q := (readLen + period - 1) / period;
    assert q * period + (readLen + period - 1) % period == readLen + period - 1;
    q
  }

  /** `repeat * units`. */
  function Repeat(motif: string, units: nat): (r: string)
    ensures |r| == |motif| * units
  {
    if units == 0 then []
    else
      var r := motif + Repeat(motif, units - 1);
      assert |motif| * units == |motif| * (units - 1) + |motif|;
      r
  }

  /** The reference for a hypothesis: prefix, `units` copies of the motif, suffix. */
  function Target(prefix: string, motif: string, suffix: string, units: nat): string
  {
    prefix + Repeat(motif, units) + suffix
  }

  /** The bank `_buildDB` builds: for units 1 to maxUnits in ascending order,
      the forward reference immediately followed by its reverse complement. */
  function Bank(prefix: string, motif: string, suffix: string, maxUnits: nat): (b: seq<BankEntry>)
    ensures |b| == 2 * maxUnits
    ensures forall i :: 0 <= i < |b| ==> b[i].units == i / 2 + 1
    ensures forall i :: 0 <= i < |b| && i % 2 == 0 ==> b[i].target == Target(prefix, motif, suffix, i / 2 + 1)
    ensures forall i :: 0 <= i < |b| && i % 2 == 1 ==> b[i].target == Rc(Target(prefix, motif, suffix, i / 2 + 1))
  {
    if maxUnits == 0 then []
    else
      var t := Target(prefix, motif, suffix, maxUnits);
      Bank(prefix, motif, suffix, maxUnits - 1) + [BankEntry(maxUnits, t), BankEntry(maxUnits, Rc(t))]
  }

  /** Unit counts never decrease along the bank, and every one lies in 1..maxUnits. */
  lemma BankOrdered(prefix: string, motif: string, suffix: string, maxUnits: nat, i: int, j: int)
    requires 0 <= i <= j < 2 * maxUnits
    ensures 1 <= Bank(prefix, motif, suffix, maxUnits)[i].units <= Bank(prefix, motif, suffix, maxUnits)[j].units <= maxUnits
  {
  }

  /** A CAG locus read with 150 bp reads: 50 units at most, so 100 bank entries. */
  lemma CagBankSize(prefix: string, suffix: string)
    ensures MaxUnits(150, 3) == 50
    ensures |Bank(prefix, "CAG", suffix, MaxUnits(150, 3))| == 100
  {
  }

  /** `min_len`: half the shorter of read and reference (Python 2 integer division). */
  function MinLen(readLen: nat, targetLen: nat): nat
  {
    Min(readLen, targetLen) / 2
  }

  /** `min_score`: the minimum length, but never below 30. */
  function MinScore(readLen: nat, targetLen: nat): (r: int)
    ensures r >= SCORE_FLOOR && r >= MinLen(readLen, targetLen)
    ensures r == SCORE_FLOOR || r == MinLen(readLen, targetLen)
  {
    Max(MinLen(readLen, targetLen), SCORE_FLOOR)
  }

  predicate PrefixRead(al: Alignment)
  {
    al.refBegin < FLANKMATCH
  }

  predicate SuffixRead(al: Alignment, targetLen: int)
  {
    al.refEnd > targetLen - FLANKMATCH - 1
  }

  predicate ReptRead(units: int, maxUnits: int, period: int, readLen: int)
  {
    units >= maxUnits - 1 && units * period <= readLen
  }

  /** The tag one alignment earns; rules are tried in order and the first
      that holds wins, None meaning the variant is skipped. */
  function TagOf(al: Alignment, units: int, targetLen: int, readLen: int, maxUnits: int, period: int): (r: Option<Tag>)
    ensures r == Some(Hang) <==> GetHangs(al, targetLen, readLen) >= FLANKMATCH
    ensures r == Some(Full) <==> GetHangs(al, targetLen, readLen) < FLANKMATCH && PrefixRead(al) && SuffixRead(al, targetLen)
    ensures r == Some(Pref) <==> GetHangs(al, targetLen, readLen) < FLANKMATCH && PrefixRead(al) && !SuffixRead(al, targetLen)
    ensures r == Some(Post) <==> GetHangs(al, targetLen, readLen) < FLANKMATCH && !PrefixRead(al) && SuffixRead(al, targetLen)
    ensures r == Some(Rept) <==> GetHangs(al, targetLen, readLen) < FLANKMATCH && !PrefixRead(al) && !SuffixRead(al, targetLen)
                                 && ReptRead(units, maxUnits, period, readLen)
    ensures r == None <==> GetHangs(al, targetLen, readLen) < FLANKMATCH && !PrefixRead(al) && !SuffixRead(al, targetLen)
                           && !ReptRead(units, maxUnits, period, readLen)
  {
    if GetHangs(al, targetLen, readLen) >= FLANKMATCH then Some(Hang)
    else if PrefixRead(al) then (if SuffixRead(al, targetLen) then Some(Full) else Some(Pref))
    else if SuffixRead(al, targetLen) then Some(Post)
    else if ReptRead(units, maxUnits, period, readLen) then Some(Rept)
    else None
  }

  /** A read anchored in both flanks with a small hang is FULL, never PREF or POST. */
  lemma BothFlanksIsFull(al: Alignment, units: int, targetLen: int, readLen: int, maxUnits: int, period: int)
    requires GetHangs(al, targetLen, readLen) < FLANKMATCH
    requires al.refBegin < FLANKMATCH && al.refEnd > targetLen - FLANKMATCH - 1
    ensures TagOf(al, units, targetLen, readLen, maxUnits, period) == Some(Full)
  {
  }

  /** A read that aligns end to end with the whole reference is FULL. */
  lemma ExactMatchIsFull(al: Alignment, units: int, len: int, maxUnits: int, period: int)
    requires len > 0
    requires al.refBegin == 0 && al.refEnd == len - 1 && al.queryBegin == 0 && al.queryEnd == len - 1
    ensures GetHangs(al, len, len) == 0
    ensures TagOf(al, units, len, len, maxUnits, period) == Some(Full)
  {
  }

  /** The candidate one bank entry yields for a read, if any. */
  function CandidateOf(read: string, e: BankEntry, align: Aligner, maxUnits: int, period: int): Option<Candidate>
  {
    match align(read, e.target, MinScore(|read|, |e.target|), MinLen(|read|, |e.target|))
    case None => None
    case Some(al) =>
      match TagOf(al, e.units, |e.target|, |read|, maxUnits, period)
      case None => None
      case Some(tag) => Some(Candidate(al.score, e.units, tag))
  }

  /** The list `res` after scanning the bank entries in order. */
  function Candidates(read: string, db: seq<BankEntry>, align: Aligner, maxUnits: int, period: int): (res: seq<Candidate>)
    ensures |res| <= |db|
  {
    if db == [] then []
    else
      var front := Candidates(read, db[..|db| - 1], align, maxUnits, period);
      match CandidateOf(read, db[|db| - 1], align, maxUnits, period)
      case None => front
      case Some(c) => front + [c]
  }

  /** The key `(score, -units)` of x is strictly greater than that of y. */
  predicate Better(x: Candidate, y: Candidate)
  {
    x.score > y.score || (x.score == y.score && x.units < y.units)
  }

  /** The position Python's `max` picks: a candidate no other beats, and the
      first such one, since `max` keeps the earliest of equal keys. */
  function BestIndex(res: seq<Candidate>): (i: nat)
    requires |res| > 0
    ensures i < |res|
    ensures forall j :: 0 <= j < |res| ==> !Better(res[j], res[i])
    ensures forall j :: 0 <= j < i ==> Better(res[i], res[j])
  {
    if |res| == 1 then 0
    else
      var b := BestIndex(res[..|res| - 1]);
      assert forall j :: 0 <= j < |res| - 1 ==> res[..|res| - 1][j] == res[j];
      if Better(res[|res| - 1], res[b]) then |res| - 1 else b
  }

  /** The classification of one read: no candidate means no classification;
      otherwise the winning candidate. */
  function Classify(read: string, db: seq<BankEntry>, align: Aligner, maxUnits: int, period: int): (r: Option<Candidate>)
    ensures r.None? <==> Candidates(read, db, align, maxUnits, period) == []
    ensures r.Some? ==> r.value in Candidates(read, db, align, maxUnits, period)
    ensures r.Some? ==> forall c :: c in Candidates(read, db, align, maxUnits, period) ==> !Better(c, r.value)
  {
    var res := Candidates(read, db, align, maxUnits, period);
    if res == [] then None else Some(res[BestIndex(res)])
  }

  /** Among candidates with the top score, the winner has the fewest units. */
  lemma WinnerTieBreak(read: string, db: seq<BankEntry>, align: Aligner, maxUnits: int, period: int, c: Candidate)
    requires Classify(read, db, align, maxUnits, period).Some?
    requires c in Candidates(read, db, align, maxUnits, period)
    ensures c.score <= Classify(read, db, align, maxUnits, period).value.score
    ensures c.score == Classify(read, db, align, maxUnits, period).value.score ==>
              Classify(read, db, align, maxUnits, period).value.units <= c.units
  {
  }

  /** The aligner keeps its promise never to report a score under the minimum asked for. */
  ghost predicate HonestAligner(align: Aligner)
  {
    forall q, t, s, l :: align(q, t, s, l).Some? ==> align(q, t, s, l).value.score >= s
  }

  /** Every candidate an honest aligner yields scores at least 30. */
  lemma {:induction false} CandidatesScoreFloor(read: string, db: seq<BankEntry>, align: Aligner, maxUnits: int, period: int)
    requires HonestAligner(align)
    ensures forall c :: c in Candidates(read, db, align, maxUnits, period) ==> c.score >= SCORE_FLOOR
  {
    if db != [] {
      CandidatesScoreFloor(read, db[..|db| - 1], align, maxUnits, period);
    }
  }

  /** Every candidate's unit count is one of the bank's. */
  lemma {:induction false} CandidatesFromBank(read: string, db: seq<BankEntry>, align: Aligner, maxUnits: int, period: int)
    ensures forall c :: c in Candidates(read, db, align, maxUnits, period) ==> exists e :: e in db && e.units == c.units
  {
    if db != [] {
      CandidatesFromBank(read, db[..|db| - 1], align, maxUnits, period);
      forall c | c in Candidates(read, db, align, maxUnits, period)
        ensures exists e :: e in db && e.units == c.units
      {
        if c in Candidates(read, db[..|db| - 1], align, maxUnits, period) {
          var e :| e in db[..|db| - 1] && e.units == c.units;
          assert e in db;
        } else {
          assert db[|db| - 1] in db;
        }
      }
    }
  }
}
