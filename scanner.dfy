/** The window scanner of tredparse/bam_parser.py: class `BamParser` with its
    count table and details list, and the summaries of `BamParserResults`. */
module Scanner {
  import opened Options
  import opened Counts
  import opened Classifier
  import opened Records

  /** The source's default `pad` of `parse`, which callers of Parse pass;
      the paired-end extractor also uses it as the longest usable pair span. */
  const SPAN: int := 1000

  /** A diagnostic record `{tag, h, seq}`. */
  datatype Detail = Detail(tag: Tag, h: int, sequence: string)

  /** The count table and the details list. PREF and POST share one map. */
  datatype Tally = Tally(full: CountMap, prefPost: CountMap, rept: CountMap, hang: CountMap, details: seq<Detail>)

  /** `counts[tag]`: the map a tag reads and increments. */
  function Table(t: Tally, tag: Tag): CountMap
  {
    match tag
    case Full => t.full
    case Pref => t.prefPost
    case Post => t.prefPost
    case Rept => t.rept
    case Hang => t.hang
  }

  /** Two tags that address the same map. */
  predicate SameTable(a: Tag, b: Tag)
  {
    a == b || (a in {Pref, Post} && b in {Pref, Post})
  }

  /** PREF and POST are one object: both names read the same map. */
  lemma PrefPostAliased(t: Tally)
    ensures Table(t, Pref) == Table(t, Post)
    ensures SameTable(Pref, Post)
  {
  }

  /** Counts only ever hold positive values, and HANG reads never reach the details. */
  ghost predicate TallyValid(t: Tally)
  {
    && (forall k :: k in t.full ==> t.full[k] >= 1)
    && (forall k :: k in t.prefPost ==> t.prefPost[k] >= 1)
    && (forall k :: k in t.rept ==> t.rept[k] >= 1)
    && (forall k :: k in t.hang ==> t.hang[k] >= 1)
    && (forall i :: 0 <= i < |t.details| ==> t.details[i].tag != Hang)
  }

  /** All reads counted, over the four maps. */
  ghost function TotalCount(t: Tally): nat
  {
    SumValues(t.full) + SumValues(t.prefPost) + SumValues(t.rept) + SumValues(t.hang)
  }

  /** The effect of classifying one read: nothing when it has no
      classification; otherwise exactly one counter `counts[tag][h]` goes up by
      one, every other map stays as it was, and a detail is appended unless
      the tag is HANG. */
  function Record(t: Tally, c: Option<Candidate>, read: string): (r: Tally)
    ensures c.None? ==> r == t
    ensures c.Some? ==> Table(r, c.value.tag) == Inc(Table(t, c.value.tag), c.value.units)
    ensures c.Some? ==> forall g :: !SameTable(g, c.value.tag) ==> Table(r, g) == Table(t, g)
    ensures c.Some? && c.value.tag == Hang ==> r.details == t.details
    ensures c.Some? && c.value.tag != Hang ==> r.details == t.details + [Detail(c.value.tag, c.value.units, read)]
  {
    match c
    case None => t
    case Some(w) =>
      match w.tag
      case Full => t.(full := Inc(t.full, w.units), details := t.details + [Detail(w.tag, w.units, read)])
      case Pref => t.(prefPost := Inc(t.prefPost, w.units), details := t.details + [Detail(w.tag, w.units, read)])
      case Post => t.(prefPost := Inc(t.prefPost, w.units), details := t.details + [Detail(w.tag, w.units, read)])
      case Rept => t.(rept := Inc(t.rept, w.units), details := t.details + [Detail(w.tag, w.units, read)])
      case Hang => t.(hang := Inc(t.hang, w.units))
  }

  /** A classified read adds exactly one to the total count. */
  lemma RecordTotal(t: Tally, c: Candidate, read: string)
    ensures TotalCount(Record(t, Some(c), read)) == TotalCount(t) + 1
  {
    SumValuesInc(Table(t, c.tag), c.units);
  }

  /** A POST read raises the total that PDP sums over `counts["PREF"]`. */
  lemma PostFeedsPrefTotal(t: Tally, c: Candidate, read: string)
    requires c.tag == Post
    ensures SumValues(Table(Record(t, Some(c), read), Pref)) == SumValues(Table(t, Pref)) + 1
  {
    SumValuesInc(t.prefPost, c.units);
  }

  lemma RecordValid(t: Tally, c: Option<Candidate>, read: string)
    requires TallyValid(t)
    ensures TallyValid(Record(t, c, read))
  {
  }

  /** Everything a scan needs besides the reads: the acceptance band for
      mapped reads, the bank, the aligner and the REPT parameters. */
  datatype Setup = Setup(lo: int, hi: int, db: seq<BankEntry>, align: Aligner, maxUnits: int, period: int)

  /** A read reaches the classifier when it is unmapped, or when it starts
      inside the acceptance band. */
  predicate Selected(r: Read, s: Setup)
  {
    r.isUnmapped || (s.lo <= r.refStart && r.refStart <= s.hi)
  }

  function ClassifyRead(r: Read, s: Setup): Option<Candidate>
  {
    Classify(r.sequence, s.db, s.align, s.maxUnits, s.period)
  }

  /** The table after the reads in order. */
  function Scan(t: Tally, rs: seq<Read>, s: Setup): (r: Tally)
    ensures t.details <= r.details && |r.details| <= |t.details| + |rs|
  {
    if rs == [] then t
    else
      var before := Scan(t, rs[..|rs| - 1], s);
      var r := rs[|rs| - 1];
      if Selected(r, s) then Record(before, ClassifyRead(r, s), r.sequence) else before
  }

  /** `n_unmapped`: the unmapped reads among those fetched. */
  function CountUnmapped(rs: seq<Read>): (n: nat)
    ensures n <= |rs|
  {
    if rs == [] then 0
    else CountUnmapped(rs[..|rs| - 1]) + (if rs[|rs| - 1].isUnmapped then 1 else 0)
  }

  /** The reads that are selected and get a classification. */
  function NumClassified(rs: seq<Read>, s: Setup): (n: nat)
    ensures n <= |rs|
  {
    if rs == [] then 0
    else
      var r := rs[|rs| - 1];
      NumClassified(rs[..|rs| - 1], s) + (if Selected(r, s) && ClassifyRead(r, s).Some? then 1 else 0)
  }

  /** The count table grows by exactly the number of reads that were
      selected and classified; reads outside the band add nothing. */
  lemma {:induction false} ScanTotal(t: Tally, rs: seq<Read>, s: Setup)
    ensures TotalCount(Scan(t, rs, s)) == TotalCount(t) + NumClassified(rs, s)
  {
    if rs != [] {
      var r := rs[|rs| - 1];
      ScanTotal(t, rs[..|rs| - 1], s);
      if Selected(r, s) && ClassifyRead(r, s).Some? {
        RecordTotal(Scan(t, rs[..|rs| - 1], s), ClassifyRead(r, s).value, r.sequence);
      }
    }
  }

  /** The selected reads whose winner is counted in the map tag g addresses;
      for PREF or POST that is every PREF and every POST winner. */
  function NumInTable(rs: seq<Read>, s: Setup, g: Tag): (n: nat)
    ensures n <= NumClassified(rs, s)
  {
    if rs == [] then 0
    else
      var r := rs[|rs| - 1];
      var c := ClassifyRead(r, s);
      NumInTable(rs[..|rs| - 1], s, g) + (if Selected(r, s) && c.Some? && SameTable(c.value.tag, g) then 1 else 0)
  }

  /** The sum over one map grows by exactly the number of reads whose winner
      that map counts: FDP counts the FULL reads, PDP the PREF and POST reads
      together. */
  lemma {:induction false} ScanPerTable(t: Tally, rs: seq<Read>, s: Setup, g: Tag)
    ensures SumValues(Table(Scan(t, rs, s), g)) == SumValues(Table(t, g)) + NumInTable(rs, s, g)
  {
    if rs != [] {
      var r := rs[|rs| - 1];
      var before := Scan(t, rs[..|rs| - 1], s);
      ScanPerTable(t, rs[..|rs| - 1], s, g);
      var c := ClassifyRead(r, s);
      if Selected(r, s) && c.Some? && SameTable(c.value.tag, g) {
        SumValuesInc(Table(before, c.value.tag), c.value.units);
      }
    }
  }

  /** Scanning keeps the table valid: no HANG read is ever in the details. */
  lemma {:induction false} ScanValid(t: Tally, rs: seq<Read>, s: Setup)
    requires TallyValid(t)
    ensures TallyValid(Scan(t, rs, s))
  {
    if rs != [] {
      var r := rs[|rs| - 1];
      ScanValid(t, rs[..|rs| - 1], s);
      RecordValid(Scan(t, rs[..|rs| - 1], s), ClassifyRead(r, s), r.sequence);
    }
  }

  /** The interval `[max(0, start - pad), end + pad]` around the repeat:
      the fetch window with `pad`, the acceptance band with READLEN. */
  function WindowStart(startRepeat: int, pad: int): int { Max(0, startRepeat - pad) }
  function WindowEnd(endRepeat: int, pad: int): int { endRepeat + pad }

  /** Finds repeat-spanning reads for one locus and keeps their counts. */
  class BamParser {
    const gender: string
    const readLen: nat
    const tred: Locus
    const chr: string
    const ploidy: int
    const repeat: string
    const startRepeat: int
    const endRepeat: int
    const referenceLen: int
    const fullPrefix: string
    const fullSuffix: string
    const period: nat
    const maxUnits: nat

    var full: CountMap
    var prefPost: CountMap
    var rept: CountMap
    var hang: CountMap
    var details: seq<Detail>

    function State(): Tally
      reads this
    {
      Tally(full, prefPost, rept, hang, details)
    }

    ghost predicate Valid()
      reads this
    {
      period == |repeat| && period > 0 && maxUnits == MaxUnits(readLen, period) && TallyValid(State())
    }

    /** Males carry one copy of an X-linked locus; otherwise the locus ploidy
        stands. The count table starts empty. */
    constructor (locus: Locus, gender: string, readLen: nat)
      requires |locus.repeat| > 0
      ensures Valid()
      ensures ploidy == (if gender == "Male" && locus.isXlinked then 1 else locus.ploidy)
      ensures tred == locus && this.gender == gender && this.readLen == readLen
      ensures chr == locus.chr && repeat == locus.repeat
      ensures startRepeat == locus.repeatStart && endRepeat == locus.repeatEnd
      ensures referenceLen == locus.repeatEnd - locus.repeatStart + 1
      ensures fullPrefix == locus.prefix && fullSuffix == locus.suffix
      ensures period == |locus.repeat| && maxUnits == MaxUnits(readLen, |locus.repeat|)
      ensures State() == Tally(map[], map[], map[], map[], [])
    {
      this.gender := gender;
      this.readLen := readLen;
      tred := locus;
      chr := locus.chr;
      if gender == "Male" && locus.isXlinked {
        ploidy := 1;
      } else {
        ploidy := locus.ploidy;
      }
      repeat := locus.repeat;
      startRepeat, endRepeat := locus.repeatStart, locus.repeatEnd;
      referenceLen := locus.repeatEnd - locus.repeatStart + 1;
      fullPrefix, fullSuffix := locus.prefix, locus.suffix;
      period := |locus.repeat|;
      maxUnits := MaxUnits(readLen, |locus.repeat|);
      full, prefPost, rept, hang := map[], map[], map[], map[];
      details := [];
    }

    /** `_buildDB`: the bank, unit counts ascending, each forward reference
        followed by its reverse complement. */
    method BuildDB() returns (db: seq<BankEntry>)
      ensures db == Bank(fullPrefix, repeat, fullSuffix, maxUnits)
    {
      db := [];
      var units := 1;
      while units <= maxUnits
        invariant 1 <= units <= maxUnits + 1
        invariant db == Bank(fullPrefix, repeat, fullSuffix, units - 1)
      {
        var target := Target(fullPrefix, repeat, fullSuffix, units);
        var strands := [target, Dna.Rc(target)];
        ghost var before := db;
        for j := 0 to 2
          invariant db == before + [BankEntry(units, strands[0]), BankEntry(units, strands[1])][..j]
        {
          db := db + [BankEntry(units, strands[j])];
        }
        units := units + 1;
      }
    }

    /** The loop of `_parseReadSW`: align the read against every bank entry
        in order and collect the `(score, units, tag)` of each one that earns
        a tag. */
    method CollectCandidates(read: string, db: seq<BankEntry>, align: Aligner) returns (res: seq<Candidate>)
      ensures res == Candidates(read, db, align, maxUnits, period)
    {
      res := [];
      var i := 0;
      while i < |db|
        invariant 0 <= i <= |db|
        invariant res == Candidates(read, db[..i], align, maxUnits, period)
      {
        var e := db[i];
        assert db[..i + 1][..i] == db[..i];
        var minLen := MinLen(|read|, |e.target|);
        var minScore := Max(minLen, SCORE_FLOOR);
        var al := align(read, e.target, minScore, minLen);
        i := i + 1;
        if al.None? {
          continue;
        }
        var tag := TagOf(al.value, e.units, |e.target|, |read|, maxUnits, period);
        if tag.None? {
          continue;
        }
        res := res + [Candidate(al.value.score, e.units, tag.value)];
      }
      assert db[..|db|] == db;
    }

    /** `_parseReadSW`: classify the read against the bank and record the
        winner in the count table and the details list. */
    method ParseReadSW(read: string, db: seq<BankEntry>, align: Aligner)
      requires Valid()
      modifies this
      ensures Valid()
      ensures State() == Record(old(State()), Classify(read, db, align, maxUnits, period), read)
    {
      var res := CollectCandidates(read, db, align);
      if res == [] {
        return;
      }
      var w := res[BestIndex(res)];
      ghost var t := State();
      RecordValid(t, Some(w), read);
      match w.tag {
        case Full => full := Inc(full, w.units);
        case Pref => prefPost := Inc(prefPost, w.units);
        case Post => prefPost := Inc(prefPost, w.units);
        case Rept => rept := Inc(rept, w.units);
        case Hang => hang := Inc(hang, w.units);
      }
      if w.tag == Hang {
        return;
      }
      details := details + [Detail(w.tag, w.units, read)];
    }

    /** The acceptance band for mapped reads and the classification setup
        `parse` uses. */
    function ScanSetup(align: Aligner): Setup
      reads this
    {
      Setup(WindowStart(startRepeat, readLen), WindowEnd(endRepeat, readLen),
            Bank(fullPrefix, repeat, fullSuffix, maxUnits), align, maxUnits, period)
    }

    /** `parse`: fetch the reads around the repeat; when the fetch fails
        nothing is counted. Every unmapped read is counted in `n_unmapped`
        and still classified; a mapped read is classified only when it
        starts inside the acceptance band. The source's default `pad` is
        SPAN. */
    method Parse(pad: int, canFetch: FetchTest, fetch: Fetcher, align: Aligner) returns (nUnmapped: nat)
      requires Valid()
      modifies this
      ensures Valid()
      ensures var ws, we := WindowStart(startRepeat, pad), WindowEnd(endRepeat, pad);
              if canFetch(chr, ws, we) then
                State() == Scan(old(State()), fetch(chr, ws, we), ScanSetup(align))
                && nUnmapped == CountUnmapped(fetch(chr, ws, we))
              else
                State() == old(State()) && nUnmapped == 0
    {
      var windowStart := WindowStart(startRepeat, pad);
      var windowEnd := WindowEnd(endRepeat, pad);
      var readStart := WindowStart(startRepeat, readLen);
      var readEnd := WindowEnd(endRepeat, readLen);
      var db := BuildDB();
      ghost var s := ScanSetup(align);
      ghost var t0 := State();
      nUnmapped := 0;
      if canFetch(chr, windowStart, windowEnd) {
        var rs := fetch(chr, windowStart, windowEnd);
        var i := 0;
        while i < |rs|
          invariant 0 <= i <= |rs|
          invariant Valid()
          invariant State() == Scan(t0, rs[..i], s)
          invariant nUnmapped == CountUnmapped(rs[..i])
        {
          var read := rs[i];
          assert rs[..i + 1][..i] == rs[..i];
          i := i + 1;
          if read.isUnmapped {
            nUnmapped := nUnmapped + 1;
          } else {
            if read.refStart < readStart {
              continue;
            }
            if read.refStart > readEnd {
              continue;
            }
          }
          ParseReadSW(read.sequence, db, align);
        }
        assert rs[..|rs|] == rs;
      }
    }
  }

  /** The summaries `BamParserResults` takes from the counts: FDP and PDP
      are the totals of the FULL and PREF maps, RDP the largest REPT count,
      or 0 when there is none. The details list is the one the parser kept
      beside its counts. */
  class BamParserResults {
    const counts: Tally
    const details: seq<Detail>
    const fdp: nat
    const pdp: nat
    const rdp: nat

    constructor (counts: Tally)
      ensures this.counts == counts && details == counts.details
      ensures fdp == SumValues(Table(counts, Full))
      ensures pdp == SumValues(Table(counts, Pref))
      ensures counts.rept == map[] ==> rdp == 0
      ensures counts.rept != map[] ==> rdp in counts.rept.Values
      ensures forall k :: k in counts.rept ==> counts.rept[k] <= rdp
    {
      var f := SumCounts(Table(counts, Full));
      var p := SumCounts(Table(counts, Pref));
      var r := MaxCount(Table(counts, Rept));
      this.counts := counts;
      details := counts.details;
      fdp, pdp, rdp := f, p, r;
    }
  }
}
