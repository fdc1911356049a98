/** The paired-end span extractor of tredparse/bam_parser.py: class
    `PEextractor` and `get_target_length`. */
module PairedSpan {
  import opened Options
  import opened Records
  import Classifier
  import Scanner
  import Counts

  const SPAN: int := Scanner.SPAN
  const FLANKMATCH: int := Classifier.FLANKMATCH
  /** How far beyond the repeat the pairs are fetched. */
  const DNAPE_ELONGATE: int := SPAN * 10

  /** Paired, mapped and not marked duplicate: the reads kept in the cache. */
  predicate Eligible(x: Read)
  {
    x.isPaired && !x.isUnmapped && !x.isDuplicate
  }

  /** The eligible reads carrying one name, in fetch order. */
  function NamedReads(rs: seq<Read>, name: string): (r: seq<Read>)
    ensures |r| <= |rs|
    ensures forall i :: 0 <= i < |r| ==> Eligible(r[i]) && r[i].name == name
  {
    if rs == [] then []
    else
      var x := rs[|rs| - 1];
      NamedReads(rs[..|rs| - 1], name) + (if Eligible(x) && x.name == name then [x] else [])
  }

  /** The cache: each name of an eligible read mapped to its reads, in fetch order. */
  function Group(rs: seq<Read>): (r: map<string, seq<Read>>)
    ensures forall n :: n in r ==> r[n] != []
  {
    if rs == [] then map[]
    else
      var g := Group(rs[..|rs| - 1]);
      var x := rs[|rs| - 1];
      if !Eligible(x) then g
      else g[x.name := (if x.name in g then g[x.name] else []) + [x]]
  }

  /** A name is in the cache exactly when some eligible read carries it, and
      its list holds exactly those reads, in order. */
  lemma {:induction false} GroupByNameSpec(rs: seq<Read>, name: string)
    ensures name in Group(rs) <==> NamedReads(rs, name) != []
    ensures name in Group(rs) ==> Group(rs)[name] == NamedReads(rs, name)
  {
    if rs != [] {
      GroupByNameSpec(rs[..|rs| - 1], name);
    }
  }

  /** The first loop of `PEextractor.__init__`: filter the fetched reads and
      group them by name. */
  method GroupByName(rs: seq<Read>) returns (cache: map<string, seq<Read>>)
    ensures cache == Group(rs)
  {
    cache := map[];
    var i := 0;
    while i < |rs|
      invariant 0 <= i <= |rs|
      invariant cache == Group(rs[..i])
    {
      var x := rs[i];
      assert rs[..i + 1][..i] == rs[..i];
      i := i + 1;
      if !x.isPaired {
        continue;
      }
      if x.isUnmapped {
        continue;
      }
      if x.isDuplicate {
        continue;
      }
      cache := cache[x.name := (if x.name in cache then cache[x.name] else []) + [x]];
    }
    assert rs[..|rs|] == rs;
  }

  /** `get_target_length`: the outer span of the pair, widened by the soft
      clip at the left end of a and at the right end of b. Clips only ever
      widen it, and it equals the unclipped span exactly when neither outer
      end is clipped. */
  function TargetLength(a: Read, b: Read): (r: int)
    ensures r >= b.refEnd - a.refStart
    ensures r == b.refEnd - a.refStart <==> a.alnStart <= 0 && b.alnEnd >= b.queryLength
  {
    var start := if a.alnStart > 0 then a.refStart - a.alnStart else a.refStart;
    var end := if b.alnEnd < b.queryLength then b.refEnd + (b.queryLength - b.alnEnd) else b.refEnd;
    end - start
  }

  /** One used pair: its adjusted span and whether it spans the repeat. */
  datatype Pair = Pair(spanning: bool, tlen: int)

  /** The pair a name's reads give, if they are used: at least two reads,
      the first two in +/- orientation, and a span below SPAN. It spans the
      target when the left read starts left of start - 9 and the right read
      ends right of end + 9. */
  function PairOf(g: seq<Read>, start: int, end: int): (r: Option<Pair>)
    ensures r.Some? <==> |g| >= 2 && !g[0].isReverse && g[1].isReverse && TargetLength(g[0], g[1]) < SPAN
    ensures r.Some? ==> r.value.tlen == TargetLength(g[0], g[1]) && r.value.tlen < SPAN
    ensures r.Some? ==> (r.value.spanning <==> g[0].refStart < start - FLANKMATCH && g[1].refEnd > end + FLANKMATCH)
  {
    if |g| < 2 then None
    else
      var a, b := g[0], g[1];
      if !(!a.isReverse && b.isReverse) then None
      else
        var tlen := TargetLength(a, b);
        if tlen >= SPAN then None
        else Some(Pair(a.refStart < start - FLANKMATCH && b.refEnd > end + FLANKMATCH, tlen))
  }

  predicate InCache(order: seq<string>, cache: map<string, seq<Read>>)
  {
    forall i :: 0 <= i < |order| ==> order[i] in cache
  }

  /** What one name adds to the list of the given kind. */
  function Contribution(name: string, cache: map<string, seq<Read>>, start: int, end: int, spanning: bool): seq<int>
    requires name in cache
  {
    match PairOf(cache[name], start, end)
    case Some(p) => if p.spanning == spanning then [p.tlen] else []
    case None => []
  }

  /** The spans of one kind (target when spanning, background otherwise)
      after visiting the names in the given order. */
  function Spans(order: seq<string>, cache: map<string, seq<Read>>, start: int, end: int, spanning: bool): seq<int>
    requires InCache(order, cache)
  {
    if order == [] then []
    else Spans(order[..|order| - 1], cache, start, end, spanning) + Contribution(order[|order| - 1], cache, start, end, spanning)
  }

  /** The spans of every used pair, of either kind. */
  function UsedSpans(order: seq<string>, cache: map<string, seq<Read>>, start: int, end: int): seq<int>
    requires InCache(order, cache)
  {
    if order == [] then []
    else
      var rest := UsedSpans(order[..|order| - 1], cache, start, end);
      match PairOf(cache[order[|order| - 1]], start, end)
      case Some(p) => rest + [p.tlen]
      case None => rest
  }

  /** Every used pair lands in exactly one of the two lists. */
  lemma {:induction false} SpansPartition(order: seq<string>, cache: map<string, seq<Read>>, start: int, end: int)
    requires InCache(order, cache)
    ensures multiset(Spans(order, cache, start, end, true)) + multiset(Spans(order, cache, start, end, false))
            == multiset(UsedSpans(order, cache, start, end))
  {
    if order != [] {
      SpansPartition(order[..|order| - 1], cache, start, end);
    }
  }

  /** No listed span reaches SPAN. */
  lemma {:induction false} SpansBelowSpan(order: seq<string>, cache: map<string, seq<Read>>, start: int, end: int, spanning: bool)
    requires InCache(order, cache)
    ensures forall i :: 0 <= i < |Spans(order, cache, start, end, spanning)| ==> Spans(order, cache, start, end, spanning)[i] < SPAN
  {
    if order != [] {
      SpansBelowSpan(order[..|order| - 1], cache, start, end, spanning);
    }
  }

  lemma {:induction false} SpansAppend(a: seq<string>, b: seq<string>, cache: map<string, seq<Read>>, start: int, end: int, spanning: bool)
    requires InCache(a, cache) && InCache(b, cache)
    ensures InCache(a + b, cache)
    ensures Spans(a + b, cache, start, end, spanning) == Spans(a, cache, start, end, spanning) + Spans(b, cache, start, end, spanning)
  {
    assert InCache(a + b, cache) by {
      forall i | 0 <= i < |a + b| ensures (a + b)[i] in cache {
        if i >= |a| { assert (a + b)[i] == b[i - |a|]; }
      }
    }
    if b != [] {
      var b' := b[..|b| - 1];
      assert (a + b)[..|a + b| - 1] == a + b';
      SpansAppend(a, b', cache, start, end, spanning);
    } else {
      assert a + b == a;
    }
  }

  predicate Distinct(s: seq<string>)
  {
    forall i, j :: 0 <= i < j < |s| ==> s[i] != s[j]
  }

  /** Stated as a lemma so that a branch whose facts already clash can reach
      `assert false` without a checked step of its own. */
  lemma FirstIsMember(o: seq<string>)
    requires o != []
    ensures o[0] in o
  {
  }

  /** The sequence with position j taken out. */
  function Without(o: seq<string>, j: int): (r: seq<string>)
    requires 0 <= j < |o|
    ensures |r| == |o| - 1
    ensures forall i :: 0 <= i < j ==> r[i] == o[i]
    ensures forall i :: j <= i < |r| ==> r[i] == o[i + 1]
  {
    o[..j] + o[j + 1..]
  }

  lemma WithoutMembers(o: seq<string>, j: int)
    requires 0 <= j < |o| && Distinct(o)
    ensures Distinct(Without(o, j))
    ensures forall n :: n in Without(o, j) <==> n in o && n != o[j]
  {
    var r := Without(o, j);
    forall n ensures n in r <==> n in o && n != o[j] {
      if n in r {
        var q :| 0 <= q < |r| && r[q] == n;
        if q < j { assert o[q] == n; } else { assert o[q + 1] == n; }
      }
      if n in o && n != o[j] {
        var q :| 0 <= q < |o| && o[q] == n;
        if q < j { assert r[q] == n; } else { assert r[q - 1] == n; }
      }
    }
  }

  /** Taking one name out of the order removes exactly its contribution. */
  lemma SpansWithout(o: seq<string>, j: int, cache: map<string, seq<Read>>, start: int, end: int, spanning: bool)
    requires 0 <= j < |o| && InCache(o, cache)
    ensures InCache(Without(o, j), cache)
    ensures multiset(Spans(o, cache, start, end, spanning))
            == multiset(Spans(Without(o, j), cache, start, end, spanning)) + multiset(Contribution(o[j], cache, start, end, spanning))
  {
    var l, r := o[..j], o[j + 1..];
    assert o == l + [o[j]] + r;
    assert InCache(l, cache) && InCache(r, cache) && InCache([o[j]], cache);
    SpansAppend(l, [o[j]], cache, start, end, spanning);
    SpansAppend(l + [o[j]], r, cache, start, end, spanning);
    SpansAppend(l, r, cache, start, end, spanning);
    assert [o[j]][..0] == [];
  }

  /** The order in which the cache's names are visited does not change the
      multiset of spans in either list. */
  lemma {:induction false} SpansOrderIndependent(o1: seq<string>, o2: seq<string>, cache: map<string, seq<Read>>, start: int, end: int, spanning: bool)
    requires InCache(o1, cache) && InCache(o2, cache)
    requires Distinct(o1) && Distinct(o2)
    requires forall n :: n in o1 <==> n in o2
    ensures multiset(Spans(o1, cache, start, end, spanning)) == multiset(Spans(o2, cache, start, end, spanning))
    decreases |o1|
  {
    if o1 == [] {
      if o2 != [] {
        FirstIsMember(o2);
        assert false;
      }
    } else {
      var i := |o1| - 1;
      var x := o1[i];
      assert x in o1;
      var j :| 0 <= j < |o2| && o2[j] == x;
      WithoutMembers(o1, i);
      WithoutMembers(o2, j);
      SpansWithout(o1, i, cache, start, end, spanning);
      SpansWithout(o2, j, cache, start, end, spanning);
      SpansOrderIndependent(Without(o1, i), Without(o2, j), cache, start, end, spanning);
    }
  }

  /** Visiting a fresh name keeps the visit order free of repeats; stated
      apart so that the constructor's loop stays cheap to verify. */
  lemma AppendFresh(order: seq<string>, name: string)
    requires Distinct(order) && name !in order
    ensures Distinct(order + [name])
    ensures forall n :: n in order + [name] <==> n in order || n == name
  {
  }

  /** Visiting one more name adds its contribution to the end of each list. */
  lemma SpansStep(order: seq<string>, name: string, cache: map<string, seq<Read>>, start: int, end: int)
    requires InCache(order, cache) && name in cache
    ensures InCache(order + [name], cache)
    ensures Spans(order + [name], cache, start, end, true) == Spans(order, cache, start, end, true) + Contribution(name, cache, start, end, true)
    ensures Spans(order + [name], cache, start, end, false) == Spans(order, cache, start, end, false) + Contribution(name, cache, start, end, false)
  {
    assert (order + [name])[..|order|] == order;
  }

  /** What one name adds, in terms of the tests the extractor's loop makes. */
  lemma ContributionCases(name: string, cache: map<string, seq<Read>>, start: int, end: int)
    requires name in cache
    ensures var g := cache[name];
            var used := |g| >= 2 && !g[0].isReverse && g[1].isReverse && TargetLength(g[0], g[1]) < SPAN;
            var spanning := used && g[0].refStart < start - FLANKMATCH && g[1].refEnd > end + FLANKMATCH;
            && Contribution(name, cache, start, end, true) == (if spanning then [TargetLength(g[0], g[1])] else [])
            && Contribution(name, cache, start, end, false) == (if used && !spanning then [TargetLength(g[0], g[1])] else [])
  {
  }

  /** The second loop of `PEextractor.__init__`: visit the cache's names in
      some order and put each used pair's span in the target list when it
      spans the repeat, in the background list otherwise. */
  method CollectSpans(groups: map<string, seq<Read>>, start: int, end: int)
      returns (targets: seq<int>, background: seq<int>, ghost visited: seq<string>)
    ensures Distinct(visited) && InCache(visited, groups) && forall n :: n in groups ==> n in visited
    ensures targets == Spans(visited, groups, start, end, true)
    ensures background == Spans(visited, groups, start, end, false)
  {
    var tstart := start - FLANKMATCH;
    var tend := end + FLANKMATCH;
    targets, background, visited := [], [], [];
    var names := groups.Keys;
    while names != {}
      invariant names <= groups.Keys
      invariant Distinct(visited) && InCache(visited, groups)
      invariant forall n :: n in groups ==> (n in visited <==> n !in names)
      invariant targets == Spans(visited, groups, start, end, true)
      invariant background == Spans(visited, groups, start, end, false)
      decreases |names|
    {
      ghost var x := Counts.NonEmptySetHasMember(names);
      var name :| name in names;
      var rs := groups[name];
      names := names - {name};
      SpansStep(visited, name, groups, start, end);
      ContributionCases(name, groups, start, end);
      AppendFresh(visited, name);
      visited := visited + [name];
      if |rs| < 2 {
        continue;
      }
      var a, b := rs[0], rs[1];
      if !(!a.isReverse && b.isReverse) {
        continue;
      }
      var tlen := TargetLength(a, b);
      if tlen >= SPAN {
        continue;
      }
      if a.refStart < tstart && b.refEnd > tend {
        targets := targets + [tlen];
      } else {
        background := background + [tlen];
      }
    }
  }

  /** Infers the spans of read pairs around one repeat locus. */
  class PEextractor {
    const ref: int
    const minPE: int
    var targetLens: seq<int>
    var globalLens: seq<int>
    /** The name-grouped cache and the order its names were visited in. */
    ghost var cache: map<string, seq<Read>>
    ghost var order: seq<string>

    /** Fetches pairs within DNAPE_ELONGATE of the repeat, keeps each used
        pair in exactly one list, and sets MINPE to end - start + 20. */
    constructor (bp: Scanner.BamParser, canFetch: FetchTest, fetch: Fetcher)
      ensures ref == bp.referenceLen
      ensures minPE == bp.endRepeat - bp.startRepeat + 20
      ensures var ps, pe := Classifier.Max(bp.startRepeat - DNAPE_ELONGATE, 0), bp.endRepeat + DNAPE_ELONGATE;
              cache == if canFetch(bp.chr, ps, pe) then Group(fetch(bp.chr, ps, pe)) else map[]
      ensures Distinct(order) && InCache(order, cache) && forall n :: n in cache ==> n in order
      ensures targetLens == Spans(order, cache, bp.startRepeat, bp.endRepeat, true)
      ensures globalLens == Spans(order, cache, bp.startRepeat, bp.endRepeat, false)
    {
      var chr := bp.chr;
      var start := bp.startRepeat;
      var end := bp.endRepeat;
      ref := bp.referenceLen;
      var pstart := Classifier.Max(start - DNAPE_ELONGATE, 0);
      var pend := end + DNAPE_ELONGATE;
      var groups: map<string, seq<Read>> := map[];
      if canFetch(chr, pstart, pend) {
        groups := GroupByName(fetch(chr, pstart, pend));
      }
      minPE := end - start + 2 * FLANKMATCH + 2;
      var targets, background, visited := CollectSpans(groups, start, end);
      new;
      cache, order := groups, visited;
      targetLens, globalLens := targets, background;
    }
  }
}
