/** The count maps of the source: a `defaultdict(int)` from a unit count to
    the number of reads, incremented in place, and the `sum` and `max` taken
    over its values. */
module Counts {

  type CountMap = map<int, nat>

  /** `m[k] += 1` on a defaultdict: a missing key reads as 0 and is created;
      every other key keeps its value. */
  function Inc(m: CountMap, k: int): (r: CountMap)
    ensures k in r && r[k] == (if k in m then m[k] else 0) + 1
    ensures r.Keys == m.Keys + {k}
    ensures forall j :: j in m && j != k ==> r[j] == m[j]
  {
    m[k := (if k in m then m[k] else 0) + 1]
  }

  /** A non-empty set has a member to pick. */
  lemma NonEmptySetHasMember<T>(s: set<T>) returns (x: T)
    requires s != {}
    ensures x in s
  {
    x :| x in s;
  }

  /** The sum of all values, `sum(m.values())`. */
  ghost function SumValues(m: CountMap): nat
    decreases |m|
  {
    if m == map[] then 0
    else
      assert exists k: int :: k in m by {
        var x := NonEmptySetHasMember(m.Keys);
      }
      var k: int :| k in m;
      m[k] + SumValues(m - {k})
  }

  /** The sum does not depend on which key is taken out first. */
  lemma {:induction false} SumValuesRemove(m: CountMap, k: int)
    requires k in m
    ensures SumValues(m) == m[k] + SumValues(m - {k})
    decreases |m|
  {
    var j :| j in m && SumValues(m) == m[j] + SumValues(m - {j});
    if j != k {
      assert |m - {j}| < |m|;
      SumValuesRemove(m - {j}, k);
      SumValuesRemove(m - {k}, j);
      assert m - {j} - {k} == m - {k} - {j};
    }
  }

  /** One increment raises the total by exactly one. */
  lemma SumValuesInc(m: CountMap, k: int)
    ensures SumValues(Inc(m, k)) == SumValues(m) + 1
  {
    var r := Inc(m, k);
    SumValuesRemove(r, k);
    if k in m {
      SumValuesRemove(m, k);
      assert r - {k} == m - {k};
    } else {
      assert r - {k} == m;
    }
  }

  /** `sum(m.values())`, iterating over the keys in an unspecified order. */
  method SumCounts(m: CountMap) returns (total: nat)
    ensures total == SumValues(m)
  {
    total := 0;
    var rest := m;
    while rest != map[]
      invariant total + SumValues(rest) == SumValues(m)
      decreases |rest|
    {
      ghost var x := NonEmptySetHasMember(rest.Keys);
      var k: int :| k in rest;
      SumValuesRemove(rest, k);
      total := total + rest[k];
      rest := rest - {k};
    }
  }

  /** `max(m.values()) if m else 0`. */
  method MaxCount(m: CountMap) returns (best: nat)
    ensures m == map[] ==> best == 0
    ensures m != map[] ==> best in m.Values
    ensures forall k :: k in m ==> m[k] <= best
  {
    best := 0;
    ghost var at: int := 0;
    var rest := m.Keys;
    while rest != {}
      invariant rest <= m.Keys
      invariant rest == m.Keys ==> best == 0
      invariant rest != m.Keys ==> at in m && m[at] == best
      invariant forall k :: k in m && k !in rest ==> m[k] <= best
      decreases |rest|
    {
      ghost var x := NonEmptySetHasMember(rest);
      var k: int :| k in rest;
      if rest == m.Keys || m[k] > best {
        best := m[k];
        at := k;
      }
      rest := rest - {k};
    }
    assert m != map[] ==> m[at] == best;
  }
}
