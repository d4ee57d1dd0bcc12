/** Finite sets in ascending order, and sums over finite maps. */
module Collections {

  type Id = nat

  predicate IsLeast(ids: set<Id>, least: Id) {
    least in ids && forall id :: id in ids ==> least <= id
  }

  function Least(ids: set<Id>): (least: Id)
    requires ids != {}
    ensures least in ids && forall id :: id in ids ==> least <= id
  {
    LeastExists(ids);
    LeastIsUnique(ids);
    var least :| IsLeast(ids, least);
    least
  }

  lemma LeastIsUnique(ids: set<Id>)
    ensures forall a, b :: IsLeast(ids, a) && IsLeast(ids, b) ==> a == b
  {
  }

  lemma {:induction false} LeastExists(ids: set<Id>)
    requires ids != {}
    ensures exists least :: IsLeast(ids, least)
  {
    var some :| some in ids;
    if !IsLeast(ids, some) {
      var below :| below in ids && below < some;
      var rest := ids - {some};
      assert below in rest;
      LeastExists(rest);
      var least :| IsLeast(rest, least);
      forall id | id in ids
        ensures least <= id
      {
        assert id == some || id in rest;
      }
      assert IsLeast(ids, least);
    }
  }

  /** `ORDER BY id`. */
  function Ascending(ids: set<Id>): (r: seq<Id>)
    ensures forall id :: id in r <==> id in ids
    ensures forall i, j :: 0 <= i < j < |r| ==> r[i] < r[j]
  {
    if ids == {} then []
    else
      var least := Least(ids);
      [least] + Ascending(ids - {least})
  }

  ghost function Sum(m: map<Id, int>): int {
    if m == map[] then 0
    else
      var k :| k in m;
      m[k] + Sum(m - {k})
  }

  /** The sum does not depend on the order of taking entries out. */
  lemma {:induction false} SumTakes(m: map<Id, int>, k: Id)
    requires k in m
    ensures Sum(m) == m[k] + Sum(m - {k})
    decreases |m|
  {
    var first :| first in m && Sum(m) == m[first] + Sum(m - {first});
    if first != k {
      SumTakes(m - {first}, k);
      SumTakes(m - {k}, first);
      assert m - {first} - {k} == m - {k} - {first};
    }
  }

  lemma SumAdds(m: map<Id, int>, k: Id, v: int)
    requires k !in m
    ensures Sum(m[k := v]) == Sum(m) + v
  {
    SumTakes(m[k := v], k);
    assert m[k := v] - {k} == m;
  }

  lemma SumReplaces(m: map<Id, int>, k: Id, v: int)
    requires k in m
    ensures Sum(m[k := v]) == Sum(m) - m[k] + v
  {
    SumTakes(m, k);
    SumTakes(m[k := v], k);
    assert m[k := v] - {k} == m - {k};
  }

  lemma {:induction false} SumOfZeroes(m: map<Id, int>)
    requires forall k :: k in m ==> m[k] == 0
    ensures Sum(m) == 0
    decreases |m|
  {
    if m != map[] {
      var k :| k in m;
      SumTakes(m, k);
      SumOfZeroes(m - {k});
    }
  }

  /** Sums add pointwise. */
  lemma {:induction false} SumPlus(a: map<Id, int>, b: map<Id, int>)
    requires a.Keys == b.Keys
    ensures Sum(map k | k in a :: a[k] + b[k]) == Sum(a) + Sum(b)
    decreases |a|
  {
    var both := map k | k in a :: a[k] + b[k];
    if a == map[] {
      assert b == map[] && both == map[];
    } else {
      var k :| k in a;
      SumTakes(a, k);
      SumTakes(b, k);
      SumTakes(both, k);
      SumPlus(a - {k}, b - {k});
      assert both - {k} == map j | j in a - {k} :: (a - {k})[j] + (b - {k})[j];
    }
  }

  lemma {:induction false} SumOfNonNegative(m: map<Id, int>)
    requires forall k :: k in m ==> m[k] >= 0
    ensures Sum(m) >= 0
    ensures Sum(m) == 0 <==> forall k :: k in m ==> m[k] == 0
    decreases |m|
  {
    if m != map[] {
      var k :| k in m;
      SumTakes(m, k);
      SumOfNonNegative(m - {k});
      assert forall j :: j in m ==> j == k || j in m - {k};
    }
  }

  /** Entries whose value is zero can be left out of a sum. */
  lemma {:induction false} SumOfSupport(m: map<Id, int>, support: set<Id>)
    requires support <= m.Keys
    requires forall k :: k in m && k !in support ==> m[k] == 0
    ensures Sum(Restricted(m, support)) == Sum(m)
    decreases |m|
  {
    if m.Keys == support {
      assert Restricted(m, support) == m;
    } else {
      var k :| k in m && k !in support;
      SumTakes(m, k);
      SumOfSupport(m - {k}, support);
      assert Restricted(m - {k}, support) == Restricted(m, support);
    }
  }

  ghost function Restricted(m: map<Id, int>, keys: set<Id>): map<Id, int> {
    map k | k in m && k in keys :: m[k]
  }

  function SeqSum(values: seq<int>): int {
    if values == [] then 0 else values[0] + SeqSum(values[1..])
  }

  lemma {:induction false} SeqSumAppend(a: seq<int>, b: seq<int>)
    ensures SeqSum(a + b) == SeqSum(a) + SeqSum(b)
  {
    if a == [] {
      assert a + b == b;
    } else {
      SeqSumAppend(a[1..], b);
      assert (a + b)[1..] == a[1..] + b;
    }
  }

  /** Listing every key once, in any order, sums the map. */
  lemma {:induction false} SumOverListing(m: map<Id, int>, ids: seq<Id>)
    requires forall id :: id in ids <==> id in m
    requires forall i, j :: 0 <= i < j < |ids| ==> ids[i] != ids[j]
    ensures SeqSum(seq(|ids|, i requires 0 <= i < |ids| => m[ids[i]])) == Sum(m)
    decreases |ids|
  {
    var values := seq(|ids|, i requires 0 <= i < |ids| => m[ids[i]]);
    if ids == [] {
      assert m == map[];
    } else {
      var rest := ids[1..];
      assert ids[0] in ids;
      SumTakes(m, ids[0]);
      var smaller := m - {ids[0]};
      forall id
        ensures id in rest <==> id in smaller
      {
        if id in rest {
          var i :| 0 <= i < |rest| && rest[i] == id;
          assert ids[i + 1] == id;
        }
      }
      SumOverListing(smaller, rest);
      assert values[1..] == seq(|rest|, i requires 0 <= i < |rest| => smaller[rest[i]]);
    }
  }
}
