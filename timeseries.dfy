/** Time-keyed dictionaries: the ledger keeps every balance, supply and mint record as a
    map from timestamp to value, and "the current value" is the one at the largest key. */
module TimeSeries {

  lemma NonEmptyHasMember(s: set<int>)
    requires s != {}
    ensures exists y :: y in s
  {
    if forall y :: y !in s { assert false; }
  }

  lemma {:induction false} MaxExists(s: set<int>)
    requires s != {}
    ensures exists m :: m in s && forall x :: x in s ==> x <= m
  {
    NonEmptyHasMember(s);
    var y :| y in s;
    if s != {y} {
      MaxExists(s - {y});
      var m :| m in s - {y} && forall x :: x in s - {y} ==> x <= m;
      var top := if m < y then y else m;
      forall x | x in s ensures x <= top {
        if x != y { assert x in s - {y}; }
      }
    } else {
      forall x | x in s ensures x <= y { assert x in {y}; }
    }
  }

  /** Python's max() over a non-empty collection of timestamps. */
  function MaxOf(s: set<int>): (m: int)
    requires s != {}
    ensures m in s
    ensures forall x :: x in s ==> x <= m
  {
    MaxExists(s);
    var m :| m in s && (forall x :: x in s ==> x <= m); m
  }

  /** The value recorded at the most recent timestamp. */
  function Latest<V>(series: map<int, V>): (v: V)
    requires series.Keys != {}
    ensures exists t :: t in series && v == series[t] && forall u :: u in series ==> u <= t
  {
    series[MaxOf(series.Keys)]
  }

  /** Writing at a timestamp no earlier than every recorded one makes the written value
      current; writing strictly earlier than the latest key leaves the current value alone. */
  lemma LatestAfterWrite<V>(series: map<int, V>, t: int, v: V)
    ensures series.Keys == {} ==> t in series[t := v] && Latest(series[t := v]) == v
    ensures series.Keys != {} && t >= MaxOf(series.Keys) ==> Latest(series[t := v]) == v
    ensures series.Keys != {} && t < MaxOf(series.Keys) ==> Latest(series[t := v]) == Latest(series)
    ensures series.Keys == {} || t >= MaxOf(series.Keys) ==> MaxOf(series[t := v].Keys) == t
  {
    var s' := series[t := v];
    if series.Keys == {} {
      assert s'.Keys == {t};
      assert MaxOf(s'.Keys) == t;
    } else {
      var m := MaxOf(series.Keys);
      if t >= m {
        assert forall x :: x in s'.Keys ==> x <= t;
        assert MaxOf(s'.Keys) == t;
      } else {
        forall x | x in s'.Keys ensures x <= m {
          if x != t { assert x in series.Keys; }
        }
        assert m in s'.Keys;
        assert MaxOf(s'.Keys) == m;
      }
    }
  }

  /** The sum of the values of a map (Python's sum over dict values; addition is
      commutative, so the order in which keys are visited does not matter). */
  ghost function SumValues<K>(m: map<K, int>): int
    decreases |m.Keys|
  {
    if m.Keys == {} then 0
    else
      var k :| k in m;
      m[k] + SumValues(m - {k})
  }

  /** Any key may be taken out first. */
  lemma {:induction false} SumValuesRemove<K>(m: map<K, int>, k: K)
    requires k in m
    ensures SumValues(m) == m[k] + SumValues(m - {k})
    decreases |m.Keys|
  {
    var j :| j in m && SumValues(m) == m[j] + SumValues(m - {j});
    if j != k {
      assert (m - {j}).Keys == m.Keys - {j};
      SumValuesRemove(m - {j}, k);
      assert (m - {k}).Keys == m.Keys - {k};
      SumValuesRemove(m - {k}, j);
      assert m - {j} - {k} == m - {k} - {j};
    }
  }

  /** Replacing (or adding) one entry changes the sum by the difference. */
  lemma SumValuesUpdate<K>(m: map<K, int>, k: K, v: int)
    ensures SumValues(m[k := v]) == SumValues(m) - (if k in m then m[k] else 0) + v
  {
    var m' := m[k := v];
    SumValuesRemove(m', k);
    if k in m {
      SumValuesRemove(m, k);
      assert m' - {k} == m - {k};
    } else {
      assert m' - {k} == m;
    }
  }

  /** A sum of non-negative values is non-negative. */
  lemma {:induction false} SumValuesNonNegative<K>(m: map<K, int>)
    requires forall k :: k in m ==> m[k] >= 0
    ensures SumValues(m) >= 0
    decreases |m.Keys|
  {
    if m.Keys != {} {
      var k :| k in m && SumValues(m) == m[k] + SumValues(m - {k});
      assert (m - {k}).Keys == m.Keys - {k};
      SumValuesNonNegative(m - {k});
    }
  }
}
