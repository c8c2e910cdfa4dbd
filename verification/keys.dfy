/** Deterministic traversal of integer-keyed tables: the least key, and sums
    of a measure over all rows of a table. */
module Keys {

  /** The least element of a non-empty set of ids. */
  function MinKey(s: set<int>): (m: int)
    requires s != {}
    ensures m in s
    ensures forall k :: k in s ==> m <= k
  {
    MinExists(s);
    var m :| m in s && forall k :: k in s ==> m <= k; m
  }

  lemma {:induction false} MinExists(s: set<int>)
    requires s != {}
    ensures exists m :: m in s && forall k :: k in s ==> m <= k
    decreases |s|
  {
    NonEmptyHasElement(s);
    var x :| x in s;
    if s != {x} {
      var rest := s - {x};
      assert |rest| < |s|;
      MinExists(rest);
      var m :| m in rest && forall k :: k in rest ==> m <= k;
      assert forall k :: k in s ==> k == x || k in rest;
      if x < m {
        assert forall k :: k in s ==> x <= k;
      } else {
        assert forall k :: k in s ==> m <= k;
      }
    } else {
      assert forall k :: k in s ==> x <= k;
    }
  }

  lemma NonEmptyHasElement(s: set<int>)
    requires s != {}
    ensures exists x :: x in s
  {
    if forall x :: x !in s {
      assert false;
    }
  }

  /** The sum of `f` over all rows of `m` (`rows.reduce((sum, r) => sum + f(r), 0)`). */
  function SumOver<V>(m: map<int, V>, f: V -> real): real
    decreases |m|
  {
    if |m| == 0 then 0.0
    else
      var k := MinKey(m.Keys);
      assert |m - {k}| < |m| by { RemoveCard(m, k); }
      f(m[k]) + SumOver(m - {k}, f)
  }

  lemma RemoveCard<V>(m: map<int, V>, k: int)
    requires k in m
    ensures |m - {k}| == |m| - 1
  {
    assert (m - {k}).Keys == m.Keys - {k};
    assert |m.Keys - {k}| == |m.Keys| - 1;
  }

  /** Any row can be taken out of the sum first: the sum does not depend on
      the order in which rows are visited. */
  lemma {:induction false} SumOverRemove<V>(m: map<int, V>, f: V -> real, k: int)
    requires k in m
    ensures SumOver(m, f) == f(m[k]) + SumOver(m - {k}, f)
    decreases |m|
  {
    var j := MinKey(m.Keys);
    RemoveCard(m, j);
    if j != k {
      RemoveCard(m, k);
      SumOverRemove(m - {j}, f, k);
      SumOverRemove(m - {k}, f, j);
      assert m - {j} - {k} == m - {k} - {j};
    }
  }

  /** Replacing one row changes the sum by exactly the change in that row. */
  lemma SumOverUpdate<V>(m: map<int, V>, f: V -> real, k: int, v: V)
    requires k in m
    ensures SumOver(m[k := v], f) == SumOver(m, f) - f(m[k]) + f(v)
  {
    SumOverRemove(m, f, k);
    SumOverRemove(m[k := v], f, k);
    assert m[k := v] - {k} == m - {k};
  }
}
