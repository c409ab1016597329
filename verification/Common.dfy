/** Small shared vocabulary: optional values and finite-set facts used by several components. */
module Common {
  datatype Option<+T> = None | Some(value: T)

  function Max(a: int, b: int): (m: int)
    ensures m >= a && m >= b && (m == a || m == b)
  {
    if a < b then b else a
  }

  /** The least element of a nonempty set of naturals. */
  function Least(s: set<nat>): (m: nat)
    requires s != {}
    ensures m in s && forall k :: k in s ==> m <= k
    decreases |s|
  {
    LeastExists(s);
    var m :| m in s && forall k :: k in s ==> m <= k;
    m
  }

  lemma LeastExists(s: set<nat>)
    requires s != {}
    ensures exists m :: m in s && forall k :: k in s ==> m <= k
    decreases s
  {
    var x :| x in s;
    var below := set y | y in s && y < x;
    if below == {} {
      assert forall k :: k in s ==> x <= k by {
        forall k | k in s ensures x <= k { assert k !in below; }
      }
    } else {
      assert x !in below;
      LeastExists(below);
      var m :| m in below && forall k :: k in below ==> m <= k;
      forall k | k in s ensures m <= k { if k < x { assert k in below; } }
    }
  }

  lemma SubsetSize<T>(a: set<T>, b: set<T>)
    requires a <= b
    ensures |a| <= |b|
    decreases |a|
  {
    if a != {} {
      var x :| x in a;
      SubsetSize(a - {x}, b - {x});
    }
  }

  lemma SplitSize<T>(a: set<T>, u: set<T>)
    ensures |a| == |a * u| + |a - u|
  {
    assert a == (a * u) + (a - u);
  }

  // ----- Totals of finite maps

  function Total(m: map<nat, nat>): (s: nat)
    decreases |m|
  {
    if m == map[] then 0
    else
      var k := Least(m.Keys);
      m[k] + Total(m - {k})
  }

  lemma {:induction false} TotalRemove(m: map<nat, nat>, k: nat)
    requires k in m
    ensures Total(m) == m[k] + Total(m - {k})
    decreases |m|
  {
    var l := Least(m.Keys);
    if l != k {
      var rest := m - {l};
      TotalRemove(rest, k);
      assert rest - {k} == (m - {k}) - {l};
      TotalRemove(m - {k}, l);
    }
  }

  lemma {:induction false} TotalSplit(m: map<nat, nat>, ks: set<nat>)
    ensures Total(m) == Total(m - ks) + Total(m - (m.Keys - ks))
    decreases |m|
  {
    if m == map[] {
      assert m - ks == map[] && m - (m.Keys - ks) == map[];
    } else {
      var k := Least(m.Keys);
      var rest := m - {k};
      TotalSplit(rest, ks);
      if k in ks {
        assert m - ks == rest - ks;
        TotalRemove(m - (m.Keys - ks), k);
        assert (m - (m.Keys - ks)) - {k} == rest - (rest.Keys - ks);
      } else {
        TotalRemove(m - ks, k);
        assert (m - ks) - {k} == rest - ks;
        assert m - (m.Keys - ks) == rest - (rest.Keys - ks);
      }
    }
  }

  lemma OneMoreTimes(n: int, v: int)
    ensures n * v == (n - 1) * v + v
  {
  }

  lemma {:induction false} TotalConstant(m: map<nat, nat>, v: nat)
    requires forall k :: k in m ==> m[k] == v
    ensures Total(m) == |m| * v
    decreases |m|
  {
    if m == map[] {
    } else {
      var k := Least(m.Keys);
      TotalConstant(m - {k}, v);
      assert (m - {k}).Keys == m.Keys - {k};
      assert |m| == |m.Keys| && |m - {k}| == |m.Keys| - 1;
      OneMoreTimes(|m|, v);
    }
  }
}
