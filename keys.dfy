/** The key sets of the relational tables, visited in ascending key order,
    and sums over them: the model of the SQL aggregate `sum(...)`, which is
    `0` (after `coalesce`) when no row matches. */
module Keys {

  /** Strictly ascending, hence free of duplicates. */
  predicate Increasing(ks: seq<nat>)
  {
    forall i, j :: 0 <= i < j < |ks| ==> ks[i] < ks[j]
  }

  /** `m` is the least element of `s`. */
  predicate IsMin(m: nat, s: set<nat>)
  {
    m in s && forall k :: k in s ==> m <= k
  }

  lemma {:induction false} MinExists(s: set<nat>)
    requires s != {}
    ensures exists m :: IsMin(m, s)
  {
    var x :| x in s;
    if s == {x} {
      assert IsMin(x, s);
    } else {
      var rest := s - {x};
      MinExists(rest);
      var m :| IsMin(m, rest);
      var least := if x < m then x else m;
      forall k | k in s ensures least <= k {
        if k != x {
          assert k in rest;
        }
      }
      assert IsMin(least, s);
    }
  }

  /** The least key of a non-empty key set. */
  function MinKey(s: set<nat>): (m: nat)
    requires s != {}
    ensures m in s && forall k :: k in s ==> m <= k
  {
    MinExists(s);
    var m :| IsMin(m, s);
    m
  }

  /** The keys of a table in ascending order, each exactly once. */
  function SortedKeys(s: set<nat>): (ks: seq<nat>)
    ensures forall k :: k in ks <==> k in s
    ensures Increasing(ks)
    ensures |ks| == |s|
    decreases |s|
  {
    if s == {} then []
    else
      var m := MinKey(s);
      var rest := SortedKeys(s - {m});
      assert forall k :: k in rest ==> m < k;
      ConsIncreasing(m, rest);
      [m] + rest
  }

  /** Every key after the head of an ascending sequence exceeds the head. */
  lemma HeadBelowTail(ks: seq<nat>)
    requires ks != []
    ensures Increasing(ks) ==> forall k :: k in ks[1..] ==> ks[0] < k
  {
    forall k | k in ks[1..] && Increasing(ks) ensures ks[0] < k {
      var i :| 0 <= i < |ks[1..]| && ks[1..][i] == k;
      assert ks[i + 1] == k;
    }
  }

  lemma ConsIncreasing(h: nat, r: seq<nat>)
    ensures Increasing(r) && (forall k :: k in r ==> h < k) ==> Increasing([h] + r)
  {
    if Increasing(r) && (forall k :: k in r ==> h < k) {
      forall i, j | 0 <= i < j < |[h] + r| ensures ([h] + r)[i] < ([h] + r)[j] {
        assert ([h] + r)[j] == r[j - 1];
        assert r[j - 1] in r;
        if i > 0 { assert ([h] + r)[i] == r[i - 1]; }
      }
    }
  }

  /** The keys of `ks` for which `keep` holds, in the same order (a `where` clause). */
  function Filter(ks: seq<nat>, keep: nat -> bool): (r: seq<nat>)
    ensures forall k :: k in r <==> k in ks && keep(k)
    ensures Increasing(ks) ==> Increasing(r)
    ensures |r| <= |ks|
  {
    if ks == [] then []
    else if keep(ks[0]) then
      var rest := Filter(ks[1..], keep);
      HeadBelowTail(ks);
      ConsIncreasing(ks[0], rest);
      [ks[0]] + rest
    else Filter(ks[1..], keep)
  }

  /** The sum of `f` over the keys `ks`. */
  function Sum(ks: seq<nat>, f: nat -> real): real
  {
    if ks == [] then 0.0 else f(ks[0]) + Sum(ks[1..], f)
  }

  /** Sums agree when the summands agree on the keys. */
  lemma {:induction false} SumSame(ks: seq<nat>, f: nat -> real, g: nat -> real)
    requires forall k :: k in ks ==> f(k) == g(k)
    ensures Sum(ks, f) == Sum(ks, g)
  {
    if ks != [] {
      SumSame(ks[1..], f, g);
    }
  }

  /** Changing the summand at one key changes the sum by exactly that difference. */
  lemma {:induction false} SumUpdate(ks: seq<nat>, f: nat -> real, g: nat -> real, k: nat)
    requires Increasing(ks) && k in ks
    requires forall j :: j in ks && j != k ==> f(j) == g(j)
    ensures Sum(ks, g) == Sum(ks, f) - f(k) + g(k)
  {
    if ks[0] == k {
      HeadBelowTail(ks);
      SumSame(ks[1..], f, g);
    } else {
      SumUpdate(ks[1..], f, g, k);
    }
  }

  /** With no negative summand, the sum is at least any one summand. */
  lemma {:induction false} SumAtLeast(ks: seq<nat>, f: nat -> real, k: nat)
    requires k in ks && forall j :: j in ks ==> f(j) >= 0.0
    ensures Sum(ks, f) >= f(k)
  {
    if ks[0] == k {
      SumBounds(ks[1..], f);
    } else {
      SumAtLeast(ks[1..], f, k);
    }
  }

  /** A sum of zeros is zero; a sum of non-negative summands is non-negative. */
  lemma {:induction false} SumBounds(ks: seq<nat>, f: nat -> real)
    ensures (forall k :: k in ks ==> f(k) == 0.0) ==> Sum(ks, f) == 0.0
    ensures (forall k :: k in ks ==> f(k) >= 0.0) ==> Sum(ks, f) >= 0.0
  {
    if ks != [] {
      SumBounds(ks[1..], f);
    }
  }
}
