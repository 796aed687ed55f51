/** Random selection: what a sequence of draws selects, and when the selection loop stops. */
module Selection {
  import opened Types
  import opened Tendermint

  /** The distinct keys of a draw sequence in the order in which they were first drawn. */
  function FirstSeen(ds: seq<PubKey>): seq<PubKey> {
    if ds == [] then []
    else
      var k, r := ds[|ds| - 1], FirstSeen(ds[..|ds| - 1]);
      if k in r then r else r + [k]
  }

  /** How often a key was drawn. */
  function Count(ds: seq<PubKey>, k: PubKey): nat {
    if ds == [] then 0 else Count(ds[..|ds| - 1], k) + if ds[|ds| - 1] == k then 1 else 0
  }

  /** The selection a draw sequence stands for: each distinct key once, worth 999 plus its draws. */
  function Tally(ds: seq<PubKey>): seq<Update> {
    var f := FirstSeen(ds);
    seq(|f|, i requires 0 <= i < |f| => Update(f[i], 999 + Count(ds, f[i])))
  }

  function Prefix(draw: nat -> PubKey, n: nat): seq<PubKey> {
    seq(n, i requires 0 <= i < n => draw(i))
  }

  function Distinct(draw: nat -> PubKey, n: nat): nat {
    |FirstSeen(Prefix(draw, n))|
  }

  /** The exit test of the version >= 2 loop holds after some number of draws. */
  ghost predicate Halts(draw: nat -> PubKey, count: int) {
    exists n: nat :: Distinct(draw, n) == count
  }

  ghost predicate IsExit(draw: nat -> PubKey, count: int, n: nat) {
    Distinct(draw, n) == count && forall m: nat :: m < n ==> Distinct(draw, m) != count
  }

  /** The number of draws after which the loop stops. */
  ghost function ExitAt(draw: nat -> PubKey, count: int): (n: nat)
    requires Halts(draw, count)
    ensures IsExit(draw, count, n)
  {
    var w :| Distinct(draw, w) == count;
    LeastExit(draw, count, w);
    var n :| IsExit(draw, count, n);
    n
  }

  lemma {:induction false} LeastExit(draw: nat -> PubKey, count: int, n: nat)
    requires Distinct(draw, n) == count
    ensures exists m :: IsExit(draw, count, m)
  {
    if m: nat :| m < n && Distinct(draw, m) == count {
      LeastExit(draw, count, m);
    } else {
      assert IsExit(draw, count, n);
    }
  }

  lemma {:induction false} FirstSeenDistinct(ds: seq<PubKey>)
    ensures forall k :: k in FirstSeen(ds) <==> k in ds
    ensures forall i, j :: 0 <= i < j < |FirstSeen(ds)| ==> FirstSeen(ds)[i] != FirstSeen(ds)[j]
    ensures |FirstSeen(ds)| <= |ds|
  {
    if ds != [] {
      var ds' := ds[..|ds| - 1];
      FirstSeenDistinct(ds');
      assert ds == ds' + [ds[|ds| - 1]];
    }
  }

  lemma FirstSeenSnoc(ds: seq<PubKey>, k: PubKey)
    ensures FirstSeen(ds + [k]) == if k in FirstSeen(ds) then FirstSeen(ds) else FirstSeen(ds) + [k]
  {
    assert (ds + [k])[..|ds|] == ds;
  }

  /** Later draws only append to the selection. */
  lemma {:induction false} FirstSeenGrows(ds: seq<PubKey>, m: nat)
    requires m <= |ds|
    ensures FirstSeen(ds[..m]) <= FirstSeen(ds)
  {
    if m == |ds| {
      assert ds[..m] == ds;
    } else {
      var ds' := ds[..|ds| - 1];
      FirstSeenGrows(ds', m);
      assert ds'[..m] == ds[..m];
    }
  }

  /** The j-th selected key stands where it does because it was drawn right after exactly the
      keys before it had been seen. */
  lemma {:induction false} FirstSeenOrder(ds: seq<PubKey>, j: nat) returns (p: nat)
    requires j < |FirstSeen(ds)|
    ensures p < |ds| && ds[p] == FirstSeen(ds)[j] && ds[p] !in ds[..p]
    ensures FirstSeen(ds[..p]) == FirstSeen(ds)[..j]
  {
    var ds' := ds[..|ds| - 1];
    FirstSeenDistinct(ds');
    if j < |FirstSeen(ds')| {
      p := FirstSeenOrder(ds', j);
      assert ds'[..p] == ds[..p];
    } else {
      p := |ds| - 1;
    }
  }

  lemma TallyKeys(ds: seq<PubKey>)
    ensures NoRepeat(Tally(ds))
    ensures Addrs(Tally(ds)) == set k | k in ds :: AddressOf(k)
    ensures forall i :: 0 <= i < |Tally(ds)| ==> Tally(ds)[i].power >= 1000
  {
    FirstSeenDistinct(ds);
    forall k | k in ds ensures AddressOf(k) in Addrs(Tally(ds)) {
      var i :| 0 <= i < |FirstSeen(ds)| && FirstSeen(ds)[i] == k;
      assert Addr(Tally(ds)[i]) == AddressOf(k);
    }
    forall i | 0 <= i < |Tally(ds)| ensures Tally(ds)[i].power >= 1000 {
      CountIn(ds, FirstSeen(ds)[i]);
    }
  }

  lemma CountSnoc(ds: seq<PubKey>, k: PubKey, x: PubKey)
    ensures Count(ds + [k], x) == Count(ds, x) + if x == k then 1 else 0
  {
    assert (ds + [k])[..|ds|] == ds;
  }

  lemma {:induction false} CountIn(ds: seq<PubKey>, k: PubKey)
    ensures Count(ds, k) > 0 <==> k in ds
  {
    if ds != [] {
      CountIn(ds[..|ds| - 1], k);
      assert ds == ds[..|ds| - 1] + [ds[|ds| - 1]];
    }
  }

  lemma TallyAt(ds: seq<PubKey>, i: nat)
    requires i < |FirstSeen(ds)|
    ensures |Tally(ds)| == |FirstSeen(ds)|
    ensures Tally(ds)[i] == Update(FirstSeen(ds)[i], 999 + Count(ds, FirstSeen(ds)[i]))
  {
  }

  /** Drawing a new key selects it with power 1000. */
  lemma TallyNew(ds: seq<PubKey>, k: PubKey)
    requires k !in ds
    ensures Tally(ds + [k]) == Tally(ds) + [Update(k, 1000)]
  {
    FirstSeenSnoc(ds, k);
    FirstSeenDistinct(ds);
    var f, before, after := FirstSeen(ds), Tally(ds), Tally(ds + [k]);
    assert FirstSeen(ds + [k]) == f + [k];
    forall i | 0 <= i < |f| ensures after[i] == before[i] {
      assert (f + [k])[i] == f[i] && f[i] in ds;
      TallyAt(ds, i);
      TallyAt(ds + [k], i);
      CountSnoc(ds, k, f[i]);
    }
    TallyAt(ds + [k], |f|);
    CountSnoc(ds, k, k);
    CountIn(ds, k);
    assert after == before + [Update(k, 1000)];
  }

  /** Drawing a selected key again raises its power by one and changes nothing else. */
  lemma TallyAgain(ds: seq<PubKey>, k: PubKey, j: nat)
    requires j < |FirstSeen(ds)| && FirstSeen(ds)[j] == k
    ensures Tally(ds + [k]) == Tally(ds)[j := Update(k, Tally(ds)[j].power + 1)]
  {
    FirstSeenSnoc(ds, k);
    FirstSeenDistinct(ds);
    var f, before, after := FirstSeen(ds), Tally(ds), Tally(ds + [k]);
    forall i | 0 <= i < |f|
      ensures after[i] == if i == j then Update(k, before[j].power + 1) else before[i]
    {
      TallyAt(ds, i);
      TallyAt(ds + [k], i);
      CountSnoc(ds, k, f[i]);
      if i < j { assert f[i] != f[j]; } else if j < i { assert f[j] != f[i]; }
    }
    assert after == before[j := Update(k, before[j].power + 1)];
  }

  function PowerOver(ups: seq<Update>): int {
    if ups == [] then 0 else PowerOver(ups[..|ups| - 1]) + ups[|ups| - 1].power - 999
  }

  lemma {:induction false} PowerOverUpdate(ups: seq<Update>, j: nat)
    requires j < |ups|
    ensures PowerOver(ups[j := Update(ups[j].pubKey, ups[j].power + 1)]) == PowerOver(ups) + 1
  {
    var ups' := ups[j := Update(ups[j].pubKey, ups[j].power + 1)];
    if j == |ups| - 1 {
      assert ups'[..|ups| - 1] == ups[..|ups| - 1];
    } else {
      PowerOverUpdate(ups[..|ups| - 1], j);
      assert ups'[..|ups| - 1] == ups[..|ups| - 1][j := Update(ups[j].pubKey, ups[j].power + 1)];
    }
  }

  /** Every draw is worth one unit of power over 999, whoever it falls on. */
  lemma {:induction false} DrawAccounting(ds: seq<PubKey>)
    ensures PowerOver(Tally(ds)) == |ds|
  {
    if ds != [] {
      var ds', k := ds[..|ds| - 1], ds[|ds| - 1];
      DrawAccounting(ds');
      assert ds == ds' + [k];
      FirstSeenDistinct(ds');
      if k in ds' {
        var j :| 0 <= j < |FirstSeen(ds')| && FirstSeen(ds')[j] == k;
        TallyAgain(ds', k, j);
        PowerOverUpdate(Tally(ds'), j);
      } else {
        TallyNew(ds', k);
        assert Tally(ds)[..|Tally(ds')|] == Tally(ds');
      }
    }
  }

  lemma DistinctStep(draw: nat -> PubKey, n: nat)
    ensures Distinct(draw, n) <= Distinct(draw, n + 1) <= Distinct(draw, n) + 1
    ensures Distinct(draw, n) <= n
  {
    assert Prefix(draw, n + 1)[..n] == Prefix(draw, n);
    assert Prefix(draw, n + 1) == Prefix(draw, n) + [draw(n)];
    FirstSeenSnoc(Prefix(draw, n), draw(n));
    FirstSeenDistinct(Prefix(draw, n));
  }

  lemma {:induction false} DistinctReaches(draw: nat -> PubKey, count: nat, n: nat)
    requires count <= Distinct(draw, n)
    ensures exists m: nat :: Distinct(draw, m) == count
  {
    if count < Distinct(draw, n) {
      assert n > 0;
      DistinctStep(draw, n - 1);
      DistinctReaches(draw, count, n - 1);
    }
  }

  /** The loop stops exactly when some prefix of the draws holds enough distinct keys; a
      negative count never stops. */
  lemma HaltsExactly(draw: nat -> PubKey, count: int)
    ensures Halts(draw, count) <==> count >= 0 && exists n: nat :: Distinct(draw, n) >= count
  {
    if count >= 0 {
      if n: nat :| Distinct(draw, n) >= count {
        DistinctReaches(draw, count, n);
      }
    }
  }

  lemma {:induction false} DistinctWithin(ks: seq<PubKey>, pool: set<PubKey>)
    requires forall i, j :: 0 <= i < j < |ks| ==> ks[i] != ks[j]
    requires forall i :: 0 <= i < |ks| ==> ks[i] in pool
    ensures |ks| <= |pool|
  {
    if ks != [] {
      var k, ks' := ks[|ks| - 1], ks[..|ks| - 1];
      DistinctWithin(ks', pool - {k});
    }
  }

  /** The loop turns at all only if a positive number is asked for. */
  lemma ExitSign(draw: nat -> PubKey, count: int)
    requires Halts(draw, count)
    ensures count >= 0 && (ExitAt(draw, count) > 0 <==> count > 0)
  {
    assert Prefix(draw, 0) == [];
    assert Distinct(draw, 0) == 0;
  }

  /** Asking for more validators than the pool holds makes the loop run forever. */
  lemma NeverHaltsBeyondPool(draw: nat -> PubKey, count: int, pool: set<PubKey>)
    requires forall i: nat :: draw(i) in pool
    requires count > |pool|
    ensures !Halts(draw, count)
  {
    forall n: nat ensures Distinct(draw, n) != count {
      var ks := FirstSeen(Prefix(draw, n));
      FirstSeenDistinct(Prefix(draw, n));
      forall i | 0 <= i < |ks| ensures ks[i] in pool {
        assert ks[i] in Prefix(draw, n);
      }
      DistinctWithin(ks, pool);
    }
  }

  /** The two loops on the same draws: the version < 2 selection is a prefix of the version >= 2
      one, and the last validator selected under version >= 2 was drawn exactly once. */
  lemma ForksAgreeOnOrder(draw: nat -> PubKey, count: nat)
    requires Halts(draw, count)
    ensures var n := ExitAt(draw, count);
            && count <= n
            && FirstSeen(Prefix(draw, count)) <= FirstSeen(Prefix(draw, n))
            && |Tally(Prefix(draw, n))| == count
            && (count > 0 ==> Tally(Prefix(draw, n))[count - 1] == Update(draw(n - 1), 1000))
  {
    var n := ExitAt(draw, count);
    DistinctStep(draw, n);
    assert Prefix(draw, n)[..count] == Prefix(draw, count);
    FirstSeenGrows(Prefix(draw, n), count);
    if count > 0 {
      LastDrawIsNew(draw, count, n);
    }
  }

  lemma LastDrawIsNew(draw: nat -> PubKey, count: nat, n: nat)
    requires IsExit(draw, count, n) && count > 0
    ensures n > 0 && Tally(Prefix(draw, n))[count - 1] == Update(draw(n - 1), 1000)
  {
    assert Prefix(draw, 0) == [] && n > 0;
    var ds, k := Prefix(draw, n - 1), draw(n - 1);
    assert Prefix(draw, n) == ds + [k];
    assert Distinct(draw, n - 1) != count;
    FirstSeenSnoc(ds, k);
    FirstSeenDistinct(ds);
    TallyNew(ds, k);
  }
}
