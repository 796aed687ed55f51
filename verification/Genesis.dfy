/** What InitChain establishes. */
module GenesisProofs {
  import opened Arithmetic
  import opened Types
  import opened Tendermint
  import opened Strategies
  import opened Ledger
  import opened Rewards
  import opened Application

  /** The slots a genesis signer gets. */
  function SlotsFor(version: nat, balances: Balances, threshold: int, s: Address): int {
    if version >= 4 || threshold == 0 then 10 else Int64(Get(balances, s) / threshold)
  }

  /** The invariant of the InitChain loop: everything tracked is bonded, under the signer of its
      account, with the stake its balance buys. */
  ghost predicate Enrolled(version: nat, balances: Balances, g: Genesis, vs: seq<Update>) {
    && TableOk(g.next)
    && TrackedOk(g.validators)
    && g.validators.Keys == Bonded(g.next)
    && g.next.unbonded == map[]
    && g.validators.Keys <= Addrs(vs)
    && (g.accepted == [] <==> g.validators == map[])
    && Staked(version, balances, g.next)
  }

  ghost predicate Staked(version: nat, balances: Balances, t: Table) {
    forall s :: s in t.items ==> t.items[s].slots == SlotsFor(version, balances, t.threshold, s)
  }

  lemma {:induction false} EnrolInvariant(version: nat, balances: Balances, g: Genesis, vs: seq<Update>)
    requires version >= 4 || g.next.threshold != 0
    requires g.next == EMPTY_TABLE.(threshold := g.next.threshold) && g.validators == map[] && g.accepted == []
    ensures Enrolled(version, balances, EnrolAll(version, balances, g, vs), vs)
  {
    if vs != [] {
      var rest, v := vs[..|vs| - 1], vs[|vs| - 1];
      EnrolInvariant(version, balances, g, rest);
      var g1 := EnrolAll(version, balances, g, rest);
      AddrsSplit(vs, |vs| - 1);
      assert vs[|vs| - 1..] == [v];
      assert Addr([v][0]) == Addr(v);
      EnrolStep(version, balances, g1, rest, v, vs);
    }
  }

  lemma EnrolStep(version: nat, balances: Balances, g: Genesis, rest: seq<Update>, v: Update, vs: seq<Update>)
    requires version >= 4 || g.next.threshold != 0
    requires Enrolled(version, balances, g, rest)
    requires Addrs(rest) + {Addr(v)} <= Addrs(vs)
    ensures Enrolled(version, balances, Enrol(version, balances, g, v), vs)
  {
    var a := Addr(v);
    if a in g.accounts {
      var who := g.accounts[a];
      var item := PosItem(v.pubKey, a, SlotsFor(version, balances, g.next.threshold, who.signer), who.beneficiary, 1);
      var t := InsertPosItem(g.next, who.signer, item);
      if t.Some? {
        InsertEvolves(g.next, who.signer, item);
        TrackAlso(g.validators, v, who.signer);
        StakeAlso(version, balances, g.next, who.signer, item);
      }
    }
  }

  lemma StakeAlso(version: nat, balances: Balances, t: Table, signer: Address, item: PosItem)
    requires Staked(version, balances, t) && item.slots == SlotsFor(version, balances, t.threshold, signer)
    ensures var r := InsertPosItem(t, signer, item);
            r.Some? ==> Staked(version, balances, r.value) && r.value.unbonded == t.unbonded
  {
  }

  lemma TrackAlso(m: Tracked, v: Update, signer: Address)
    requires TrackedOk(m)
    ensures var m' := m[Addr(v) := Validator(v.pubKey, v.power, signer)];
            TrackedOk(m') && m'.Keys == m.Keys + {Addr(v)} && m' != map[]
  {
    assert Addr(v) in m[Addr(v) := Validator(v.pubKey, v.power, signer)];
  }

  /** A successful InitChain: the snapshot and the table worked on agree, and the tracked
      validators are exactly the bonded ones, all of them genesis validators. */
  lemma FoundedFacts(cfg: Config, n: Node, accounts: map<TmAddress, Account>, vs: seq<Update>)
    requires cfg.thresholdUnit >= 1
    requires n.strategy.next == EMPTY_TABLE && n.strategy.validators == map[]
    requires Founded(cfg, n, accounts, vs).Some?
    ensures var s := Founded(cfg, n, accounts, vs).value;
            && s.curr == s.next && TableOk(s.curr) && TrackedOk(s.validators)
            && s.validators.Keys == Bonded(s.curr) == Known(s.curr)
            && s.validators != map[]
            && s.validators.Keys <= Addrs(vs)
            && s == n.strategy.(curr := s.curr, next := s.next, validators := s.validators)
  {
    var s := n.strategy;
    var g := Genesis(s.next.(threshold := s.totalBalance / cfg.thresholdUnit), accounts, s.validators, []);
    EnrolInvariant(s.blockVersion, n.balances, g, vs);
    BondedKnown(Founded(cfg, n, accounts, vs).value.curr);
  }

  // ---------------------------------------------------------------- the slot bound

  ghost function Slots(items: map<Address, PosItem>): int {
    if items == map[] then 0
    else
      var s :| s in items;
      items[s].slots + Slots(items - {s})
  }

  /** A stake costs no more than its signer owns. */
  ghost predicate Affordable(balances: Balances, s: Address, item: PosItem, threshold: int) {
    threshold * item.slots <= Get(balances, s)
  }

  lemma Distribute(d: int, a: int, b: int)
    ensures d * (a + b) == d * a + d * b
  {
  }

  /** Rounded-down stakes together cost no more than their signers own together. */
  lemma {:induction false} SlotsWithinBalance(balances: Balances, items: map<Address, PosItem>, threshold: int)
    requires forall s :: s in items ==> Affordable(balances, s, items[s], threshold)
    ensures threshold * Slots(items) <= Sum(balances, items.Keys)
    decreases |items|
  {
    if items != map[] {
      var s := SlotsSplit(items);
      var rest := items - {s};
      assert rest.Keys == items.Keys - {s};
      SlotsWithinBalance(balances, rest, threshold);
      SumSplit(balances, items.Keys, s);
      Distribute(threshold, items[s].slots, Slots(rest));
    }
  }

  lemma SlotsSplit(items: map<Address, PosItem>) returns (s: Address)
    requires items != map[]
    ensures s in items && Slots(items) == items[s].slots + Slots(items - {s})
  {
    s :| s in items && Slots(items) == items[s].slots + Slots(items - {s});
  }

  /** The whole supply T, cut into units of T / U, gives at most U units exactly when the
      remainder T % U is smaller than T / U; T >= U * U is enough. */
  lemma UnitsExactly(total: int, unit: int)
    requires unit >= 1 && total / unit >= 1
    ensures total / (total / unit) <= unit <==> total % unit < total / unit
    ensures total >= unit * unit ==> total % unit < total / unit
  {
    var q, r := total / unit, total % unit;
    Division(total, unit);
    MulNext(q, unit);
    if r < q {
      DivBelow(total, q, unit + 1);
    } else {
      DivAtLeast(total, q, unit + 1);
    }
    if total >= unit * unit {
      DivAtLeast(total, unit, unit);
    }
  }

  /** Genesis slot bound: the slots InitChain hands out never exceed T / (T / U), so they stay
      within ThresholdUnit whenever T % U < T / U. */
  lemma GenesisSlotBound(cfg: Config, n: Node, accounts: map<TmAddress, Account>, vs: seq<Update>)
    requires 1 <= cfg.thresholdUnit < 0x4000_0000_0000_0000
    requires n.strategy.next == EMPTY_TABLE && n.strategy.validators == map[] && n.strategy.blockVersion < 4
    requires NonNegative(n.balances) && Total(n.balances) <= n.strategy.totalBalance
    requires Founded(cfg, n, accounts, vs).Some?
    ensures var total, unit := n.strategy.totalBalance, cfg.thresholdUnit;
            && total / unit >= 1
            && Slots(Founded(cfg, n, accounts, vs).value.next.items) <= total / (total / unit)
            && (total % unit < total / unit ==> Slots(Founded(cfg, n, accounts, vs).value.next.items) <= unit)
  {
    var s := n.strategy;
    TotalNonNegative(n.balances);
    var threshold := s.totalBalance / cfg.thresholdUnit;
    DivAtLeast(s.totalBalance, cfg.thresholdUnit, 0);
    var g := Genesis(s.next.(threshold := threshold), accounts, s.validators, []);
    EnrolInvariant(s.blockVersion, n.balances, g, vs);
    var t := Founded(cfg, n, accounts, vs).value.next;
    StakesAffordable(s.blockVersion, n.balances, t, s.totalBalance, cfg.thresholdUnit);
    SlotsWithinBalance(n.balances, t.items, threshold);
    SumWithin(n.balances, t.items.Keys);
    SlotsFit(Slots(t.items), s.totalBalance, cfg.thresholdUnit);
  }

  lemma StakesAffordable(version: nat, balances: Balances, t: Table, total: int, unit: int)
    requires NonNegative(balances) && Total(balances) <= total && version < 4
    requires 1 <= unit < 0x4000_0000_0000_0000 && total / unit >= 1
    requires t.threshold == total / unit && Staked(version, balances, t)
    ensures forall s :: s in t.items ==> Affordable(balances, s, t.items[s], t.threshold)
  {
    forall s | s in t.items ensures Affordable(balances, s, t.items[s], t.threshold) {
      OneWithinTotal(balances, s);
      StakeExact(Get(balances, s), total, unit);
    }
  }

  lemma SlotsFit(slots: int, total: int, unit: int)
    requires unit >= 1 && total / unit >= 1 && (total / unit) * slots <= total
    ensures slots <= total / (total / unit)
    ensures total % unit < total / unit ==> slots <= unit
  {
    DivAtLeast(total, total / unit, slots);
    UnitsExactly(total, unit);
  }

  lemma OneWithinTotal(b: Balances, a: Address)
    requires NonNegative(b)
    ensures 0 <= Get(b, a) <= Total(b)
  {
    SumWithin(b, {a});
    SumSplit(b, {a}, a);
  }

  /** A stake never overflows, for it is below twice the unit, and never costs too much. */
  lemma StakeExact(x: int, total: int, unit: int)
    requires 1 <= unit < 0x4000_0000_0000_0000 && total / unit >= 1 && 0 <= x <= total
    ensures Int64(x / (total / unit)) == x / (total / unit)
    ensures (total / unit) * (x / (total / unit)) <= x
  {
    var q := total / unit;
    Doubled(total, unit, q);
    DivBelow(x, q, 2 * unit);
    DivAtLeast(x, q, 0);
    Division(x, q);
    SmallInt64(x / q);
  }

  lemma SmallInt64(x: int)
    requires 0 <= x < 0x8000_0000_0000_0000
    ensures Int64(x) == x
  {
  }

  lemma Doubled(total: int, unit: int, q: int)
    requires unit >= 1 && q >= 1 && q == total / unit
    ensures total < q * (2 * unit)
  {
    Division(total, unit);
    MulMono(unit, 1, q);
    assert q * (2 * unit) == unit * q + unit * q;
  }

  /** When T % U >= T / U the bound does fail: one signer that owns everything gets more. */
  lemma SlotBoundFails(cfg: Config, n: Node, key: PubKey, power: int, who: Account)
    requires 1 <= cfg.thresholdUnit < 0x4000_0000_0000_0000
    requires n.strategy.next == EMPTY_TABLE && n.strategy.validators == map[] && n.strategy.blockVersion < 4
    requires var total, unit := n.strategy.totalBalance, cfg.thresholdUnit;
             total % unit >= total / unit >= 1 && Int64(total) != 0 && n.balances == map[who.signer := total]
    ensures var r := Founded(cfg, n, map[AddressOf(key) := who], [Update(key, power)]);
            r.Some? && Slots(r.value.next.items) > cfg.thresholdUnit
  {
    var s, total, unit := n.strategy, n.strategy.totalBalance, cfg.thresholdUnit;
    var threshold := total / unit;
    UnitsExactly(total, unit);
    StakeExact(total, total, unit);
    var v := Update(key, power);
    assert [v][..0] == [] && [v][0] == v;
    var g := Genesis(s.next.(threshold := threshold), map[AddressOf(key) := who], s.validators, []);
    assert EnrolAll(s.blockVersion, n.balances, g, [v][..0]) == g;
    var g' := EnrolAll(s.blockVersion, n.balances, g, [v]);
    assert g' == Enrol(s.blockVersion, n.balances, g, v);
    assert g'.next.items == map[who.signer := PosItem(key, AddressOf(key), total / threshold, who.beneficiary, 1)];
    assert g'.next.items - {who.signer} == map[];
  }
}
