/** The validator strategy: which validators a block chooses and the update list it emits. */
module Strategies {
  import opened Types
  import opened Tendermint
  import opened Selection

  type Seed = nat

  /** A tracked validator as the strategy records it. */
  datatype Validator = Validator(pubKey: PubKey, power: int, signer: Address)

  type Tracked = map<TmAddress, Validator>

  /** The deterministic pickers of the table: one draw by seed and index, one draw by height, the
      k signers with most slots, and all signers in order. */
  datatype Selector = Selector(
    bySeed: (map<Address, PosItem>, Option<Seed>, nat) -> Address,
    byHeight: (map<Address, PosItem>, int) -> Address,
    topK: (map<Address, PosItem>, nat) -> seq<Address>,
    sorted: map<Address, PosItem> -> seq<Address>)

  ghost predicate Lists(signers: seq<Address>, items: map<Address, PosItem>) {
    && (forall i :: 0 <= i < |signers| ==> signers[i] in items)
    && (forall i, j :: 0 <= i < j < |signers| ==> signers[i] != signers[j])
    && (items != map[] ==> signers != [])
  }

  /** The k signers with most slots, or all of them if there are no more than k. */
  ghost predicate TopSigners(signers: seq<Address>, items: map<Address, PosItem>, k: nat) {
    && Lists(signers, items)
    && |signers| == (if k < |items| then k else |items|)
    && forall s, i :: s in items && s !in signers && 0 <= i < |signers| ==> items[s].slots <= items[signers[i]].slots
  }

  ghost predicate AllSigners(signers: seq<Address>, items: map<Address, PosItem>) {
    Lists(signers, items) && forall s :: s in items ==> s in signers
  }

  /** What the pickers of members promise about one table. */
  ghost predicate Ranks(sel: Selector, items: map<Address, PosItem>, k: nat) {
    (k > 0 ==> TopSigners(sel.topK(items, k), items, k)) && AllSigners(sel.sorted(items), items)
  }

  ghost predicate ValidSelector(sel: Selector) {
    && (forall items: map<Address, PosItem>, seed: Option<Seed>, i: nat ::
          items != map[] ==> sel.bySeed(items, seed, i) in items)
    && (forall items: map<Address, PosItem>, h: int :: items != map[] ==> sel.byHeight(items, h) in items)
    && (forall items: map<Address, PosItem>, k: nat :: k > 0 ==> Lists(sel.topK(items, k), items))
    && (forall items: map<Address, PosItem> :: Lists(sel.sorted(items), items))
    && (forall items: map<Address, PosItem>, k: nat :: Ranks(sel, items, k))
  }

  /** Node configuration: epoch length, fork schedule, and the parts of the table whose code is
      outside the node (pickers, whether a removal is accepted, which unbonded signers expired). */
  datatype Config = Config(
    epochBlocks: int,
    heights: seq<int>,
    versions: seq<nat>,
    bigguy: Address,
    thresholdUnit: int,
    sel: Selector,
    removable: (Table, Address, int) -> bool,
    expired: (Table, int) -> set<Address>)

  ghost predicate ConfigOk(cfg: Config) {
    && cfg.epochBlocks >= 1
    && |cfg.heights| > 3
    && |cfg.versions| == |cfg.heights|
    && cfg.thresholdUnit >= 1
    && ValidSelector(cfg.sel)
  }

  const NO_RECEIVER: Address := 2

  /** The fields of the strategy object, as one value. */
  datatype StrategyState = StrategyState(
    height: int, validators: Tracked, proposer: Option<TmAddress>, lastVotes: seq<Vote>,
    curr: Table, totalBalance: int, minorBonus: int, selectCount: int, dkgLimit: int,
    next: Table, changed: bool,
    hfHeight: int, hfPassed: bool, blockVersion: nat)

  /** A node that has just been started: nothing tracked, empty tables, the fork schedule on. */
  function Fresh(selectCount: int, dkgLimit: int, totalBalance: int): StrategyState {
    StrategyState(0, map[], None, [], EMPTY_TABLE, totalBalance, 0, selectCount, dkgLimit, EMPTY_TABLE, false,
                  0, true, 0)
  }

  /** Who receives the proposer's reward: under version 4 a fixed account, otherwise the
      proposer's beneficiary unless it cannot be resolved or has been slashed. */
  function Receiver(cfg: Config, s: StrategyState): Address {
    if s.blockVersion == 4 then cfg.bigguy
    else if s.proposer.None? || s.proposer.value !in s.curr.signerOf then NO_RECEIVER
    else
      var signer := s.curr.signerOf[s.proposer.value];
      if signer in s.curr.items then s.curr.items[signer].beneficiary
      else if signer in s.curr.unbonded && s.curr.unbonded[signer].slots != 0 then s.curr.unbonded[signer].beneficiary
      else NO_RECEIVER
  }

  // ---------------------------------------------------------------- what a block chooses

  /** The signer drawn at index i; height -1 stands for "a seed is present". */
  function SignerAt(sel: Selector, items: map<Address, PosItem>, seed: Option<Seed>, height: int, i: nat): Address {
    if height == -1 then sel.bySeed(items, seed, i) else sel.byHeight(items, height + i)
  }

  function Draws(sel: Selector, items: map<Address, PosItem>, seed: Option<Seed>, height: int): nat -> PubKey {
    (i: nat) =>
      var s := SignerAt(sel, items, seed, height, i);
      if s in items then items[s].pubKey else PubKey(0)
  }

  /** How many validators a block asks for; 0 stands for the whole pool. */
  function Wanted(s: StrategyState): int {
    if s.selectCount == 0 then |s.curr.items| else s.selectCount
  }

  ghost predicate SelectionEnds(sel: Selector, s: StrategyState, seed: Option<Seed>, height: int) {
    s.blockVersion >= 2 ==> Halts(Draws(sel, s.curr.items, seed, height), Wanted(s))
  }

  ghost function Rounds(sel: Selector, s: StrategyState, seed: Option<Seed>, height: int): nat
    requires SelectionEnds(sel, s, seed, height)
  {
    if s.blockVersion >= 2 then ExitAt(Draws(sel, s.curr.items, seed, height), Wanted(s))
    else if Wanted(s) < 0 then 0 else Wanted(s)
  }

  ghost function Selected(sel: Selector, s: StrategyState, seed: Option<Seed>, height: int): seq<Update>
    requires SelectionEnds(sel, s, seed, height)
  {
    Tally(Prefix(Draws(sel, s.curr.items, seed, height), Rounds(sel, s, seed, height)))
  }

  /** The record kept after a selection: power 1000 for everyone, whatever power was emitted. */
  function SelectedRecord(t: Table, addrs: set<TmAddress>): Tracked {
    map a | a in addrs && a in t.signerOf :: Validator(a.key, 1000, t.signerOf[a])
  }

  function Members(cfg: Config, s: StrategyState, height: int): seq<Address>
    requires |cfg.heights| > 3
  {
    if height == cfg.heights[3] then cfg.sel.sorted(s.curr.items)
    else cfg.sel.topK(s.curr.items, if s.dkgLimit <= 0 then 100 else s.dkgLimit)
  }

  ghost function Slotted(items: map<Address, PosItem>, signers: seq<Address>): seq<Update>
    requires Lists(signers, items)
  {
    seq(|signers|, i requires 0 <= i < |signers| => Update(items[signers[i]].pubKey, items[signers[i]].slots))
  }

  /** The record kept at an epoch boundary: the emitted power is the number of slots. */
  function SlottedRecord(t: Table, addrs: set<TmAddress>): Tracked {
    map a | a in addrs && a in t.signerOf && t.signerOf[a] in t.items ::
      Validator(a.key, t.items[t.signerOf[a]].slots, t.signerOf[a])
  }

  /** The pickers are only defined on a pool that is not empty. */
  ghost predicate Drawable(s: StrategyState) {
    Wanted(s) > 0 ==> s.curr.items != map[]
  }

  ghost predicate CanChoose(cfg: Config, s: StrategyState, height: int, seed: Option<Seed>) {
    && cfg.epochBlocks >= 1
    && (height % cfg.epochBlocks != 0 ==>
          Drawable(s) && SelectionEnds(cfg.sel, s, seed, if seed.Some? then -1 else height))
  }

  /** The validators chosen at a height, with the powers that are emitted. */
  ghost function Chosen(cfg: Config, s: StrategyState, height: int, seed: Option<Seed>): seq<Update>
    requires ConfigOk(cfg) && CanChoose(cfg, s, height, seed)
  {
    if height % cfg.epochBlocks != 0 then Selected(cfg.sel, s, seed, if seed.Some? then -1 else height)
    else Slotted(s.curr.items, Members(cfg, s, height))
  }

  ghost function RecordOf(cfg: Config, s: StrategyState, height: int, seed: Option<Seed>): Tracked
    requires ConfigOk(cfg) && CanChoose(cfg, s, height, seed)
  {
    var addrs := Addrs(Chosen(cfg, s, height, seed));
    if height % cfg.epochBlocks != 0 then SelectedRecord(s.curr, addrs) else SlottedRecord(s.curr, addrs)
  }

  // ---------------------------------------------------------------- the emitted list

  ghost predicate TrackedOk(m: Tracked) {
    forall a :: a in m ==> AddressOf(m[a].pubKey) == a
  }

  /** A power-0 entry for each address of a set, once, in any order. */
  ghost predicate Removals(r: seq<Update>, gone: set<TmAddress>) {
    && NoRepeat(r)
    && Addrs(r) == gone
    && forall i :: 0 <= i < |r| ==> r[i].power == 0
  }

  /** An update list that names the chosen validators and then, in any order, removes every
      tracked validator that was not chosen. */
  ghost predicate Diff(tracked: Tracked, chosen: seq<Update>, ups: seq<Update>) {
    && |chosen| <= |ups|
    && ups[..|chosen|] == chosen
    && Removals(ups[|chosen|..], tracked.Keys - Addrs(chosen))
  }

  ghost predicate Choice(chosen: seq<Update>) {
    NoRepeat(chosen) && forall i :: 0 <= i < |chosen| ==> chosen[i].power > 0
  }

  /** The validator set that consists of exactly the chosen validators. */
  function Powers(chosen: seq<Update>): ValSet
    requires NoRepeat(chosen)
  {
    map i | 0 <= i < |chosen| :: Addr(chosen[i]) := chosen[i].power
  }

  lemma AddrsSplit(ups: seq<Update>, n: nat)
    requires n <= |ups|
    ensures Addrs(ups) == Addrs(ups[..n]) + Addrs(ups[n..])
  {
    forall a | a in Addrs(ups) ensures a in Addrs(ups[..n]) + Addrs(ups[n..]) {
      var i :| 0 <= i < |ups| && Addr(ups[i]) == a;
      if i < n { assert ups[..n][i] == ups[i]; } else { assert ups[n..][i - n] == ups[i]; }
    }
    forall a | a in Addrs(ups[n..]) ensures a in Addrs(ups) {
      var i :| 0 <= i < |ups| - n && Addr(ups[n..][i]) == a;
      assert Addr(ups[i + n]) == a;
    }
  }

  lemma DiffNoRepeat(tracked: Tracked, chosen: seq<Update>, ups: seq<Update>)
    requires Choice(chosen) && Diff(tracked, chosen, ups)
    ensures NoRepeat(ups)
    ensures Addrs(ups) == Addrs(chosen) + tracked.Keys
  {
    var n := |chosen|;
    AddrsSplit(ups, n);
    forall i, j | 0 <= i < j < |ups| ensures Addr(ups[i]) != Addr(ups[j]) {
      if i < n {
        assert ups[i] == chosen[i];
        if j < n {
          assert ups[j] == chosen[j];
        } else {
          assert Addr(ups[n..][j - n]) in Addrs(ups[n..]);
        }
      } else {
        assert Addr(ups[n..][i - n]) != Addr(ups[n..][j - n]);
      }
    }
  }

  /** The diff refines full replacement. Whatever Tendermint's set holds beside the tracked
      validators stays; in place of the tracked ones it then holds exactly the chosen
      validators with the emitted powers. With nothing untracked the set becomes the choice. */
  lemma DiffRefinesReplacement(vs: ValSet, tracked: Tracked, chosen: seq<Update>, ups: seq<Update>)
    requires Choice(chosen) && Diff(tracked, chosen, ups)
    requires tracked.Keys <= vs.Keys
    ensures ApplyAll(vs, ups) == (vs - tracked.Keys) + Powers(chosen)
    ensures vs.Keys == tracked.Keys ==> ApplyAll(vs, ups) == Powers(chosen)
  {
    var got, want := ApplyAll(vs, ups), (vs - tracked.Keys) + Powers(chosen);
    forall a ensures (a in got <==> a in want) && (a in got ==> got[a] == want[a]) {
      DiffAt(vs, tracked, chosen, ups, a);
    }
    assert got == want;
  }

  /** The effect of such a list on one address. */
  lemma DiffAt(vs: ValSet, tracked: Tracked, chosen: seq<Update>, ups: seq<Update>, a: TmAddress)
    requires Choice(chosen) && Diff(tracked, chosen, ups)
    requires tracked.Keys <= vs.Keys
    ensures var got, want := ApplyAll(vs, ups), (vs - tracked.Keys) + Powers(chosen);
            (a in got <==> a in want) && (a in got ==> got[a] == want[a])
  {
    var n := |chosen|;
    DiffNoRepeat(tracked, chosen, ups);
    if i :| 0 <= i < n && Addr(chosen[i]) == a {
      assert ups[i] == chosen[i];
      ApplyAt(vs, ups, i);
      assert Powers(chosen)[a] == chosen[i].power;
    } else if a in tracked {
      assert a in Addrs(ups[n..]);
      var j :| 0 <= j < |ups| - n && Addr(ups[n..][j]) == a;
      assert ups[n + j] == ups[n..][j];
      ApplyAt(vs, ups, n + j);
    } else {
      assert a !in Addrs(chosen);
      ApplyElsewhere(vs, ups, a);
    }
  }

  lemma DiffEntries(vs: ValSet, tracked: Tracked, chosen: seq<Update>, ups: seq<Update>)
    requires Choice(chosen) && Diff(tracked, chosen, ups)
    requires tracked.Keys <= vs.Keys
    ensures forall i :: 0 <= i < |ups| ==> ups[i].power >= 0 && (ups[i].power == 0 ==> Addr(ups[i]) in vs)
    ensures ups == [] <==> chosen == [] && tracked == map[]
  {
    var n := |chosen|;
    forall i | 0 <= i < |ups| ensures ups[i].power >= 0 && (ups[i].power == 0 ==> Addr(ups[i]) in vs) {
      if i < n {
        assert ups[i] == chosen[i];
      } else {
        assert ups[n..][i - n] == ups[i];
        assert Addr(ups[i]) in Addrs(ups[n..]);
      }
    }
    DiffNoRepeat(tracked, chosen, ups);
    if ups != [] {
      assert Addr(ups[0]) in Addrs(ups);
      assert chosen == [] ==> Addrs(chosen) == {};
    } else {
      assert tracked.Keys <= Addrs(ups) == {};
    }
  }

  lemma ReplacementEmpty(vs: ValSet, tracked: Tracked, chosen: seq<Update>)
    requires Choice(chosen) && tracked.Keys <= vs.Keys
    ensures (vs - tracked.Keys) + Powers(chosen) == map[] <==> chosen == [] && tracked.Keys == vs.Keys
  {
    var after := (vs - tracked.Keys) + Powers(chosen);
    if chosen != [] {
      assert Addr(chosen[0]) in after;
    } else if a :| a in vs && a !in tracked {
      assert a in after;
    }
  }

  /** Tendermint accepts every such list unless it would empty the set. */
  lemma DiffAccepted(vs: ValSet, tracked: Tracked, chosen: seq<Update>, ups: seq<Update>)
    requires Choice(chosen) && Diff(tracked, chosen, ups)
    requires tracked.Keys <= vs.Keys
    ensures Apply(vs, ups).Accepted? <==> chosen != [] || tracked == map[] || tracked.Keys != vs.Keys
    ensures Apply(vs, ups).Accepted? ==> Apply(vs, ups).vals == (vs - tracked.Keys) + Powers(chosen)
    ensures Apply(vs, ups).Rejected? ==> Apply(vs, ups).reason == EmptySet
  {
    DiffNoRepeat(tracked, chosen, ups);
    DiffRefinesReplacement(vs, tracked, chosen, ups);
    DiffEntries(vs, tracked, chosen, ups);
    ReplacementEmpty(vs, tracked, chosen);
  }

  /** The removal suffix follows Go's map order; the order does not matter. */
  lemma RemovalOrderIrrelevant(vs: ValSet, tracked: Tracked, chosen: seq<Update>, ups: seq<Update>, ups': seq<Update>)
    requires Choice(chosen) && tracked.Keys <= vs.Keys
    requires Diff(tracked, chosen, ups) && Diff(tracked, chosen, ups')
    ensures Apply(vs, ups) == Apply(vs, ups')
  {
    DiffAccepted(vs, tracked, chosen, ups);
    DiffAccepted(vs, tracked, chosen, ups');
  }

  // ---------------------------------------------------------------- choices are well-formed

  lemma DrawsBonded(sel: Selector, t: Table, seed: Option<Seed>, height: int, i: nat)
    requires ValidSelector(sel) && TableOk(t) && t.items != map[]
    ensures var s := SignerAt(sel, t.items, seed, height, i);
            && s in t.items
            && Draws(sel, t.items, seed, height)(i) == t.items[s].pubKey
            && AddressOf(t.items[s].pubKey) in t.signerOf
            && t.signerOf[AddressOf(t.items[s].pubKey)] == s
  {
    assert height != -1 ==> sel.byHeight(t.items, height + i) in t.items;
  }

  /** No draw is made unless something is asked for. */
  lemma RoundsNeedDraws(sel: Selector, s: StrategyState, seed: Option<Seed>, height: int)
    requires SelectionEnds(sel, s, seed, height) && Drawable(s)
    ensures Rounds(sel, s, seed, height) > 0 ==> Wanted(s) > 0 && s.curr.items != map[]
  {
    var draw := Draws(sel, s.curr.items, seed, height);
    if s.blockVersion >= 2 {
      ExitSign(draw, Wanted(s));
    }
  }

  /** At every height, on both producers, the choice is a list of bonded validators of the snapshot
      without repeats and with positive powers. It is empty exactly when the pool is, or when a
      negative number was asked for between two boundaries. */
  lemma ChosenBonded(cfg: Config, s: StrategyState, height: int, seed: Option<Seed>)
    requires ConfigOk(cfg) && CanChoose(cfg, s, height, seed) && TableOk(s.curr)
    ensures Choice(Chosen(cfg, s, height, seed))
    ensures Addrs(Chosen(cfg, s, height, seed)) <= Bonded(s.curr)
    ensures Chosen(cfg, s, height, seed) != [] <==>
            s.curr.items != map[] && (height % cfg.epochBlocks == 0 || s.selectCount >= 0)
  {
    var chosen := Chosen(cfg, s, height, seed);
    if height % cfg.epochBlocks != 0 {
      var h := if seed.Some? then -1 else height;
      var draw, n := Draws(cfg.sel, s.curr.items, seed, h), Rounds(cfg.sel, s, seed, h);
      var ds := Prefix(draw, n);
      TallyKeys(ds);
      RoundsNeedDraws(cfg.sel, s, seed, h);
      forall k | k in ds ensures AddressOf(k) in Bonded(s.curr) {
        var i :| 0 <= i < n && ds[i] == k;
        DrawsBonded(cfg.sel, s.curr, seed, h, i);
        var sg := SignerAt(cfg.sel, s.curr.items, seed, h, i);
        assert s.curr.items[sg].tmAddress == AddressOf(k);
      }
      SelectedSome(cfg.sel, s, seed, h);
    } else {
      SlottedBonded(cfg, s, height);
    }
  }

  /** A selection is empty exactly when the pool is or the count is negative. */
  lemma SelectedSome(sel: Selector, s: StrategyState, seed: Option<Seed>, height: int)
    requires SelectionEnds(sel, s, seed, height) && Drawable(s)
    ensures Selected(sel, s, seed, height) != [] <==> s.curr.items != map[] && s.selectCount >= 0
  {
    var ds := Prefix(Draws(sel, s.curr.items, seed, height), Rounds(sel, s, seed, height));
    assert Wanted(s) > 0 <==> s.curr.items != map[] && s.selectCount >= 0;
    RoundsNeedDraws(sel, s, seed, height);
    FirstSeenDistinct(ds);
    assert ds != [] ==> ds[0] in ds;
  }

  lemma SlottedBonded(cfg: Config, s: StrategyState, height: int)
    requires ConfigOk(cfg) && TableOk(s.curr)
    ensures Lists(Members(cfg, s, height), s.curr.items)
    ensures var chosen := Slotted(s.curr.items, Members(cfg, s, height));
            && Choice(chosen) && Addrs(chosen) <= Bonded(s.curr)
            && (chosen != [] <==> s.curr.items != map[])
  {
    var signers := Members(cfg, s, height);
    var chosen := Slotted(s.curr.items, signers);
    assert signers != [] ==> signers[0] in s.curr.items;
    forall i | 0 <= i < |chosen| ensures Addr(chosen[i]) in Bonded(s.curr) {
      assert s.curr.items[signers[i]].tmAddress == Addr(chosen[i]);
    }
    forall i, j | 0 <= i < j < |chosen| ensures Addr(chosen[i]) != Addr(chosen[j]) {
      assert s.curr.signerOf[Addr(chosen[i])] == signers[i];
      assert s.curr.signerOf[Addr(chosen[j])] == signers[j];
    }
  }

  /** The draws of an ordinary height. */
  ghost function Drawn(cfg: Config, s: StrategyState, height: int, seed: Option<Seed>): seq<PubKey>
    requires CanChoose(cfg, s, height, seed) && height % cfg.epochBlocks != 0
  {
    var h := if seed.Some? then -1 else height;
    Prefix(Draws(cfg.sel, s.curr.items, seed, h), Rounds(cfg.sel, s, seed, h))
  }

  /** A recorded power agrees with the emitted one: always at an epoch boundary; at an ordinary height
      1000 stands where 999 plus the number of draws was emitted, which is the same exactly for a
      key drawn once. */
  ghost predicate PowerRecorded(cfg: Config, s: StrategyState, height: int, seed: Option<Seed>, a: TmAddress,
                                recorded: int, emitted: int)
    requires CanChoose(cfg, s, height, seed)
  {
    if height % cfg.epochBlocks == 0 then recorded == emitted
    else
      var draws := Count(Drawn(cfg, s, height, seed), a.key);
      recorded == 1000 && emitted == 999 + draws && (recorded == emitted <==> draws == 1)
  }

  ghost predicate Tracks(cfg: Config, s: StrategyState, height: int, seed: Option<Seed>, m: Tracked,
                         chosen: seq<Update>)
    requires CanChoose(cfg, s, height, seed)
  {
    && Records(s.curr, m, chosen)
    && forall a :: a in m ==> PowerRecorded(cfg, s, height, seed, a, m[a].power, Powers(chosen)[a])
  }

  /** The record names exactly the chosen validators and their signers, with powers as above. */
  lemma RecordTracksChoice(cfg: Config, s: StrategyState, height: int, seed: Option<Seed>)
    requires ConfigOk(cfg) && CanChoose(cfg, s, height, seed) && TableOk(s.curr)
    ensures Tracks(cfg, s, height, seed, RecordOf(cfg, s, height, seed), Chosen(cfg, s, height, seed))
  {
    ChosenBonded(cfg, s, height, seed);
    BondedKnown(s.curr);
    if height % cfg.epochBlocks == 0 {
      SlottedTracks(cfg, s, height, seed);
    } else {
      SelectedTracks(cfg, s, height, seed);
    }
  }

  lemma SlottedTracks(cfg: Config, s: StrategyState, height: int, seed: Option<Seed>)
    requires ConfigOk(cfg) && CanChoose(cfg, s, height, seed) && TableOk(s.curr)
    requires height % cfg.epochBlocks == 0 && NoRepeat(Chosen(cfg, s, height, seed))
    ensures Tracks(cfg, s, height, seed, RecordOf(cfg, s, height, seed), Chosen(cfg, s, height, seed))
  {
    SlottedRecordExact(s.curr, Members(cfg, s, height));
  }

  lemma SelectedTracks(cfg: Config, s: StrategyState, height: int, seed: Option<Seed>)
    requires ConfigOk(cfg) && CanChoose(cfg, s, height, seed) && height % cfg.epochBlocks != 0
    requires NoRepeat(Chosen(cfg, s, height, seed)) && Addrs(Chosen(cfg, s, height, seed)) <= Known(s.curr)
    ensures Tracks(cfg, s, height, seed, RecordOf(cfg, s, height, seed), Chosen(cfg, s, height, seed))
  {
    SelectedRecordExact(s.curr, Drawn(cfg, s, height, seed));
  }

  /** A record that names the members of a choice with their signers. */
  ghost predicate Records(t: Table, m: Tracked, chosen: seq<Update>) {
    && NoRepeat(chosen) && m.Keys == Addrs(chosen) == Powers(chosen).Keys
    && TrackedOk(m)
    && forall a :: a in m ==> a in t.signerOf && m[a].signer == t.signerOf[a]
  }

  lemma SelectedRecordExact(t: Table, ds: seq<PubKey>)
    requires NoRepeat(Tally(ds)) && Addrs(Tally(ds)) <= Known(t)
    ensures var chosen := Tally(ds);
            var m := SelectedRecord(t, Addrs(chosen));
            && Records(t, m, chosen)
            && forall a :: a in m ==> m[a].power == 1000 && Powers(chosen)[a] == 999 + Count(ds, a.key)
  {
    var chosen := Tally(ds);
    forall a | a in Addrs(chosen) ensures a in Powers(chosen) && Powers(chosen)[a] == 999 + Count(ds, a.key) {
      var i :| 0 <= i < |chosen| && Addr(chosen[i]) == a;
      assert Powers(chosen)[Addr(chosen[i])] == chosen[i].power;
    }
  }

  lemma SlottedRecordExact(t: Table, signers: seq<Address>)
    requires TableOk(t) && Lists(signers, t.items) && NoRepeat(Slotted(t.items, signers))
    ensures var chosen := Slotted(t.items, signers);
            var m := SlottedRecord(t, Addrs(chosen));
            Records(t, m, chosen) && forall a :: a in m ==> m[a].power == Powers(chosen)[a]
  {
    var chosen := Slotted(t.items, signers);
    forall a | a in Addrs(chosen)
      ensures a in SlottedRecord(t, Addrs(chosen)) && a in Powers(chosen)
      ensures SlottedRecord(t, Addrs(chosen))[a].power == Powers(chosen)[a]
    {
      var i :| 0 <= i < |chosen| && Addr(chosen[i]) == a;
      assert t.signerOf[a] == signers[i];
    }
  }

  // ---------------------------------------------------------------- who is chosen

  /** The most members an ordinary boundary chooses. */
  function MemberLimit(s: StrategyState): nat {
    if s.dkgLimit <= 0 then 100 else s.dkgLimit
  }

  /** A choice by slots. Each member has as many slots as it is given power. At the height of the
      whitelist everyone bonded is chosen; at any other boundary as many as the limit allows, and
      nobody left out has more slots than a member. */
  ghost predicate BySlots(cfg: Config, s: StrategyState, height: int, chosen: seq<Update>)
    requires |cfg.heights| > 3
  {
    && (forall i :: 0 <= i < |chosen| ==> SlotsOf(s.curr, Addr(chosen[i])) == Some(chosen[i].power))
    && (height == cfg.heights[3] ==> Addrs(chosen) == Bonded(s.curr))
    && (height != cfg.heights[3] ==>
          && |chosen| == (if MemberLimit(s) < |s.curr.items| then MemberLimit(s) else |s.curr.items|)
          && forall g, i :: g in s.curr.items && s.curr.items[g].tmAddress !in Addrs(chosen) && 0 <= i < |chosen| ==>
               s.curr.items[g].slots <= chosen[i].power)
  }

  /** A boundary chooses by slots. */
  lemma BoundaryChoice(cfg: Config, s: StrategyState, height: int, seed: Option<Seed>)
    requires ConfigOk(cfg) && CanChoose(cfg, s, height, seed) && TableOk(s.curr) && height % cfg.epochBlocks == 0
    ensures BySlots(cfg, s, height, Chosen(cfg, s, height, seed))
  {
    var signers, items, chosen := Members(cfg, s, height), s.curr.items, Chosen(cfg, s, height, seed);
    SlottedBonded(cfg, s, height);
    forall g | g in signers ensures g in items && items[g].tmAddress in Addrs(chosen) {
      var i :| 0 <= i < |signers| && signers[i] == g;
      assert Addr(chosen[i]) == items[g].tmAddress;
    }
    assert Ranks(cfg.sel, items, MemberLimit(s));
  }

  /** The slots of a bonded address. */
  function SlotsOf(t: Table, a: TmAddress): Option<int> {
    if a in t.signerOf && t.signerOf[a] in t.items then Some(t.items[t.signerOf[a]].slots) else None
  }

  /** The signer the table picks for draw i of a block: by the seed and the index if the block has a
      seed, else by the height that lies i heights ahead. */
  function PickAt(sel: Selector, items: map<Address, PosItem>, seed: Option<Seed>, height: int, i: nat): Address {
    if seed.Some? then sel.bySeed(items, seed, i) else sel.byHeight(items, height + i)
  }

  /** A list of draws with exactly a number of distinct keys, and no shorter part of it. */
  ghost predicate StopsAt(ds: seq<PubKey>, count: int) {
    |Tally(ds)| == count && forall m :: 0 <= m < |ds| ==> |Tally(ds[..m])| != count
  }

  lemma ExitStops(draw: nat -> PubKey, count: int, n: nat)
    requires IsExit(draw, count, n)
    ensures StopsAt(Prefix(draw, n), count)
  {
    forall m | 0 <= m < n ensures |Tally(Prefix(draw, n)[..m])| != count {
      assert Prefix(draw, n)[..m] == Prefix(draw, m);
      assert Distinct(draw, m) != count;
    }
    assert Distinct(draw, n) == count;
  }

  /** An ordinary height chooses by draws. Draw i is the key of the table's pick for the block's seed,
      or height, and i. The chosen are the distinct keys drawn. From version 2 on there are exactly
      as many as asked for, all of the pool for a count of 0, and the drawing stops there; before
      that the count is the number of draws. */
  lemma OrdinaryChoice(cfg: Config, s: StrategyState, height: int, seed: Option<Seed>)
    requires ConfigOk(cfg) && CanChoose(cfg, s, height, seed) && TableOk(s.curr) && height % cfg.epochBlocks != 0
    requires height != -1
    ensures var ds, count := Drawn(cfg, s, height, seed), if s.selectCount == 0 then |s.curr.items| else s.selectCount;
            && Chosen(cfg, s, height, seed) == Tally(ds)
            && (s.blockVersion >= 2 ==> StopsAt(ds, count))
            && (s.blockVersion < 2 ==> |ds| == if count < 0 then 0 else count)
    ensures forall i :: 0 <= i < |Drawn(cfg, s, height, seed)| ==>
              var g := PickAt(cfg.sel, s.curr.items, seed, height, i);
              g in s.curr.items && Drawn(cfg, s, height, seed)[i] == s.curr.items[g].pubKey
  {
    var h := if seed.Some? then -1 else height;
    RoundsNeedDraws(cfg.sel, s, seed, h);
    forall i | 0 <= i < |Drawn(cfg, s, height, seed)|
      ensures var g := PickAt(cfg.sel, s.curr.items, seed, height, i);
              g in s.curr.items && Drawn(cfg, s, height, seed)[i] == s.curr.items[g].pubKey
    {
      DrawsBonded(cfg.sel, s.curr, seed, h, i);
    }
    if s.blockVersion >= 2 {
      ExitStops(Draws(cfg.sel, s.curr.items, seed, h), Wanted(s), Rounds(cfg.sel, s, seed, h));
    }
  }

  // ---------------------------------------------------------------- the strategy object

  /** The invariant of the selection loops after i draws. */
  ghost predicate Picked(draw: nat -> PubKey, t: Table, i: nat, slice: seq<Update>, index: map<TmAddress, nat>,
                         before: Tracked, now: Tracked)
  {
    && slice == Tally(Prefix(draw, i))
    && IndexOk(slice, index)
    && now == before + SelectedRecord(t, Addrs(slice))
  }

  lemma AddrsSnoc(ups: seq<Update>, u: Update)
    ensures Addrs(ups + [u]) == Addrs(ups) + {Addr(u)}
  {
    AddrsSplit(ups + [u], |ups|);
    assert (ups + [u])[..|ups|] == ups && (ups + [u])[|ups|..] == [u];
    assert Addrs([u]) == {Addr(u)} by { assert Addr([u][0]) == Addr(u); }
  }

  /** Drawing an address that is already in the index. */
  lemma PickedAgain(draw: nat -> PubKey, t: Table, i: nat, slice: seq<Update>, index: map<TmAddress, nat>,
                    before: Tracked, now: Tracked)
    requires Picked(draw, t, i, slice, index, before, now)
    requires AddressOf(draw(i)) in index
    ensures var j := index[AddressOf(draw(i))];
            Picked(draw, t, i + 1, slice[j := Update(slice[j].pubKey, slice[j].power + 1)], index, before, now)
  {
    var ds, k := Prefix(draw, i), draw(i);
    var j := index[AddressOf(k)];
    var slice' := slice[j := Update(slice[j].pubKey, slice[j].power + 1)];
    assert Prefix(draw, i + 1) == ds + [k];
    assert FirstSeen(ds)[j] == slice[j].pubKey == k;
    TallyAgain(ds, k, j);
    SameKeys(slice, slice');
  }

  /** Drawing an address that is not in the index. */
  lemma PickedNew(draw: nat -> PubKey, t: Table, i: nat, slice: seq<Update>, index: map<TmAddress, nat>,
                  before: Tracked, now: Tracked)
    requires Picked(draw, t, i, slice, index, before, now)
    requires AddressOf(draw(i)) !in index && AddressOf(draw(i)) in t.signerOf
    ensures var k := draw(i);
            Picked(draw, t, i + 1, slice + [Update(k, 1000)], index[AddressOf(k) := |slice|], before,
                   now[AddressOf(k) := Validator(k, 1000, t.signerOf[AddressOf(k)])])
  {
    var ds, k := Prefix(draw, i), draw(i);
    assert Prefix(draw, i + 1) == ds + [k];
    assert k !in ds by { TallyKeys(ds); }
    TallyNew(ds, k);
    AddrsSnoc(slice, Update(k, 1000));
    RecordGrows(t, Addrs(slice), AddressOf(k), before);
    IndexAlso(slice, index, Update(k, 1000));
  }

  ghost predicate IndexOk(slice: seq<Update>, index: map<TmAddress, nat>) {
    && index.Keys == Addrs(slice)
    && (forall a :: a in index ==> index[a] < |slice| && Addr(slice[index[a]]) == a)
  }

  lemma IndexAlso(slice: seq<Update>, index: map<TmAddress, nat>, u: Update)
    requires IndexOk(slice, index)
    ensures IndexOk(slice + [u], index[Addr(u) := |slice|])
  {
    AddrsSnoc(slice, u);
  }

  lemma RecordGrows(t: Table, addrs: set<TmAddress>, a: TmAddress, before: Tracked)
    requires a in t.signerOf
    ensures before + SelectedRecord(t, addrs + {a}) ==
            (before + SelectedRecord(t, addrs))[a := Validator(a.key, 1000, t.signerOf[a])]
  {
  }

  lemma OnlySelectedRemain(t: Table, addrs: set<TmAddress>, before: Tracked)
    requires TrackedOk(before) && SelectedRecord(t, addrs).Keys == addrs
    ensures var merged := before + SelectedRecord(t, addrs);
            && TrackedOk(merged)
            && merged.Keys - addrs == before.Keys - addrs
            && merged - (merged.Keys - addrs) == SelectedRecord(t, addrs)
  {
  }

  lemma PickedLength(draw: nat -> PubKey, t: Table, i: nat, slice: seq<Update>, index: map<TmAddress, nat>,
                     before: Tracked, now: Tracked)
    requires Picked(draw, t, i, slice, index, before, now)
    ensures |slice| == Distinct(draw, i)
  {
  }

  lemma StartPicked(draw: nat -> PubKey, t: Table, before: Tracked)
    ensures Picked(draw, t, 0, [], map[], before, before)
  {
    assert Prefix(draw, 0) == [];
    assert before + SelectedRecord(t, {}) == before;
  }

  lemma SlottedGrows(t: Table, slice: seq<Update>, signer: Address)
    requires TableOk(t) && signer in t.items
    ensures var item := t.items[signer];
            SlottedRecord(t, Addrs(slice + [Update(item.pubKey, item.slots)])) ==
            SlottedRecord(t, Addrs(slice))[item.tmAddress := Validator(item.pubKey, item.slots, signer)]
  {
    AddrsSnoc(slice, Update(t.items[signer].pubKey, t.items[signer].slots));
  }

  lemma SlottedKnown(t: Table, addrs: set<TmAddress>)
    requires TableOk(t) && addrs <= Bonded(t)
    ensures SlottedRecord(t, addrs).Keys == addrs
  {
  }

  lemma ForgetAlso(m: Tracked, gone: set<TmAddress>, a: TmAddress)
    ensures (m - gone) - {a} == m - (gone + {a})
  {
  }

  lemma SameKeys(s: seq<Update>, s': seq<Update>)
    requires |s| == |s'| && forall i :: 0 <= i < |s| ==> Addr(s[i]) == Addr(s'[i])
    ensures Addrs(s) == Addrs(s')
  {
    forall a | a in Addrs(s) ensures a in Addrs(s') {
      var i :| 0 <= i < |s| && Addr(s[i]) == a;
      assert Addr(s'[i]) == a;
    }
    forall a | a in Addrs(s') ensures a in Addrs(s) {
      var i :| 0 <= i < |s'| && Addr(s'[i]) == a;
      assert Addr(s[i]) == a;
    }
  }

  lemma RemovalsSnoc(r: seq<Update>, gone: set<TmAddress>, k: PubKey)
    requires Removals(r, gone) && AddressOf(k) !in gone
    ensures Removals(r + [Update(k, 0)], gone + {AddressOf(k)})
  {
    AddrsSnoc(r, Update(k, 0));
    forall i | 0 <= i < |r| ensures Addr(r[i]) != AddressOf(k) {
      assert Addr(r[i]) in Addrs(r);
    }
  }

  /** Everything drawn is known to the table the draws come from. */
  lemma SelectedKnown(sel: Selector, t: Table, seed: Option<Seed>, h: int, n: nat)
    requires ValidSelector(sel) && TableOk(t) && (n > 0 ==> t.items != map[])
    ensures var addrs := Addrs(Tally(Prefix(Draws(sel, t.items, seed, h), n)));
            SelectedRecord(t, addrs).Keys == addrs
  {
    var draw := Draws(sel, t.items, seed, h);
    TallyKeys(Prefix(draw, n));
    forall k | k in Prefix(draw, n) ensures AddressOf(k) in t.signerOf {
      var i :| 0 <= i < n && draw(i) == k;
      DrawsBonded(sel, t, seed, h, i);
    }
  }

  /** The invariant of the removal loop: the addresses in keys are still to be looked at. */
  ghost predicate Removing(was: Tracked, picked: set<TmAddress>, keys: set<TmAddress>, removed: seq<Update>,
                           now: Tracked)
  {
    && keys <= was.Keys
    && Removals(removed, was.Keys - keys - picked)
    && now == was - (was.Keys - keys - picked)
  }

  lemma RemovingNext(was: Tracked, picked: set<TmAddress>, keys: set<TmAddress>, removed: seq<Update>, now: Tracked,
                     a: TmAddress)
    requires TrackedOk(was) && Removing(was, picked, keys, removed, now) && a in keys
    ensures a in picked ==> Removing(was, picked, keys - {a}, removed, now)
    ensures a !in picked ==> a in now && now[a] == was[a] &&
                             Removing(was, picked, keys - {a}, removed + [Update(now[a].pubKey, 0)], now - {a})
  {
    var gone := was.Keys - keys - picked;
    if a in picked {
      assert was.Keys - (keys - {a}) - picked == gone;
    } else {
      RemovalsSnoc(removed, gone, was[a].pubKey);
      ForgetAlso(was, gone, a);
      assert was.Keys - (keys - {a}) - picked == gone + {a};
    }
  }

  class Strategy {
    var height: int
    var validators: Tracked
    var proposer: Option<TmAddress>
    var lastVotes: seq<Vote>
    var curr: Table
    var totalBalance: int
    var minorBonus: int
    var selectCount: int
    var dkgLimit: int
    var next: Table
    var changed: bool
    var hfHeight: int
    var hfPassed: bool
    var blockVersion: nat

    /** All fields as one value. */
    function View(): StrategyState
      reads this
    {
      StrategyState(height, validators, proposer, lastVotes, curr, totalBalance, minorBonus, selectCount, dkgLimit,
                    next, changed, hfHeight, hfPassed, blockVersion)
    }

    constructor (selectCount: int, dkgLimit: int, totalBalance: int)
      ensures View() == Fresh(selectCount, dkgLimit, totalBalance)
    {
      height, validators, proposer, lastVotes := 0, map[], None, [];
      curr, next, changed := EMPTY_TABLE, EMPTY_TABLE, false;
      this.totalBalance, minorBonus, this.selectCount, this.dkgLimit := totalBalance, 0, selectCount, dkgLimit;
      hfHeight, hfPassed, blockVersion := 0, true, 0;
    }

    /** One turn of either selection loop. */
    method Pick(sel: Selector, seed: Option<Seed>, h: int, i: nat, slice: seq<Update>, index: map<TmAddress, nat>,
                ghost before: Tracked)
      returns (slice': seq<Update>, index': map<TmAddress, nat>)
      requires ValidSelector(sel) && TableOk(curr) && curr.items != map[]
      requires Picked(Draws(sel, curr.items, seed, h), curr, i, slice, index, before, validators)
      modifies this`validators
      ensures Picked(Draws(sel, curr.items, seed, h), curr, i + 1, slice', index', before, validators)
    {
      var signer := SignerAt(sel, curr.items, seed, h, i);
      DrawsBonded(sel, curr, seed, h, i);
      var pubKey := curr.items[signer].pubKey;
      var a := AddressOf(pubKey);
      if a in index {
        PickedAgain(Draws(sel, curr.items, seed, h), curr, i, slice, index, before, validators);
        var j := index[a];
        slice', index' := slice[j := Update(slice[j].pubKey, slice[j].power + 1)], index;
      } else {
        PickedNew(Draws(sel, curr.items, seed, h), curr, i, slice, index, before, validators);
        slice', index' := slice + [Update(pubKey, 1000)], index[a := |slice|];
        validators := validators[a := Validator(pubKey, 1000, signer)];
      }
    }

    /** Appends a power-0 entry for every tracked address without a place in the selection, in
        whatever order the map yields them, and forgets those addresses. */
    method RemoveUnselected(picked: set<TmAddress>) returns (removed: seq<Update>)
      requires TrackedOk(validators)
      modifies this`validators
      ensures Removals(removed, old(validators).Keys - picked)
      ensures validators == old(validators) - (old(validators).Keys - picked)
    {
      var keys := validators.Keys;
      removed := [];
      while keys != {}
        invariant Removing(old(validators), picked, keys, removed, validators)
        decreases |keys|
      {
        var a :| a in keys;
        RemovingNext(old(validators), picked, keys, removed, validators, a);
        keys := keys - {a};
        if a !in picked {
          removed := removed + [Update(validators[a].pubKey, 0)];
          validators := validators - {a};
        }
      }
    }

    /** Selection at an ordinary height. */
    method EnterSelectValidators(sel: Selector, seed: Option<Seed>, h: int) returns (ups: seq<Update>)
      requires ValidSelector(sel) && TableOk(curr) && TrackedOk(validators)
      requires Drawable(View()) && SelectionEnds(sel, View(), seed, h)
      modifies this`validators
      ensures Diff(old(validators), old(Selected(sel, View(), seed, h)), ups)
      ensures validators == SelectedRecord(curr, Addrs(old(Selected(sel, View(), seed, h))))
    {
      var count := if selectCount == 0 then |curr.items| else selectCount;
      ghost var rounds := Rounds(sel, View(), seed, h);
      var slice, index;
      if blockVersion >= 2 {
        slice, index := DrawUntil(sel, seed, h, count);
      } else {
        slice, index := DrawTimes(sel, seed, h, count);
      }
      RoundsNeedDraws(sel, old(View()), seed, h);
      SelectedKnown(sel, curr, seed, h, rounds);
      OnlySelectedRemain(curr, Addrs(slice), old(validators));
      var removed := RemoveUnselected(index.Keys);
      ups := slice + removed;
      assert ups[|slice|..] == removed;
    }

    /** From version 2 on: draw until enough distinct addresses have come up. */
    method DrawUntil(sel: Selector, seed: Option<Seed>, h: int, count: int)
      returns (slice: seq<Update>, index: map<TmAddress, nat>)
      requires ValidSelector(sel) && TableOk(curr) && (count > 0 ==> curr.items != map[])
      requires Halts(Draws(sel, curr.items, seed, h), count)
      modifies this`validators
      ensures var draw := Draws(sel, curr.items, seed, h);
              Picked(draw, curr, ExitAt(draw, count), slice, index, old(validators), validators)
    {
      ghost var draw := Draws(sel, curr.items, seed, h);
      ghost var exit := ExitAt(draw, count);
      slice, index := [], map[];
      StartPicked(draw, curr, validators);
      ExitSign(draw, count);
      var i := 0;
      while |slice| != count
        invariant 0 <= i <= exit
        invariant Picked(draw, curr, i, slice, index, old(validators), validators)
        decreases exit - i
      {
        PickedLength(draw, curr, i, slice, index, old(validators), validators);
        slice, index := Pick(sel, seed, h, i, slice, index, old(validators));
        i := i + 1;
      }
      PickedLength(draw, curr, i, slice, index, old(validators), validators);
      assert i == exit;
    }

    /** Before version 2: a fixed number of draws. */
    method DrawTimes(sel: Selector, seed: Option<Seed>, h: int, count: int)
      returns (slice: seq<Update>, index: map<TmAddress, nat>)
      requires ValidSelector(sel) && TableOk(curr) && (count > 0 ==> curr.items != map[])
      modifies this`validators
      ensures Picked(Draws(sel, curr.items, seed, h), curr, if count < 0 then 0 else count, slice, index,
                     old(validators), validators)
    {
      ghost var draw := Draws(sel, curr.items, seed, h);
      slice, index := [], map[];
      StartPicked(draw, curr, validators);
      var i := 0;
      while i < count
        invariant 0 <= i <= if count < 0 then 0 else count
        invariant Picked(draw, curr, i, slice, index, old(validators), validators)
      {
        slice, index := Pick(sel, seed, h, i, slice, index, old(validators));
        i := i + 1;
      }
    }

    /** The member list at an epoch boundary. */
    method BlsValidators(cfg: Config, h: int) returns (ups: seq<Update>)
      requires ConfigOk(cfg) && TableOk(curr) && TrackedOk(validators)
      modifies this`validators
      ensures Lists(Members(cfg, View(), h), curr.items)
      ensures Diff(old(validators), Slotted(curr.items, Members(cfg, View(), h)), ups)
      ensures validators == SlottedRecord(curr, Addrs(Slotted(curr.items, Members(cfg, View(), h))))
    {
      var signers := if h == cfg.heights[3] then cfg.sel.sorted(curr.items)
                     else cfg.sel.topK(curr.items, if dkgLimit <= 0 then 100 else dkgLimit);
      SlottedBonded(cfg, View(), h);
      var slice, current := EnterMembers(signers);
      SlottedKnown(curr, Addrs(slice));
      var removed := RemoveUnselected(current.Keys);
      ups := slice + removed;
      assert ups[|slice|..] == removed;
      validators := current;
    }

    method EnterMembers(signers: seq<Address>) returns (slice: seq<Update>, current: Tracked)
      requires TableOk(curr) && Lists(signers, curr.items)
      ensures slice == Slotted(curr.items, signers)
      ensures current == SlottedRecord(curr, Addrs(slice))
    {
      ghost var chosen := Slotted(curr.items, signers);
      slice, current := [], map[];
      for i := 0 to |signers|
        invariant slice == chosen[..i]
        invariant current == SlottedRecord(curr, Addrs(slice))
      {
        var item := curr.items[signers[i]];
        SlottedGrows(curr, slice, signers[i]);
        slice := slice + [Update(item.pubKey, item.slots)];
        current := current[item.tmAddress := Validator(item.pubKey, item.slots, signers[i])];
      }
    }

    /** The update list of a block: random selection, or the member list at an epoch boundary. */
    method GetUpdatedValidators(cfg: Config, h: int, seed: Option<Seed>) returns (ups: seq<Update>)
      requires ConfigOk(cfg) && TableOk(curr) && TrackedOk(validators)
      requires CanChoose(cfg, View(), h, seed)
      modifies this`validators
      ensures Diff(old(validators), old(Chosen(cfg, View(), h, seed)), ups)
      ensures validators == old(RecordOf(cfg, View(), h, seed))
    {
      if h % cfg.epochBlocks != 0 {
        ups := EnterSelectValidators(cfg.sel, seed, if seed.Some? then -1 else h);
      } else {
        ups := BlsValidators(cfg, h);
      }
    }
  }
}
