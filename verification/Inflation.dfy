/** How much runs mint at most, exactly: for any stretch of blocks there is a run in which each of
    them mints its cap, so the announced one percent a year holds exactly where the caps allow it. */
module Inflation {
  import opened Arithmetic
  import opened Types
  import opened Tendermint
  import opened Strategies
  import opened Forks
  import opened Rewards
  import opened Punishments
  import opened Application
  import opened Chains
  import opened RunProperties
  import opened Scenarios

  // ---------------------------------------------------------------- one validator that owns everything

  const SOLE_GENESIS := [Update(K1, 1)]
  const SOLE_ITEM := PosItem(K1, A1, 1, 1, 1)
  const SOLE_POWER: ValSet := map[A1 := 1]

  /** Epochs of one block, one slot for the whole supply, and version 3 at every height. */
  ghost function SoleConfig(): Config {
    Config(1, [0, 0, 0, 0], [3, 3, 3, 3], 0, 1, Picker(),
           (t: Table, s: Address, h: int) => true, (t: Table, h: int) => {})
  }

  function SoleTable(total: int): Table {
    Table(map[1 := SOLE_ITEM], map[], map[A1 := 1], total)
  }

  /** The votes in the block of a height: the first block has none. */
  function SoleVotes(h: int): seq<Vote> {
    if h <= 1 then [] else [Vote(A1, 1, true)]
  }

  ghost predicate SoleNode(total: int, h: int, s: StrategyState) {
    && s.height == h >= 0 && s.hfPassed && s.selectCount == 0
    && s.curr == s.next == SoleTable(total)
    && Economics(s, total)
    && (h > 0 ==> s.lastVotes == SoleVotes(h) && s.blockVersion == 3)
  }

  ghost predicate Sole(total: int, h: int, c: Chain) {
    && Tracking(c) && SoleNode(total, h, c.node.strategy)
    && c.node.strategy.validators.Keys == {A1}
    && c.tm == Pipeline(if h == 0 then map[] else SOLE_POWER, SOLE_POWER, SOLE_POWER)
  }

  ghost function SoleStart(total: int): Chain {
    var s := Blank(0, 0, total).(next := SoleTable(total), curr := SoleTable(total),
             validators := map[A1 := Validator(K1, 1, 1)]);
    Chain(Node(s, map[1 := total], 0), Pipeline(map[], SOLE_POWER, SOLE_POWER),
          Persist(SoleConfig(), s, EMPTY_STORE))
  }

  lemma SoleChoice()
    ensures Choice(SOLE_GENESIS) && Powers(SOLE_GENESIS) == SOLE_POWER && Addrs(SOLE_GENESIS) == {A1}
  {
    assert Addr(SOLE_GENESIS[0]) == A1;
    assert Addrs(SOLE_GENESIS) == {A1};
    PowersPositive(SOLE_GENESIS);
    assert Powers(SOLE_GENESIS)[Addr(SOLE_GENESIS[0])] == 1;
  }

  lemma SoleEnrolled(total: int)
    requires total > 0
    ensures var g := Genesis(EMPTY_TABLE.(threshold := total), ONE_ACCOUNT, map[], []);
            EnrolAll(0, map[1 := total], g, SOLE_GENESIS) ==
            Genesis(SoleTable(total), ONE_ACCOUNT, map[A1 := Validator(K1, 1, 1)], SOLE_GENESIS)
  {
    var g := Genesis(EMPTY_TABLE.(threshold := total), ONE_ACCOUNT, map[], []);
    assert SOLE_GENESIS[..0] == [];
    assert EnrolAll(0, map[1 := total], g, []) == g;
    assert total / total == 1 && Int64(1) == 1;
  }

  lemma SoleInitial(total: nat)
    requires Int64(total) != 0
    ensures Initial(SoleConfig(), SoleStart(total), ONE_ACCOUNT, SOLE_GENESIS) && Sole(total, 0, SoleStart(total))
  {
    SoleChoice();
    assert total != 0;
    SoleEnrolled(total);
    var c := SoleStart(total);
    assert total / SoleConfig().thresholdUnit == total;
    assert InitialWith(SoleConfig(), c, ONE_ACCOUNT, SOLE_GENESIS, 0, 0, total);
    InitialTracks(SoleConfig(), c, ONE_ACCOUNT, SOLE_GENESIS);
  }

  // ---------------------------------------------------------------- its blocks

  lemma SoleTableOk(total: int)
    ensures TableOk(SoleTable(total)) && DropUnbonded(SoleTable(total), {}) == SoleTable(total)
    ensures Any(SoleTable(total).items) == 1
  {
    assert 1 in SoleTable(total).items;
  }

  lemma SoleVersion(h: int)
    requires h >= 0
    ensures VersionFor(SoleConfig(), true, h, 0) == 3
  {
    VersionIsGreatestReached(SoleConfig().heights, SoleConfig().versions, h, 0, 3);
  }

  lemma SoleProposed(total: int, h: int, p: Punishment, c: Chain) returns (b: Block)
    requires Sole(total, h, c)
    ensures b == Quiet(h + 1, SoleVotes(h + 1), Idle) && Proposed(SoleConfig(), p, c, b)
    ensures var d := Done(SoleConfig(), p, c, b).strategy;
            d == c.node.strategy.(changed := false, height := h + 1, hfHeight := h + 1, proposer := None,
                                  lastVotes := SoleVotes(h + 1), blockVersion := 3)
  {
    b := Quiet(h + 1, SoleVotes(h + 1), Idle);
    SoleTableOk(total);
    SoleVersion(h + 1);
    QuietBegin(SoleConfig(), p, c, b.header, b.votes);
    SoleVotesOf(h);
  }

  lemma SoleVotesOf(h: int)
    requires h >= 0
    ensures VotesOf(SoleVotes(h + 1), if h == 0 then map[] else SOLE_POWER)
    ensures SignedPower(SoleVotes(h + 1)) == Signers(SoleVotes(h + 1)) == (if h == 0 then 0 else 1)
  {
    if h > 0 {
      assert SoleVotes(h + 1)[..0] == [];
      assert SoleVotes(h + 1)[0].address == A1;
    }
  }

  lemma SoleChosen(total: int, t: StrategyState, h: int)
    requires t.curr == SoleTable(total)
    ensures ConfigOk(SoleConfig()) && CanChoose(SoleConfig(), t, h, None)
    ensures Chosen(SoleConfig(), t, h, None) == SOLE_GENESIS
  {
    SoleTableOk(total);
    assert 1 in t.curr.items;
    var signers := Members(SoleConfig(), t, h);
    assert Lists(signers, t.curr.items);
    assert signers[0] == 1 && signers[|signers| - 1] == 1;
    assert signers == [1];
  }

  lemma SoleOffered(total: int, h: int, p: Punishment, c: Chain) returns (b: Block)
    requires Sole(total, h, c)
    ensures Offered(SoleConfig(), p, c, b)
    ensures b == Quiet(h + 1, SoleVotes(h + 1), Idle).(ups := b.ups)
    ensures SoleNode(total, h + 1, Closed(SoleConfig(), p, c, b).strategy)
    ensures Chosen(SoleConfig(), Turned(SoleConfig(), p, c, b), b.header.height, b.seed) == SOLE_GENESIS
  {
    var b0 := SoleProposed(total, h, p, c);
    var ups := Answer(SoleConfig(), p, c, b0);
    b := b0.(ups := ups);
    UpdatesDoNotMatter(SoleConfig(), p, c, b0, ups);
    ClosedFields(SoleConfig(), p, c, b);
    SoleTableOk(total);
    SoleChosen(total, Turned(SoleConfig(), p, c, b), b.header.height);
  }

  lemma SoleStep(total: int, h: int, p: Punishment, c: Chain) returns (b: Block, c': Chain)
    requires Sole(total, h, c)
    ensures Step(SoleConfig(), p, c, b, c') && Sole(total, h + 1, c')
  {
    b := SoleOffered(total, h, p, c);
    SoleResolved(total, h);
    c' := Proceed(SoleConfig(), p, c, b);
    SolePending(SoleConfig(), p, c, b, c');
  }

  lemma SoleResolved(total: int, h: int)
    ensures SoleTable(total).items != map[] && !Unresolved(SoleVotes(h + 1), SoleTable(total))
  {
    assert 1 in SoleTable(total).items;
  }

  lemma SolePending(cfg: Config, p: Punishment, c: Chain, b: Block, c': Chain)
    requires Tracking(c) && Step(cfg, p, c, b, c')
    requires c.tm.pending == SOLE_POWER && c.node.strategy.validators.Keys == {A1}
    requires Chosen(cfg, Turned(cfg, p, c, b), b.header.height, b.seed) == SOLE_GENESIS
    ensures c'.tm.pending == SOLE_POWER && c'.node.strategy.validators.Keys == {A1}
  {
    SoleChoice();
    StepOutline(cfg, p, c, b, c');
    SoleReplaced(cfg, c, c', Done(cfg, p, c, b).strategy.next);
  }

  lemma SoleReplaced(cfg: Config, c: Chain, c': Chain, worked: Table)
    requires Outline(cfg, c, c', SOLE_GENESIS, worked) && Powers(SOLE_GENESIS) == SOLE_POWER
    requires Addrs(SOLE_GENESIS) == {A1} && c.tm.pending == SOLE_POWER && c.node.strategy.validators.Keys == {A1}
    ensures c'.tm.pending == SOLE_POWER && c'.node.strategy.validators.Keys == {A1}
  {
    assert SOLE_POWER - {A1} == map[];
  }

  ghost predicate SoleAt(total: int, cs: seq<Chain>, i: int) {
    0 <= i < |cs| && Sole(total, i, cs[i])
  }

  ghost predicate SoleRunOf(total: int, p: Punishment, cs: seq<Chain>, bs: seq<Block>) {
    Run(SoleConfig(), p, cs, bs) && cs[0] == SoleStart(total) && forall i :: 0 <= i <= |bs| ==> SoleAt(total, cs, i)
  }

  lemma SoleExtend(total: int, p: Punishment, cs: seq<Chain>, bs: seq<Block>, b: Block, c': Chain)
    requires SoleRunOf(total, p, cs, bs) && Run(SoleConfig(), p, cs + [c'], bs + [b]) && Sole(total, |bs| + 1, c')
    ensures SoleRunOf(total, p, cs + [c'], bs + [b])
  {
    forall i | 0 <= i <= |bs| + 1 ensures SoleAt(total, cs + [c'], i) {
      assert i <= |bs| ==> SoleAt(total, cs, i) && (cs + [c'])[i] == cs[i];
    }
  }

  lemma SoleNext(total: int, p: Punishment, cs: seq<Chain>, bs: seq<Block>) returns (cs': seq<Chain>, bs': seq<Block>)
    requires SoleRunOf(total, p, cs, bs)
    ensures SoleRunOf(total, p, cs', bs') && |bs'| == |bs| + 1
  {
    assert SoleAt(total, cs, |bs|);
    var b, c' := SoleStep(total, |bs|, p, cs[|bs|]);
    RunSnoc(SoleConfig(), p, cs, bs, cs[|bs|], b, c');
    SoleExtend(total, p, cs, bs, b, c');
    cs', bs' := cs + [c'], bs + [b];
  }

  /** A run of this chain of any length. */
  lemma {:induction false} SoleRun(total: nat, p: Punishment, n: nat) returns (cs: seq<Chain>, bs: seq<Block>)
    requires Int64(total) != 0
    ensures SoleRunOf(total, p, cs, bs) && |bs| == n
  {
    if n == 0 {
      SoleInitial(total);
      cs, bs := [SoleStart(total)], [];
    } else {
      cs, bs := SoleRun(total, p, n - 1);
      cs, bs := SoleNext(total, p, cs, bs);
    }
  }

  // ---------------------------------------------------------------- every block mints its cap

  lemma SoleMinted(total: int, h: int, s: StrategyState)
    requires h >= 1 && SoleNode(total, h + 1, s)
    ensures Minted(s) == BlockCap(total, h)
  {
    SoleVotesOf(h);
    SaneWeight(s.lastVotes);
  }

  lemma SoleMints(total: int, p: Punishment, cs: seq<Chain>, bs: seq<Block>, i: nat)
    requires Run(SoleConfig(), p, cs, bs) && 1 <= i < |bs| && SoleAt(total, cs, i) && SoleAt(total, cs, i + 1)
    ensures Mints(SoleConfig(), p, cs, bs)[i] == BlockCap(total, i)
  {
    assert Linked(SoleConfig(), p, cs, bs, i);
    StepMints(SoleConfig(), p, cs[i], bs[i], cs[i + 1], total);
    SoleMinted(total, i, cs[i + 1].node.strategy);
  }

  lemma {:induction false} SumIsCap(ms: seq<int>, total: int, lo: nat, hi: nat)
    requires lo <= hi <= |ms| && forall i :: lo <= i < hi ==> ms[i] == BlockCap(total, i)
    ensures SumOf(ms[lo..hi]) == MintCap(total, lo, hi)
  {
    if lo < hi {
      SumIsCap(ms, total, lo, hi - 1);
      SumNext(ms, lo, hi - 1);
    }
  }

  /** The first block of a chain has no voters and mints nothing. */
  lemma FirstMintsNothing(cfg: Config, p: Punishment, cs: seq<Chain>, bs: seq<Block>,
                          accounts: map<TmAddress, Account>, vs: seq<Update>)
    requires Run(cfg, p, cs, bs) && Begins(cfg, cs, accounts, vs) && bs != []
    ensures Mints(cfg, p, cs, bs)[0] == 0
  {
    StartTracks(cfg, cs, accounts, vs);
    StartEconomics(cfg, cs, accounts, vs);
    assert Linked(cfg, p, cs, bs, 0);
    StepMints(cfg, p, cs[0], bs[0], cs[1], cs[0].node.strategy.totalBalance);
    DoneFacts(cfg, p, cs[0], bs[0]);
    assert bs[0].votes == [];
  }

  /** The first block of a stretch that can mint anything. */
  function First(lo: nat): nat {
    if lo == 0 then 1 else lo
  }

  lemma {:induction false} SumSkipsFirst(ms: seq<int>, hi: nat)
    requires 1 <= hi <= |ms| && ms[0] == 0
    ensures SumOf(ms[0..hi]) == SumOf(ms[1..hi])
  {
    SumNext(ms, 0, hi - 1);
    if hi > 1 {
      SumSkipsFirst(ms, hi - 1);
      SumNext(ms, 1, hi - 1);
    }
  }

  lemma SumSkips(ms: seq<int>, lo: nat, hi: nat)
    requires lo <= hi <= |ms| && (hi > 0 ==> ms[0] == 0)
    ensures SumOf(ms[lo..hi]) == if First(lo) <= hi then SumOf(ms[First(lo)..hi]) else 0
  {
    if lo == 0 < hi {
      SumSkipsFirst(ms, hi);
    }
  }

  /** For every genesis balance InitChain accepts and every stretch there is a run with rewards on in
      every block, in which the stretch mints its cap. */
  lemma CapReached(total: nat, p: Punishment, lo: nat, hi: nat) returns (cs: seq<Chain>, bs: seq<Block>)
    requires Int64(total) != 0 && lo <= hi
    ensures Run(SoleConfig(), p, cs, bs) && Begins(SoleConfig(), cs, ONE_ACCOUNT, SOLE_GENESIS) && |bs| == hi
    ensures cs[0].node.strategy.totalBalance == total && RewardsOnFor(cs, 0, hi)
    ensures SumOf(Mints(SoleConfig(), p, cs, bs)[lo..hi]) == MintCap(total, First(lo), hi)
  {
    cs, bs := SoleRun(total, p, hi);
    SoleInitial(total);
    BeginsExactly(SoleConfig(), cs, ONE_ACCOUNT, SOLE_GENESIS);
    SoleRewards(total, p, cs, bs);
    SoleCaps(total, p, cs, bs);
    var ms := Mints(SoleConfig(), p, cs, bs);
    if bs != [] {
      FirstMintsNothing(SoleConfig(), p, cs, bs, ONE_ACCOUNT, SOLE_GENESIS);
    }
    SumSkips(ms, lo, hi);
    if First(lo) <= hi {
      SumIsCap(ms, total, First(lo), hi);
    }
  }

  lemma SoleRewards(total: int, p: Punishment, cs: seq<Chain>, bs: seq<Block>)
    requires SoleRunOf(total, p, cs, bs)
    ensures RewardsOnFor(cs, 0, |bs|)
  {
    forall i | 0 < i <= |bs| ensures RewardsOn(cs, i) {
      assert SoleAt(total, cs, i);
    }
  }

  lemma SoleCaps(total: int, p: Punishment, cs: seq<Chain>, bs: seq<Block>)
    requires SoleRunOf(total, p, cs, bs)
    ensures forall i :: 1 <= i < |bs| ==> Mints(SoleConfig(), p, cs, bs)[i] == BlockCap(total, i)
  {
    forall i | 1 <= i < |bs| ensures Mints(SoleConfig(), p, cs, bs)[i] == BlockCap(total, i) {
      assert SoleAt(total, cs, i) && SoleAt(total, cs, i + 1);
      SoleMints(total, p, cs, bs, i);
    }
  }

  // ---------------------------------------------------------------- exactly

  /** A run of at least hi blocks on a genesis balance. */
  ghost predicate Lives(cfg: Config, p: Punishment, cs: seq<Chain>, bs: seq<Block>, accounts: map<TmAddress, Account>,
                        vs: seq<Update>, total: int, hi: nat)
  {
    && Run(cfg, p, cs, bs) && Begins(cfg, cs, accounts, vs) && hi <= |bs|
    && cs[0].node.strategy.totalBalance == total
  }

  /** Every such run mints at most a bound in blocks lo + 1 to hi. */
  ghost predicate AllWithin(total: int, lo: nat, hi: nat, bound: int)
    requires lo <= hi
  {
    forall cfg: Config, p: Punishment, cs: seq<Chain>, bs: seq<Block>, accounts: map<TmAddress, Account>,
           vs: seq<Update> ::
      Lives(cfg, p, cs, bs, accounts, vs, total, hi) ==> SumOf(Mints(cfg, p, cs, bs)[lo..hi]) <= bound
  }

  lemma StretchWithin(cfg: Config, p: Punishment, cs: seq<Chain>, bs: seq<Block>, accounts: map<TmAddress, Account>,
                      vs: seq<Update>, total: int, lo: nat, hi: nat)
    requires Lives(cfg, p, cs, bs, accounts, vs, total, hi) && lo <= hi
    ensures SumOf(Mints(cfg, p, cs, bs)[lo..hi]) <= MintCap(total, First(lo), hi)
  {
    if bs != [] {
      FirstMintsNothing(cfg, p, cs, bs, accounts, vs);
    }
    SumSkips(Mints(cfg, p, cs, bs), lo, hi);
    if First(lo) <= hi {
      YearlyInflation(cfg, p, cs, bs, accounts, vs, First(lo), hi);
    }
  }

  /** All runs keep a bound on a stretch exactly if the caps of its blocks do, the very first block
      left out. */
  lemma InflationExactly(total: nat, lo: nat, hi: nat, bound: int)
    requires Int64(total) != 0 && lo <= hi
    ensures AllWithin(total, lo, hi, bound) <==> MintCap(total, First(lo), hi) <= bound
  {
    if MintCap(total, First(lo), hi) <= bound {
      forall cfg: Config, p: Punishment, cs: seq<Chain>, bs: seq<Block>, accounts: map<TmAddress, Account>,
             vs: seq<Update> | Lives(cfg, p, cs, bs, accounts, vs, total, hi)
        ensures SumOf(Mints(cfg, p, cs, bs)[lo..hi]) <= bound
      {
        StretchWithin(cfg, p, cs, bs, accounts, vs, total, lo, hi);
      }
    } else {
      var p := Punishment(Percent100, Burn);
      var cs, bs := CapReached(total, p, lo, hi);
      assert Lives(SoleConfig(), p, cs, bs, ONE_ACCOUNT, SOLE_GENESIS, total, hi);
    }
  }

  // ---------------------------------------------------------------- one percent a year

  /** How many of the first n blocks lie at or below the split height. */
  function Early(n: nat): nat {
    if n <= SPLIT_HEIGHT then n else SPLIT_HEIGHT
  }

  lemma {:induction false} CapExactly(total: int, lo: nat, hi: nat)
    requires lo <= hi
    ensures MintCap(total, lo, hi) == (Early(hi) - Early(lo)) * (total / (100 * BLOCKS_PER_YEAR)) +
                                      (hi - Early(hi) - (lo - Early(lo))) * (2 * MinorBonusOf(total))
  {
    if lo < hi {
      CapExactly(total, lo, hi - 1);
      OneMore(Early(hi - 1) - Early(lo), total / (100 * BLOCKS_PER_YEAR));
      OneMore(hi - 1 - Early(hi - 1) - (lo - Early(lo)), 2 * MinorBonusOf(total));
    }
  }

  /** Both bonuses against the genesis balance. */
  lemma Bonuses(total: nat)
    ensures var small, large := total / (100 * BLOCKS_PER_YEAR), MinorBonusOf(total);
            && 0 <= small <= large && (large <= 1 ==> small == 0)
            && 315360000 * large <= total < 315360000 * (large + 1)
  {
    Division(total, 100 * (BLOCKS_PER_YEAR / 2));
    Division(total, 100 * BLOCKS_PER_YEAR);
    BonusesPositive(total);
  }

  /** One year's cap against one percent, with the numbers of blocks up to the split height and past
      it. Past it lie at least 2719200 of them. */
  lemma YearCap(total: nat, small: int, large: int, early: int, late: int, percent: int)
    requires 0 <= small <= large && (large <= 1 ==> small == 0) && early >= 0 && late >= 2719200
    requires 315360000 * large <= total < 315360000 * (large + 1)
    requires 100 * percent <= total < 100 * (percent + 1)
    ensures early * small + late * (2 * large) <= percent <==>
            large == 0 || (large == 1 && 200 * late <= total)
  {
    if large >= 2 {
      MulBetween(2 * large, 2719200, late);
      MulBetween(small, 0, early);
    }
  }

  /** The announced one percent a year, for the year of blocks that follows any block lo: all runs keep
      it exactly if the bonus of Info is zero, or is one and the genesis balance covers the blocks
      past the split height. With a bonus of two or more no year is safe. */
  lemma OnePercentExactly(total: nat, lo: nat, hi: nat)
    requires Int64(total) != 0 && hi == lo + BLOCKS_PER_YEAR
    ensures AllWithin(total, lo, hi, total / 100) <==>
            MinorBonusOf(total) == 0 || (MinorBonusOf(total) == 1 && 200 * (hi - SPLIT_HEIGHT) <= total)
  {
    InflationExactly(total, lo, hi, total / 100);
    YearExactly(total, lo, hi);
  }

  lemma YearExactly(total: nat, lo: nat, hi: nat)
    requires hi == lo + BLOCKS_PER_YEAR
    ensures MintCap(total, First(lo), hi) <= total / 100 <==>
            || MinorBonusOf(total) == 0
            || (MinorBonusOf(total) == 1 && 200 * (hi - SPLIT_HEIGHT) <= total)
  {
    var early, late := Early(hi) - Early(First(lo)), hi - Early(hi) - (First(lo) - Early(First(lo)));
    CapExactly(total, First(lo), hi);
    Bonuses(total);
    Division(total, 100);
    YearCap(total, total / (100 * BLOCKS_PER_YEAR), MinorBonusOf(total), early, late, total / 100);
    assert lo <= SPLIT_HEIGHT ==> late == hi - SPLIT_HEIGHT;
  }
}
