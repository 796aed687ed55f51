/** Further properties of whole runs: slashing, inflation, the fork schedule and the proposer. */
module RunProperties {
  import opened Arithmetic
  import opened Types
  import opened Tendermint
  import opened Strategies
  import opened Ledger
  import opened Forks
  import opened Rewards
  import opened Punishments
  import opened Application
  import opened GenesisProofs
  import opened Chains

  // ---------------------------------------------------------------- slashing takes effect

  /** No transaction of the block bonds the address again. */
  ghost predicate KeepsOut(cfg: Config, p: Punishment, c: Chain, b: Block, a: TmAddress) {
    && |cfg.versions| == |cfg.heights|
    && var n := Begin(cfg, p, c.node, b.header, b.votes, b.evidence);
       n.Some? ==> a !in Bonded(n.value.strategy.next) ==> a !in Bonded(b.exec(StakeOf(n.value)).next)
  }

  /** No transaction of blocks lo to hi - 1 does. */
  ghost predicate StaysOut(cfg: Config, p: Punishment, cs: seq<Chain>, bs: seq<Block>, a: TmAddress, lo: nat, hi: nat) {
    hi <= |bs| <= |cs| && forall j :: lo <= j < hi ==> KeptOut(cfg, p, cs, bs, a, j)
  }

  ghost predicate KeptOut(cfg: Config, p: Punishment, cs: seq<Chain>, bs: seq<Block>, a: TmAddress, j: int) {
    0 <= j < |bs| && j < |cs| && KeepsOut(cfg, p, cs[j], bs[j], a)
  }

  ghost predicate Unbonded(c: Chain, a: TmAddress) {
    a !in Bonded(c.node.strategy.next)
  }

  /** Not bonded in either table and not tracked. */
  ghost predicate Out(c: Chain, a: TmAddress) {
    Unbonded(c, a) && a !in Bonded(c.node.strategy.curr) && a !in c.node.strategy.validators
  }

  /** The address is in a validator set exactly if it was pending without being tracked in chain c,
      and then with the power it had there. */
  ghost predicate LeftOver(c: Chain, vals: ValSet, a: TmAddress) {
    && (a in vals <==> a in Untracked(c))
    && (a in vals ==> vals[a] == c.tm.pending[a])
  }

  lemma SlashedUnbonded(t: Table, evidence: seq<TmAddress>, h: int, a: TmAddress)
    requires TableOk(t)
    ensures a in evidence || a !in Bonded(t) ==> a !in Bonded(Slashed(t, Found(t, evidence), h))
  {
    if s :| s in Slashed(t, Found(t, evidence), h).items && t.items[s].tmAddress == a {
      assert t.signerOf[a] == s;
      assert a in Bonded(t);
    }
  }

  /** Evidence unbonds at once; without a new bond it stays that way. */
  lemma DoneUnbonded(cfg: Config, p: Punishment, c: Chain, b: Block, a: TmAddress)
    requires NodeOk(c.node.strategy) && Offered(cfg, p, c, b) && KeepsOut(cfg, p, c, b, a)
    requires a in b.evidence || Unbonded(c, a)
    ensures a !in Bonded(Done(cfg, p, c, b).strategy.next)
    ensures a !in Bonded(Closed(cfg, p, c, b).strategy.next)
  {
    var opening := Opened(cfg, c.node.strategy, b.header, b.votes);
    var k := Stake(opening.next, false, c.node.balances);
    SlashedTable(cfg, p, k, b.evidence, b.header.height);
    SlashedUnbonded(k.next, b.evidence, b.header.height, a);
    var d := Done(cfg, p, c, b).strategy;
    DoneFacts(cfg, p, c, b);
    DropKeepsBonded(d.next, cfg.expired(d.next, d.height));
  }

  lemma StepUnbonded(cfg: Config, p: Punishment, c: Chain, b: Block, c': Chain, a: TmAddress)
    requires Tracking(c) && Step(cfg, p, c, b, c') && KeepsOut(cfg, p, c, b, a)
    requires a in b.evidence || Unbonded(c, a)
    ensures Unbonded(c', a)
    ensures a !in Bonded(Done(cfg, p, c, b).strategy.next)
  {
    DoneUnbonded(cfg, p, c, b, a);
  }

  /** The first boundary takes the address out of the snapshot and of the record, and it does not
      come back. */
  lemma StepOut(cfg: Config, p: Punishment, c: Chain, b: Block, c': Chain, a: TmAddress)
    requires Tracking(c) && Step(cfg, p, c, b, c') && KeepsOut(cfg, p, c, b, a)
    requires a in b.evidence || Unbonded(c, a)
    requires Epoch(cfg, b.header.height) || Out(c, a)
    ensures Out(c', a) && LeftOver(c, c'.tm.pending, a)
  {
    var chosen, worked := Chosen(cfg, Turned(cfg, p, c, b), b.header.height, b.seed), Done(cfg, p, c, b).strategy.next;
    StepUnbonded(cfg, p, c, b, c', a);
    StepOutline(cfg, p, c, b, c');
    OutlineTracks(cfg, c, c', chosen, worked);
    OutlineLeaves(cfg, c, c', chosen, worked, a);
  }

  /** A block does not touch an address it neither tracks nor chooses. */
  lemma OutlineLeaves(cfg: Config, c: Chain, c': Chain, chosen: seq<Update>, worked: Table, a: TmAddress)
    requires Tracking(c) && Outline(cfg, c, c', chosen, worked) && a !in Addrs(chosen)
    ensures LeftOver(c, c'.tm.pending, a)
  {
    PowersPositive(chosen);
  }

  lemma {:induction false} UnbondedFrom(cfg: Config, p: Punishment, cs: seq<Chain>, bs: seq<Block>, a: TmAddress,
                                        i: nat, k: nat)
    requires Run(cfg, p, cs, bs) && i < k < |cs| && Tracking(cs[0]) && a in bs[i].evidence
    requires StaysOut(cfg, p, cs, bs, a, i, k)
    ensures Unbonded(cs[k], a)
  {
    if i + 1 < k {
      UnbondedFrom(cfg, p, cs, bs, a, i, k - 1);
    }
    TracksFrom(cfg, p, cs, bs, 0, k - 1);
    assert KeptOut(cfg, p, cs, bs, a, k - 1);
    NextUnbonded(cfg, p, cs, bs, a, k - 1);
  }

  lemma NextUnbonded(cfg: Config, p: Punishment, cs: seq<Chain>, bs: seq<Block>, a: TmAddress, i: nat)
    requires Run(cfg, p, cs, bs) && i < |bs| && Tracking(cs[i]) && KeptOut(cfg, p, cs, bs, a, i)
    requires a in bs[i].evidence || Unbonded(cs[i], a)
    ensures Unbonded(cs[i + 1], a)
  {
    assert Linked(cfg, p, cs, bs, i);
    StepUnbonded(cfg, p, cs[i], bs[i], cs[i + 1], a);
  }

  lemma NextOut(cfg: Config, p: Punishment, cs: seq<Chain>, bs: seq<Block>, a: TmAddress, i: nat)
    requires Run(cfg, p, cs, bs) && i < |bs| && Tracking(cs[i]) && KeptOut(cfg, p, cs, bs, a, i)
    requires a in bs[i].evidence || Unbonded(cs[i], a)
    requires cfg.epochBlocks >= 1 && (Epoch(cfg, bs[i].header.height) || Out(cs[i], a))
    ensures Out(cs[i + 1], a) && LeftOver(cs[i], cs[i + 1].tm.pending, a)
  {
    assert Linked(cfg, p, cs, bs, i);
    StepOut(cfg, p, cs[i], bs[i], cs[i + 1], a);
  }

  lemma {:induction false} OutFrom(cfg: Config, p: Punishment, cs: seq<Chain>, bs: seq<Block>, a: TmAddress,
                                   i: nat, m: nat, k: nat)
    requires Run(cfg, p, cs, bs) && i <= m < k < |cs| && Tracking(cs[0])
    requires a in bs[i].evidence && cfg.epochBlocks >= 1 && Epoch(cfg, bs[m].header.height)
    requires StaysOut(cfg, p, cs, bs, a, i, k)
    ensures Out(cs[k], a) && LeftOver(cs[m], cs[k].tm.pending, a)
  {
    AccusedOrOut(cfg, p, cs, bs, a, i, k);
    if m < k - 1 {
      OutFrom(cfg, p, cs, bs, a, i, m, k - 1);
    }
    NextOut(cfg, p, cs, bs, a, k - 1);
  }

  lemma AccusedOrOut(cfg: Config, p: Punishment, cs: seq<Chain>, bs: seq<Block>, a: TmAddress, i: nat, k: nat)
    requires Run(cfg, p, cs, bs) && i < k < |cs| && Tracking(cs[0]) && a in bs[i].evidence
    requires StaysOut(cfg, p, cs, bs, a, i, k)
    ensures Tracking(cs[k - 1]) && KeptOut(cfg, p, cs, bs, a, k - 1)
    ensures a in bs[k - 1].evidence || Unbonded(cs[k - 1], a)
  {
    TracksFrom(cfg, p, cs, bs, 0, k - 1);
    if i < k - 1 {
      UnbondedFrom(cfg, p, cs, bs, a, i, k - 1);
    }
  }

  /** A validator named by evidence in block i, and not bonded again, is out of the snapshot from
      the first boundary m >= i on, and out of Tendermint's sets, the pending one with block m, the
      running one a block later, the voting one two blocks later, unless it was pending without
      being tracked when block m came. Exactly then it stays there, with the same power; it is a
      genesis validator that InitChain did not enrol. */
  lemma SlashingTakesEffect(cfg: Config, p: Punishment, cs: seq<Chain>, bs: seq<Block>,
                            accounts: map<TmAddress, Account>, vs: seq<Update>, a: TmAddress, i: nat, m: nat, k: nat)
    requires Run(cfg, p, cs, bs) && Begins(cfg, cs, accounts, vs) && i <= m < k < |cs|
    requires a in bs[i].evidence && cfg.epochBlocks >= 1 && Epoch(cfg, bs[m].header.height)
    requires StaysOut(cfg, p, cs, bs, a, i, k)
    ensures a !in Bonded(cs[k].node.strategy.curr) && a !in cs[k].node.strategy.validators
    ensures LeftOver(cs[m], cs[k].tm.pending, a)
    ensures k > m + 1 ==> LeftOver(cs[m], cs[k].tm.current, a)
    ensures k > m + 2 ==> LeftOver(cs[m], cs[k].tm.last, a)
    ensures a in Untracked(cs[m]) ==> a in Addrs(vs) - cs[0].node.strategy.validators.Keys
  {
    StartTracks(cfg, cs, accounts, vs);
    TracksFrom(cfg, p, cs, bs, 0, m);
    OutFrom(cfg, p, cs, bs, a, i, m, k);
    if k > m + 1 {
      OutFrom(cfg, p, cs, bs, a, i, m, k - 1);
      Shifted(cfg, p, cs, bs, k - 1);
    }
    if k > m + 2 {
      OutFrom(cfg, p, cs, bs, a, i, m, k - 2);
      Shifted(cfg, p, cs, bs, k - 2);
    }
  }

  lemma Shifted(cfg: Config, p: Punishment, cs: seq<Chain>, bs: seq<Block>, i: nat)
    requires Run(cfg, p, cs, bs) && i < |bs|
    ensures cs[i + 1].tm.current == cs[i].tm.pending && cs[i + 1].tm.last == cs[i].tm.current
  {
    assert Linked(cfg, p, cs, bs, i);
  }

  // ---------------------------------------------------------------- inflation

  ghost predicate Economics(s: StrategyState, total: int) {
    s.totalBalance == total >= 0 && s.minorBonus == MinorBonusOf(total)
  }

  /** What Commit added to the total balance in block i. */
  ghost function MintedIn(cfg: Config, p: Punishment, cs: seq<Chain>, bs: seq<Block>, i: nat): int
    requires Run(cfg, p, cs, bs) && i < |bs|
  {
    assert Linked(cfg, p, cs, bs, i);
    Total(cs[i + 1].node.balances) - Total(Closed(cfg, p, cs[i], bs[i]).balances)
  }

  /** What each block of a run minted. */
  ghost function Mints(cfg: Config, p: Punishment, cs: seq<Chain>, bs: seq<Block>): seq<int>
    requires Run(cfg, p, cs, bs)
  {
    seq(|bs|, i requires 0 <= i < |bs| => MintedIn(cfg, p, cs, bs, i))
  }

  function SumOf(ms: seq<int>): int {
    if ms == [] then 0 else SumOf(ms[..|ms| - 1]) + ms[|ms| - 1]
  }

  lemma {:induction false} EconomicsKept(cfg: Config, p: Punishment, cs: seq<Chain>, bs: seq<Block>, total: int, i: nat)
    requires Run(cfg, p, cs, bs) && i < |cs| && Tracking(cs[0]) && Economics(cs[0].node.strategy, total)
    ensures Economics(cs[i].node.strategy, total)
    ensures cs[i].node.strategy.height == cs[0].node.strategy.height + i
  {
    if i > 0 {
      EconomicsKept(cfg, p, cs, bs, total, i - 1);
      TracksFrom(cfg, p, cs, bs, 0, i - 1);
      NextEconomics(cfg, p, cs, bs, i - 1);
    }
  }

  lemma NextEconomics(cfg: Config, p: Punishment, cs: seq<Chain>, bs: seq<Block>, i: nat)
    requires Run(cfg, p, cs, bs) && i < |bs| && Tracking(cs[i])
    ensures var s, s' := cs[i].node.strategy, cs[i + 1].node.strategy;
            s'.totalBalance == s.totalBalance && s'.minorBonus == s.minorBonus && s'.height == s.height + 1
  {
    assert Linked(cfg, p, cs, bs, i);
    StepOutline(cfg, p, cs[i], bs[i], cs[i + 1]);
  }

  lemma StepMints(cfg: Config, p: Punishment, c: Chain, b: Block, c': Chain, total: int)
    requires Tracking(c) && Economics(c.node.strategy, total) && Step(cfg, p, c, b, c')
    ensures var e := Closed(cfg, p, c, b);
            && Total(c'.node.balances) - Total(e.balances) == Minted(e.strategy)
            && e.strategy == c'.node.strategy && Economics(e.strategy, total) && VotesSane(e.strategy.lastVotes)
  {
    DoneFacts(cfg, p, c, b);
    var e := Closed(cfg, p, c, b);
    assert VotesSane(b.votes);
    BlockIssuance(e.strategy, e.coinbase, e.balances);
  }

  /** One block of a run: nothing from version 4 on, and otherwise at most the bonus of its height; past
      the split height the proposer alone gets one. */
  lemma BlockMints(cfg: Config, p: Punishment, cs: seq<Chain>, bs: seq<Block>, total: int, i: nat)
    requires Run(cfg, p, cs, bs) && i < |bs| && Tracking(cs[0]) && Economics(cs[0].node.strategy, total)
    ensures var minted, s := MintedIn(cfg, p, cs, bs, i), cs[i + 1].node.strategy;
            && (s.blockVersion >= NO_REWARD_VERSION ==> minted == 0)
            && (s.height <= SPLIT_HEIGHT ==> 0 <= minted <= total / (100 * BLOCKS_PER_YEAR))
            && (s.height > SPLIT_HEIGHT ==> 0 <= minted <= 2 * MinorBonusOf(total))
            && (s.height > SPLIT_HEIGHT && s.blockVersion < NO_REWARD_VERSION ==> MinorBonusOf(total) <= minted)
  {
    TracksFrom(cfg, p, cs, bs, 0, i);
    EconomicsKept(cfg, p, cs, bs, total, i);
    assert Linked(cfg, p, cs, bs, i);
    StepMints(cfg, p, cs[i], bs[i], cs[i + 1], total);
    MintedBounds(cs[i + 1].node.strategy);
  }

  /** The most the block after i others can mint: one bonus up to the split height, and beyond it
      twice the larger bonus of Info. */
  function BlockCap(total: int, i: nat): int {
    if i < SPLIT_HEIGHT then total / (100 * BLOCKS_PER_YEAR) else 2 * MinorBonusOf(total)
  }

  function MintCap(total: int, lo: nat, hi: nat): int {
    if hi <= lo then 0 else MintCap(total, lo, hi - 1) + BlockCap(total, hi - 1)
  }

  lemma {:induction false} SumWithinCap(ms: seq<int>, total: int, lo: nat, hi: nat)
    requires lo <= hi <= |ms| && forall i :: lo <= i < hi ==> 0 <= ms[i] <= BlockCap(total, i)
    ensures 0 <= SumOf(ms[lo..hi]) <= MintCap(total, lo, hi)
  {
    if lo < hi {
      SumWithinCap(ms, total, lo, hi - 1);
      SumNext(ms, lo, hi - 1);
    }
  }

  lemma {:induction false} CapAtMost(total: int, lo: nat, hi: nat, q: int)
    requires lo <= hi && forall i :: lo <= i < hi ==> BlockCap(total, i) <= q
    ensures MintCap(total, lo, hi) <= (hi - lo) * q
  {
    if lo < hi {
      CapAtMost(total, lo, hi - 1, q);
      OneMore(hi - 1 - lo, q);
    }
  }

  lemma OneMore(n: int, q: int)
    ensures (n + 1) * q == n * q + q
  {
  }

  lemma MintWithinCap(cfg: Config, p: Punishment, cs: seq<Chain>, bs: seq<Block>, total: int, i: nat)
    requires Run(cfg, p, cs, bs) && i < |bs| && Tracking(cs[0]) && Economics(cs[0].node.strategy, total)
    requires cs[0].node.strategy.height == 0
    ensures 0 <= Mints(cfg, p, cs, bs)[i] <= BlockCap(total, i)
    ensures i >= SPLIT_HEIGHT && cs[i + 1].node.strategy.blockVersion < NO_REWARD_VERSION ==>
              MinorBonusOf(total) <= Mints(cfg, p, cs, bs)[i]
  {
    EconomicsKept(cfg, p, cs, bs, total, i + 1);
    BlockMints(cfg, p, cs, bs, total, i);
  }

  /** What a stretch of blocks mints stays within its cap. */
  lemma StretchMints(cfg: Config, p: Punishment, cs: seq<Chain>, bs: seq<Block>, total: int, lo: nat, hi: nat)
    requires Run(cfg, p, cs, bs) && Tracking(cs[0]) && Economics(cs[0].node.strategy, total)
    requires cs[0].node.strategy.height == 0 && lo <= hi <= |bs|
    ensures 0 <= SumOf(Mints(cfg, p, cs, bs)[lo..hi]) <= MintCap(total, lo, hi)
  {
    forall i | lo <= i < hi ensures 0 <= Mints(cfg, p, cs, bs)[i] <= BlockCap(total, i) {
      MintWithinCap(cfg, p, cs, bs, total, i);
    }
    SumWithinCap(Mints(cfg, p, cs, bs), total, lo, hi);
  }

  /** Inflation: a stretch of one year's blocks, wherever it lies in a run, mints at most four
      percent of the genesis balance, and all blocks up to height 3588000 together less than
      three fifths of a percent. */
  lemma YearlyInflation(cfg: Config, p: Punishment, cs: seq<Chain>, bs: seq<Block>,
                        accounts: map<TmAddress, Account>, vs: seq<Update>, lo: nat, hi: nat)
    requires Run(cfg, p, cs, bs) && Begins(cfg, cs, accounts, vs) && lo <= hi <= |bs|
    ensures var total, minted := cs[0].node.strategy.totalBalance, SumOf(Mints(cfg, p, cs, bs)[lo..hi]);
            && 0 <= minted <= MintCap(total, lo, hi)
            && (hi - lo <= BLOCKS_PER_YEAR ==> minted <= total / 25)
            && (hi <= SPLIT_HEIGHT ==> minted <= total / 175)
  {
    StartTracks(cfg, cs, accounts, vs);
    StartEconomics(cfg, cs, accounts, vs);
    StretchMints(cfg, p, cs, bs, cs[0].node.strategy.totalBalance, lo, hi);
    CapRates(cs[0].node.strategy.totalBalance, lo, hi);
  }

  lemma CapRates(total: int, lo: nat, hi: nat)
    requires total >= 0 && lo <= hi
    ensures hi - lo <= BLOCKS_PER_YEAR ==> MintCap(total, lo, hi) <= total / 25
    ensures hi <= SPLIT_HEIGHT ==> MintCap(total, lo, hi) <= total / 175
  {
    Rates(total);
    if hi - lo <= BLOCKS_PER_YEAR {
      CapWithin(total, lo, hi, 2 * MinorBonusOf(total), BLOCKS_PER_YEAR);
    }
    if hi <= SPLIT_HEIGHT {
      CapWithin(total, lo, hi, total / (100 * BLOCKS_PER_YEAR), SPLIT_HEIGHT);
    }
  }

  lemma CapWithin(total: int, lo: nat, hi: nat, q: int, n: int)
    requires lo <= hi && hi - lo <= n && q >= 0 && forall i :: lo <= i < hi ==> BlockCap(total, i) <= q
    ensures MintCap(total, lo, hi) <= n * q
  {
    CapAtMost(total, lo, hi, q);
    MulBetween(q, hi - lo, n);
  }

  lemma Rates(total: int)
    requires total >= 0
    ensures BLOCKS_PER_YEAR * (2 * MinorBonusOf(total)) <= total / 25
    ensures SPLIT_HEIGHT * (total / (100 * BLOCKS_PER_YEAR)) <= total / 175
    ensures 0 <= total / (100 * BLOCKS_PER_YEAR) <= 2 * MinorBonusOf(total)
  {
    Ratio(total, 100 * (BLOCKS_PER_YEAR / 2), 2 * BLOCKS_PER_YEAR, 25);
    Ratio(total, 100 * BLOCKS_PER_YEAR, SPLIT_HEIGHT, 175);
    Ratio(total, 100 * BLOCKS_PER_YEAR, 1, 100 * (BLOCKS_PER_YEAR / 2));
  }

  lemma Ratio(total: int, d: int, n: int, k: int)
    requires total >= 0 && d > 0 && k > 0 && n >= 0 && k * n <= d
    ensures 0 <= total / d && n * (total / d) <= total / k
  {
    var q := total / d;
    Division(total, d);
    DivAtLeast(total, d, 0);
    MulBetween(q, k * n, d);
    assert k * (n * q) == (k * n) * q;
    DivAtLeast(total, k, n * q);
  }

  /** Rewards are on in block i, and in blocks lo + 1 to hi. */
  ghost predicate RewardsOn(cs: seq<Chain>, i: int) {
    0 <= i < |cs| && cs[i].node.strategy.blockVersion < NO_REWARD_VERSION
  }

  ghost predicate RewardsOnFor(cs: seq<Chain>, lo: int, hi: int) {
    forall i :: lo < i <= hi ==> RewardsOn(cs, i)
  }

  /** The one percent a year that the code announces is not kept: past the split height every year
      of blocks below version 4 mints more, in any run, once the bonus is not zero. */
  lemma LateYearExceeds(cfg: Config, p: Punishment, cs: seq<Chain>, bs: seq<Block>,
                        accounts: map<TmAddress, Account>, vs: seq<Update>, lo: nat, hi: nat)
    requires Run(cfg, p, cs, bs) && Begins(cfg, cs, accounts, vs)
    requires SPLIT_HEIGHT <= lo && hi == lo + BLOCKS_PER_YEAR <= |bs| && RewardsOnFor(cs, lo, hi)
    requires MinorBonusOf(cs[0].node.strategy.totalBalance) > 0
    ensures SumOf(Mints(cfg, p, cs, bs)[lo..hi]) > cs[0].node.strategy.totalBalance / 100
  {
    var total := cs[0].node.strategy.totalBalance;
    StartTracks(cfg, cs, accounts, vs);
    StartEconomics(cfg, cs, accounts, vs);
    LateMints(cfg, p, cs, bs, total, lo, hi);
    LateSum(Mints(cfg, p, cs, bs), total, lo, hi);
  }

  lemma LateSum(ms: seq<int>, total: int, lo: nat, hi: nat)
    requires hi == lo + BLOCKS_PER_YEAR <= |ms| && MinorBonusOf(total) > 0
    requires forall i :: lo <= i < hi ==> MinorBonusOf(total) <= ms[i]
    ensures SumOf(ms[lo..hi]) > total / 100
  {
    SumAbove(ms, lo, hi, MinorBonusOf(total));
    TwoPercent(total);
  }

  lemma LateMints(cfg: Config, p: Punishment, cs: seq<Chain>, bs: seq<Block>, total: int, lo: nat, hi: nat)
    requires Run(cfg, p, cs, bs) && Tracking(cs[0]) && Economics(cs[0].node.strategy, total)
    requires cs[0].node.strategy.height == 0 && SPLIT_HEIGHT <= lo <= hi <= |bs| && RewardsOnFor(cs, lo, hi)
    ensures forall i :: lo <= i < hi ==> MinorBonusOf(total) <= Mints(cfg, p, cs, bs)[i]
  {
    forall i | lo <= i < hi ensures MinorBonusOf(total) <= Mints(cfg, p, cs, bs)[i] {
      assert RewardsOn(cs, i + 1);
      MintWithinCap(cfg, p, cs, bs, total, i);
    }
  }

  lemma {:induction false} SumAbove(ms: seq<int>, lo: nat, hi: nat, q: int)
    requires lo <= hi <= |ms| && forall i :: lo <= i < hi ==> q <= ms[i]
    ensures (hi - lo) * q <= SumOf(ms[lo..hi])
  {
    if lo < hi {
      SumAbove(ms, lo, hi - 1, q);
      SumNext(ms, lo, hi - 1);
      OneMore(hi - 1 - lo, q);
    }
  }

  lemma SumNext(ms: seq<int>, lo: nat, hi: nat)
    requires lo <= hi < |ms|
    ensures SumOf(ms[lo..hi + 1]) == SumOf(ms[lo..hi]) + ms[hi]
  {
    assert ms[lo..hi + 1][..hi - lo] == ms[lo..hi];
  }

  lemma TwoPercent(total: int)
    requires MinorBonusOf(total) > 0
    ensures BLOCKS_PER_YEAR * MinorBonusOf(total) > total / 100
  {
    var q := MinorBonusOf(total);
    Division(total, 100 * (BLOCKS_PER_YEAR / 2));
    DivBelow(total, 100, BLOCKS_PER_YEAR * q);
  }

  lemma InitialEconomics(cfg: Config, c: Chain, accounts: map<TmAddress, Account>, vs: seq<Update>)
    requires Initial(cfg, c, accounts, vs)
    ensures Economics(c.node.strategy, c.node.strategy.totalBalance) && c.node.strategy.hfPassed
  {
    var sc: int, dk: int, tb: nat :| InitialWith(cfg, c, accounts, vs, sc, dk, tb);
    FoundedFacts(cfg, c.node.(strategy := Blank(sc, dk, tb)), accounts, vs);
  }

  lemma StartEconomics(cfg: Config, cs: seq<Chain>, accounts: map<TmAddress, Account>, vs: seq<Update>)
    requires Begins(cfg, cs, accounts, vs)
    ensures Economics(cs[0].node.strategy, cs[0].node.strategy.totalBalance) && cs[0].node.strategy.hfPassed
  {
    BeginsExactly(cfg, cs, accounts, vs);
    InitialEconomics(cfg, cs[0], accounts, vs);
  }

  // ---------------------------------------------------------------- supply

  /** The transactions of a block neither make nor destroy money, and leave nobody in debt. */
  ghost predicate KeepsSupply(cfg: Config, p: Punishment, c: Chain, b: Block) {
    && |cfg.versions| == |cfg.heights|
    && var n := Begin(cfg, p, c.node, b.header, b.votes, b.evidence);
       n.Some? && NonNegative(n.value.balances) ==>
         var after := b.exec(StakeOf(n.value)).balances;
         NonNegative(after) && Total(after) == Total(n.value.balances)
  }

  ghost predicate SupplyKept(cfg: Config, p: Punishment, cs: seq<Chain>, bs: seq<Block>, i: int) {
    0 <= i < |bs| && i < |cs| && KeepsSupply(cfg, p, cs[i], bs[i])
  }

  /** Up to Commit a block moves money only; burning is the one thing that destroys it. */
  lemma BlockConserves(cfg: Config, p: Punishment, c: Chain, b: Block)
    requires Offered(cfg, p, c, b) && KeepsSupply(cfg, p, c, b) && NonNegative(c.node.balances)
    ensures var after := Closed(cfg, p, c, b).balances;
            && NonNegative(after)
            && (p.sub.Transfer? ==> Total(after) == Total(c.node.balances))
            && Total(after) <= Total(c.node.balances)
  {
    var opening := Opened(cfg, c.node.strategy, b.header, b.votes);
    SlashingConserves(cfg, p, Stake(opening.next, opening.changed, c.node.balances), b.evidence, b.header.height);
  }

  lemma StepSupply(cfg: Config, p: Punishment, c: Chain, b: Block, c': Chain, total: int)
    requires Tracking(c) && Economics(c.node.strategy, total) && Step(cfg, p, c, b, c')
    requires KeepsSupply(cfg, p, c, b) && NonNegative(c.node.balances)
    ensures var minted := Total(c'.node.balances) - Total(Closed(cfg, p, c, b).balances);
            && NonNegative(c'.node.balances)
            && (p.sub.Transfer? ==> Total(c'.node.balances) == Total(c.node.balances) + minted)
            && Total(c'.node.balances) <= Total(c.node.balances) + minted
  {
    BlockConserves(cfg, p, c, b);
    StepMints(cfg, p, c, b, c', total);
    var e := Closed(cfg, p, c, b);
    AccumulateNonNegative(e.strategy, e.coinbase, e.balances);
  }

  lemma NextSupply(cfg: Config, p: Punishment, cs: seq<Chain>, bs: seq<Block>, total: int, i: nat)
    requires Run(cfg, p, cs, bs) && i < |bs| && Tracking(cs[i]) && Economics(cs[i].node.strategy, total)
    requires SupplyKept(cfg, p, cs, bs, i) && NonNegative(cs[i].node.balances)
    ensures NonNegative(cs[i + 1].node.balances)
    ensures p.sub.Transfer? ==>
              Total(cs[i + 1].node.balances) == Total(cs[i].node.balances) + Mints(cfg, p, cs, bs)[i]
    ensures Total(cs[i + 1].node.balances) <= Total(cs[i].node.balances) + Mints(cfg, p, cs, bs)[i]
  {
    assert Linked(cfg, p, cs, bs, i);
    StepSupply(cfg, p, cs[i], bs[i], cs[i + 1], total);
  }

  /** The balances of a chain against a supply: nobody is in debt, and the total is the supply, or less
      where slashed money is burned. */
  ghost predicate Adds(p: Punishment, c: Chain, supply: int) {
    && NonNegative(c.node.balances)
    && (p.sub.Transfer? ==> Total(c.node.balances) == supply)
    && Total(c.node.balances) <= supply
  }

  lemma NextAdds(cfg: Config, p: Punishment, cs: seq<Chain>, bs: seq<Block>, total: int, supply: int, i: nat)
    requires Run(cfg, p, cs, bs) && i < |bs| && Tracking(cs[i]) && Economics(cs[i].node.strategy, total)
    requires SupplyKept(cfg, p, cs, bs, i) && Adds(p, cs[i], supply)
    ensures Adds(p, cs[i + 1], supply + Mints(cfg, p, cs, bs)[i])
  {
    NextSupply(cfg, p, cs, bs, total, i);
  }

  lemma {:induction false} SupplyFrom(cfg: Config, p: Punishment, cs: seq<Chain>, bs: seq<Block>, total: int, k: nat)
    requires Run(cfg, p, cs, bs) && k < |cs| && Tracking(cs[0]) && Economics(cs[0].node.strategy, total)
    requires NonNegative(cs[0].node.balances) && forall i :: 0 <= i < k ==> SupplyKept(cfg, p, cs, bs, i)
    ensures Adds(p, cs[k], Total(cs[0].node.balances) + SumOf(Mints(cfg, p, cs, bs)[..k]))
  {
    if k > 0 {
      var ms := Mints(cfg, p, cs, bs);
      SupplyFrom(cfg, p, cs, bs, total, k - 1);
      TracksFrom(cfg, p, cs, bs, 0, k - 1);
      EconomicsKept(cfg, p, cs, bs, total, k - 1);
      NextAdds(cfg, p, cs, bs, total, Total(cs[0].node.balances) + SumOf(ms[..k - 1]), k - 1);
      SumGrows(ms, k - 1);
    }
  }

  lemma SumGrows(ms: seq<int>, k: nat)
    requires k < |ms|
    ensures SumOf(ms[..k + 1]) == SumOf(ms[..k]) + ms[k]
  {
    assert ms[..k + 1][..k] == ms[..k];
  }

  /** The supply after any block is the genesis supply and what was minted since, less what slashing
      burned: nothing if slashed money is transferred. */
  lemma SupplyLaw(cfg: Config, p: Punishment, cs: seq<Chain>, bs: seq<Block>,
                  accounts: map<TmAddress, Account>, vs: seq<Update>, k: nat)
    requires Run(cfg, p, cs, bs) && Begins(cfg, cs, accounts, vs) && k < |cs|
    requires NonNegative(cs[0].node.balances) && forall i :: 0 <= i < k ==> SupplyKept(cfg, p, cs, bs, i)
    ensures Adds(p, cs[k], Total(cs[0].node.balances) + SumOf(Mints(cfg, p, cs, bs)[..k]))
  {
    StartTracks(cfg, cs, accounts, vs);
    StartEconomics(cfg, cs, accounts, vs);
    SupplyFrom(cfg, p, cs, bs, cs[0].node.strategy.totalBalance, k);
  }

  // ---------------------------------------------------------------- versions and proposer

  /** The version in force after a block is the scheduled one, with the header's as the default. */
  ghost predicate Scheduled(cfg: Config, c: Chain, b: Block) {
    && |cfg.versions| == |cfg.heights|
    && c.node.strategy.blockVersion == VersionAt(cfg.heights, cfg.versions, c.node.strategy.height, b.header.version)
  }

  lemma {:induction false} ScheduleOn(cfg: Config, p: Punishment, cs: seq<Chain>, bs: seq<Block>, i: nat)
    requires Run(cfg, p, cs, bs) && i < |cs| && Tracking(cs[0]) && cs[0].node.strategy.hfPassed
    ensures cs[i].node.strategy.hfPassed
    ensures i > 0 ==> Scheduled(cfg, cs[i], bs[i - 1])
  {
    if i > 0 {
      ScheduleOn(cfg, p, cs, bs, i - 1);
      TracksFrom(cfg, p, cs, bs, 0, i - 1);
      NextVersion(cfg, p, cs, bs, i - 1);
    }
  }

  lemma NextVersion(cfg: Config, p: Punishment, cs: seq<Chain>, bs: seq<Block>, i: nat)
    requires Run(cfg, p, cs, bs) && i < |bs| && Tracking(cs[i]) && cs[i].node.strategy.hfPassed
    ensures cs[i + 1].node.strategy.hfPassed && Scheduled(cfg, cs[i + 1], bs[i])
  {
    assert Linked(cfg, p, cs, bs, i);
    DoneFacts(cfg, p, cs[i], bs[i]);
  }

  /** From the first scheduled height on, the block version of a run never goes down, whatever
      version the headers claim, and equals the one Info would report. */
  lemma RunVersions(cfg: Config, p: Punishment, cs: seq<Chain>, bs: seq<Block>,
                    accounts: map<TmAddress, Account>, vs: seq<Update>, i: nat, j: nat)
    requires Run(cfg, p, cs, bs) && Begins(cfg, cs, accounts, vs) && 0 < i <= j < |cs|
    requires forall x, y :: 0 <= x < y < |cfg.versions| ==> cfg.versions[x] <= cfg.versions[y]
    requires forall x :: 0 < x < |cfg.heights| ==> cfg.heights[0] <= cfg.heights[x]
    requires |cfg.heights| > 0 && cfg.heights[0] <= cs[i].node.strategy.height
    ensures cs[i].node.strategy.blockVersion <= cs[j].node.strategy.blockVersion
    ensures |cfg.versions| == |cfg.heights| &&
            cs[j].node.strategy.blockVersion == VersionAt(cfg.heights, cfg.versions, cs[j].node.strategy.height, 1)
  {
    StartTracks(cfg, cs, accounts, vs);
    StartEconomics(cfg, cs, accounts, vs);
    ScheduleOn(cfg, p, cs, bs, i);
    ScheduleOn(cfg, p, cs, bs, j);
    var total := cs[0].node.strategy.totalBalance;
    EconomicsKept(cfg, p, cs, bs, total, i);
    EconomicsKept(cfg, p, cs, bs, total, j);
    VersionsNeverGoBack(cfg.heights, cfg.versions, cs[i].node.strategy.height, cs[j].node.strategy.height,
                        bs[i - 1].header.version, bs[j - 1].header.version);
    ScansAgree(cfg.heights, cfg.versions, cs[j].node.strategy.height);
  }

  /** Where the running and the pending set can be found in the snapshot, whatever the epoch length:
      the running set was chosen one block before the pending one, so a single boundary has
      passed over it and it is still known. */
  ghost predicate Followed(strangers: set<TmAddress>, c: Chain) {
    && c.tm.pending.Keys - strangers <= Bonded(c.node.strategy.curr)
    && c.tm.current.Keys - strangers <= Known(c.node.strategy.curr)
  }

  lemma OutlineFollows(cfg: Config, strangers: set<TmAddress>, c: Chain, c': Chain, chosen: seq<Update>, worked: Table)
    requires Tracking(c) && Followed(strangers, c) && Untracked(c) <= strangers
    requires Outline(cfg, c, c', chosen, worked)
    ensures Followed(strangers, c')
  {
    OutlineTracks(cfg, c, c', chosen, worked);
    BondedKnown(c.node.strategy.curr);
    assert c'.tm.pending.Keys - strangers <= c'.node.strategy.validators.Keys;
  }

  lemma NextFollows(cfg: Config, p: Punishment, cs: seq<Chain>, bs: seq<Block>, strangers: set<TmAddress>, i: nat)
    requires Run(cfg, p, cs, bs) && i < |bs| && Tracking(cs[i]) && Untracked(cs[i]) <= strangers
    requires Followed(strangers, cs[i])
    ensures Followed(strangers, cs[i + 1])
  {
    var c, b, c' := cs[i], bs[i], cs[i + 1];
    assert Linked(cfg, p, cs, bs, i);
    StepOutline(cfg, p, c, b, c');
    OutlineFollows(cfg, strangers, c, c', Chosen(cfg, Turned(cfg, p, c, b), b.header.height, b.seed),
                   Done(cfg, p, c, b).strategy.next);
  }

  lemma {:induction false} FollowedFrom(cfg: Config, p: Punishment, cs: seq<Chain>, bs: seq<Block>,
                                        strangers: set<TmAddress>, i: nat)
    requires Run(cfg, p, cs, bs) && i < |cs|
    requires Tracking(cs[0]) && Followed(strangers, cs[0]) && Untracked(cs[0]) <= strangers
    ensures Followed(strangers, cs[i])
  {
    if i > 0 {
      FollowedFrom(cfg, p, cs, bs, strangers, i - 1);
      TracksFrom(cfg, p, cs, bs, 0, i - 1);
      NextFollows(cfg, p, cs, bs, strangers, i - 1);
    }
  }

  /** A signer that was slashed out of the table. */
  predicate Forfeited(t: Table, s: Address) {
    s !in t.items && s in t.unbonded && t.unbonded[s].slots == 0
  }

  lemma ReceiverExactly(cfg: Config, s: StrategyState)
    requires TableOk(s.curr) && s.proposer.Some?
    ensures var t, a := s.curr, s.proposer.value;
            Receiver(cfg, s) == if s.blockVersion == 4 then cfg.bigguy
                                else if Beneficiary(t, a).None? || Forfeited(t, t.signerOf[a]) then NO_RECEIVER
                                else Beneficiary(t, a).value
    ensures Beneficiary(s.curr, s.proposer.value).None? <==> s.proposer.value !in Known(s.curr)
  {
  }

  /** The coinbase is settled in BeginBlock, on the snapshot of the block before. */
  lemma CoinbaseOf(cfg: Config, p: Punishment, c: Chain, b: Block)
    requires NodeOk(c.node.strategy) && Offered(cfg, p, c, b)
    ensures Closed(cfg, p, c, b).coinbase == Receiver(cfg, Opened(cfg, c.node.strategy, b.header, b.votes))
    ensures Closed(cfg, p, c, b).strategy.blockVersion ==
            Opened(cfg, c.node.strategy, b.header, b.votes).blockVersion
  {
    DoneFacts(cfg, p, c, b);
  }

  /** The proposer of every block of every run, whatever the epoch length, resolves unless it is a
      genesis validator that InitChain did not enrol. Outside version 4 its reward goes to its own
      beneficiary, and to nobody only if it does not resolve or was slashed. */
  lemma ProposerResolves(cfg: Config, p: Punishment, cs: seq<Chain>, bs: seq<Block>,
                         accounts: map<TmAddress, Account>, vs: seq<Update>, b: Block)
    requires Run(cfg, p, cs, bs) && Begins(cfg, cs, accounts, vs) && Offered(cfg, p, cs[|bs|], b)
    requires b.header.proposer.Some?
    ensures var a, e, t := b.header.proposer.value, Closed(cfg, p, cs[|bs|], b), cs[|bs|].node.strategy.curr;
            && (Beneficiary(t, a).None? ==> a in Addrs(vs) - cs[0].node.strategy.validators.Keys)
            && e.coinbase == if e.strategy.blockVersion == 4 then cfg.bigguy
                             else if Beneficiary(t, a).None? || Forfeited(t, t.signerOf[a]) then NO_RECEIVER
                             else Beneficiary(t, a).value
  {
    var c := cs[|bs|];
    ProposerKnown(cfg, p, cs, bs, accounts, vs);
    CoinbaseOf(cfg, p, c, b);
    ReceiverExactly(cfg, Opened(cfg, c.node.strategy, b.header, b.votes));
  }

  lemma ProposerKnown(cfg: Config, p: Punishment, cs: seq<Chain>, bs: seq<Block>,
                      accounts: map<TmAddress, Account>, vs: seq<Update>)
    requires Run(cfg, p, cs, bs) && Begins(cfg, cs, accounts, vs)
    ensures Tracking(cs[|bs|])
    ensures cs[|bs|].tm.current.Keys - (Addrs(vs) - cs[0].node.strategy.validators.Keys) <=
            Known(cs[|bs|].node.strategy.curr)
  {
    StartTracks(cfg, cs, accounts, vs);
    BondedKnown(cs[0].node.strategy.curr);
    FollowedFrom(cfg, p, cs, bs, Untracked(cs[0]), |bs|);
    TracksFrom(cfg, p, cs, bs, 0, |bs|);
  }
}
