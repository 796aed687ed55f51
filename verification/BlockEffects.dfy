/** What a block of a run does beyond the validator protocol: whom Commit pays, which set a boundary
    leaves, how long an unbonded signer is remembered, and what is written to disk. */
module BlockEffects {
  import opened Types
  import opened Tendermint
  import opened Strategies
  import opened Ledger
  import opened Rewards
  import opened Punishments
  import opened Application
  import opened Chains
  import opened RunProperties

  // ---------------------------------------------------------------- whom Commit pays

  /** Where the proposer's bonus of a block below version 4 goes. */
  function BonusTo(t: Table, proposer: Option<TmAddress>): Address {
    if proposer.None? || Beneficiary(t, proposer.value).None? || Forfeited(t, t.signerOf[proposer.value])
    then NO_RECEIVER
    else Beneficiary(t, proposer.value).value
  }

  lemma BonusReceiver(cfg: Config, s: StrategyState)
    requires TableOk(s.curr) && s.blockVersion < NO_REWARD_VERSION
    ensures Receiver(cfg, s) == BonusTo(s.curr, s.proposer)
  {
    if s.proposer.Some? {
      ReceiverExactly(cfg, s);
    }
  }

  /** An account's balance before and after a Commit below version 4: the bonus of the proposer, past
      the split height, and the shares of the voters the account benefits from. */
  ghost predicate Pays(s: StrategyState, paidTo: Address, before: Balances, after: Balances, x: Address) {
    Get(after, x) == Get(before, x)
                     + (if x == paidTo && s.height > 3588000 then s.minorBonus else 0)
                     + CreditOf(s, s.lastVotes, Average(s), x)
  }

  lemma StepPays(cfg: Config, p: Punishment, c: Chain, b: Block, c': Chain, x: Address)
    requires Tracking(c) && Step(cfg, p, c, b, c') && c'.node.strategy.blockVersion < NO_REWARD_VERSION
    ensures c'.node.strategy.lastVotes == b.votes
    ensures Pays(c'.node.strategy, BonusTo(c.node.strategy.curr, b.header.proposer),
                 Closed(cfg, p, c, b).balances, c'.node.balances, x)
  {
    var e := Closed(cfg, p, c, b);
    DoneFacts(cfg, p, c, b);
    CoinbaseOf(cfg, p, c, b);
    BonusReceiver(cfg, Opened(cfg, c.node.strategy, b.header, b.votes));
    CommitCredits(e.strategy, e.coinbase, e.balances, x);
  }

  lemma NextPays(cfg: Config, p: Punishment, cs: seq<Chain>, bs: seq<Block>, i: nat, x: Address)
    requires Run(cfg, p, cs, bs) && i < |bs| && Tracking(cs[i])
    requires cs[i + 1].node.strategy.blockVersion < NO_REWARD_VERSION
    ensures Linked(cfg, p, cs, bs, i) && cs[i + 1].node.strategy.lastVotes == bs[i].votes
    ensures Pays(cs[i + 1].node.strategy, BonusTo(cs[i].node.strategy.curr, bs[i].header.proposer),
                 Closed(cfg, p, cs[i], bs[i]).balances, cs[i + 1].node.balances, x)
  {
    assert Linked(cfg, p, cs, bs, i);
    StepPays(cfg, p, cs[i], bs[i], cs[i + 1], x);
  }

  /** In every block of every run below version 4, Commit gives each account the bonus that Info derives
      from the genesis balance, past the split height, if it is the beneficiary of the block's
      proposer (or the account for proposers that do not resolve or were slashed), and its voters'
      shares, and nothing else. */
  lemma ProposerPaid(cfg: Config, p: Punishment, cs: seq<Chain>, bs: seq<Block>,
                     accounts: map<TmAddress, Account>, vs: seq<Update>, i: nat, x: Address)
    requires Run(cfg, p, cs, bs) && Begins(cfg, cs, accounts, vs) && i < |bs|
    requires cs[i + 1].node.strategy.blockVersion < NO_REWARD_VERSION
    ensures Linked(cfg, p, cs, bs, i)
    ensures Pays(cs[i + 1].node.strategy, BonusTo(cs[i].node.strategy.curr, bs[i].header.proposer),
                 Closed(cfg, p, cs[i], bs[i]).balances, cs[i + 1].node.balances, x)
    ensures var s' := cs[i + 1].node.strategy;
            && s'.height == i + 1 && s'.lastVotes == bs[i].votes
            && s'.minorBonus == MinorBonusOf(cs[0].node.strategy.totalBalance)
  {
    BonusKept(cfg, p, cs, bs, accounts, vs, i + 1);
    NextPays(cfg, p, cs, bs, i, x);
  }

  lemma BonusKept(cfg: Config, p: Punishment, cs: seq<Chain>, bs: seq<Block>,
                  accounts: map<TmAddress, Account>, vs: seq<Update>, i: nat)
    requires Run(cfg, p, cs, bs) && Begins(cfg, cs, accounts, vs) && 0 < i < |cs|
    ensures Tracking(cs[i - 1]) && cs[i].node.strategy.height == i
    ensures cs[i].node.strategy.minorBonus == MinorBonusOf(cs[0].node.strategy.totalBalance)
  {
    StartTracks(cfg, cs, accounts, vs);
    StartEconomics(cfg, cs, accounts, vs);
    TracksFrom(cfg, p, cs, bs, 0, i - 1);
    EconomicsKept(cfg, p, cs, bs, cs[0].node.strategy.totalBalance, i);
  }

  // ---------------------------------------------------------------- the set a boundary leaves

  lemma PowersSize(chosen: seq<Update>)
    requires NoRepeat(chosen)
    ensures |Powers(chosen)| == |chosen|
  {
    var addrs := seq(|chosen|, i requires 0 <= i < |chosen| => Addr(chosen[i]));
    forall a ensures a in Powers(chosen) <==> a in addrs {
      if i :| 0 <= i < |chosen| && Addr(chosen[i]) == a {
        assert addrs[i] == a;
      }
    }
    assert Powers(chosen).Keys == set a | a in addrs;
    DistinctSize(addrs);
  }

  lemma {:induction false} DistinctSize(addrs: seq<TmAddress>)
    requires forall i, j :: 0 <= i < j < |addrs| ==> addrs[i] != addrs[j]
    ensures |set a | a in addrs| == |addrs|
  {
    if addrs != [] {
      var rest, last := addrs[..|addrs| - 1], addrs[|addrs| - 1];
      DistinctSize(rest);
      assert (set a | a in addrs) == (set a | a in rest) + {last};
      assert last !in rest;
    }
  }

  /** What a boundary makes of Tendermint's set: voting power is slots. At the height of the whitelist
      it holds everyone bonded; at any other boundary as many as the member limit allows, and
      nobody left out has more slots than a member. */
  ghost predicate BoundarySet(cfg: Config, s: StrategyState, vals: ValSet)
    requires |cfg.heights| > 3
  {
    && (forall a :: a in vals ==> SlotsOf(s.curr, a) == Some(vals[a]))
    && (s.height == cfg.heights[3] ==> vals.Keys == Bonded(s.curr))
    && (s.height != cfg.heights[3] ==>
          && |vals| == (if MemberLimit(s) < |s.curr.items| then MemberLimit(s) else |s.curr.items|)
          && forall g, a :: g in s.curr.items && s.curr.items[g].tmAddress !in vals && a in vals ==>
               s.curr.items[g].slots <= vals[a])
  }

  lemma SlotsAreSet(cfg: Config, s: StrategyState, chosen: seq<Update>)
    requires |cfg.heights| > 3 && Choice(chosen) && BySlots(cfg, s, s.height, chosen)
    ensures BoundarySet(cfg, s, Powers(chosen))
  {
    PowersPositive(chosen);
    PowersSize(chosen);
    forall a | a in Powers(chosen) ensures exists i :: ChosenAt(chosen, i, a) {
      var i :| 0 <= i < |chosen| && Addr(chosen[i]) == a;
      assert Powers(chosen)[Addr(chosen[i])] == chosen[i].power;
      assert ChosenAt(chosen, i, a);
    }
  }

  ghost predicate ChosenAt(chosen: seq<Update>, i: int, a: TmAddress)
    requires NoRepeat(chosen)
  {
    0 <= i < |chosen| && Addr(chosen[i]) == a && a in Powers(chosen) && Powers(chosen)[a] == chosen[i].power
  }

  lemma StepBySlots(cfg: Config, p: Punishment, c: Chain, b: Block, c': Chain)
    requires Tracking(c) && Step(cfg, p, c, b, c') && Epoch(cfg, b.header.height)
    ensures |cfg.heights| > 3
    ensures BySlots(cfg, c'.node.strategy, c'.node.strategy.height,
                    Chosen(cfg, Turned(cfg, p, c, b), b.header.height, b.seed))
  {
    var t := Turned(cfg, p, c, b);
    TurnedFields(cfg, p, c, b, c');
    BoundaryChoice(cfg, t, b.header.height, b.seed);
    SameSlots(cfg, t, c'.node.strategy, b.header.height, Chosen(cfg, t, b.header.height, b.seed));
  }

  /** The choice is made on the snapshot and the limit that the block leaves. */
  lemma TurnedFields(cfg: Config, p: Punishment, c: Chain, b: Block, c': Chain)
    requires Tracking(c) && Step(cfg, p, c, b, c')
    ensures var t, s' := Turned(cfg, p, c, b), c'.node.strategy;
            t.curr == s'.curr && t.dkgLimit == s'.dkgLimit && s'.height == b.header.height && TableOk(t.curr)
  {
    DoneFacts(cfg, p, c, b);
  }

  lemma SameSlots(cfg: Config, s: StrategyState, s': StrategyState, height: int, chosen: seq<Update>)
    requires |cfg.heights| > 3 && s.curr == s'.curr && s.dkgLimit == s'.dkgLimit
    ensures BySlots(cfg, s, height, chosen) <==> BySlots(cfg, s', height, chosen)
  {
    assert MemberLimit(s) == MemberLimit(s');
  }

  /** With nothing untracked, the pending set after a block is the choice. */
  lemma OutlineReplaces(cfg: Config, c: Chain, c': Chain, chosen: seq<Update>, worked: Table)
    requires Outline(cfg, c, c', chosen, worked) && c.node.strategy.validators.Keys == c.tm.pending.Keys
    ensures Choice(chosen) && c'.tm.pending == Powers(chosen)
  {
    OnlyChosen(c.tm.pending, c.node.strategy.validators, Powers(chosen));
  }

  lemma OnlyChosen(pending: ValSet, tracked: Tracked, chosen: ValSet)
    requires pending.Keys == tracked.Keys
    ensures (pending - tracked.Keys) + chosen == chosen
  {
  }

  lemma StepBoundary(cfg: Config, p: Punishment, c: Chain, b: Block, c': Chain)
    requires Tracking(c) && Step(cfg, p, c, b, c') && Epoch(cfg, b.header.height)
    requires c.node.strategy.validators.Keys == c.tm.pending.Keys
    ensures |cfg.heights| > 3 && BoundarySet(cfg, c'.node.strategy, c'.tm.pending)
  {
    var chosen := Chosen(cfg, Turned(cfg, p, c, b), b.header.height, b.seed);
    StepBySlots(cfg, p, c, b, c');
    StepOutline(cfg, p, c, b, c');
    OutlineReplaces(cfg, c, c', chosen, Done(cfg, p, c, b).strategy.next);
    SlotsAreSet(cfg, c'.node.strategy, chosen);
  }

  /** After every boundary of a run with everyone enrolled, Tendermint's set is such a set. */
  lemma RunBoundary(cfg: Config, p: Punishment, cs: seq<Chain>, bs: seq<Block>,
                    accounts: map<TmAddress, Account>, vs: seq<Update>, i: nat)
    requires Run(cfg, p, cs, bs) && Begins(cfg, cs, accounts, vs) && i < |bs|
    requires cs[0].node.strategy.validators.Keys == Addrs(vs)
    requires cfg.epochBlocks >= 1 && Epoch(cfg, bs[i].header.height)
    ensures |cfg.heights| > 3 && BoundarySet(cfg, cs[i + 1].node.strategy, cs[i + 1].tm.pending)
  {
    RunTracks(cfg, p, cs, bs, accounts, vs, i, i);
    NextBoundary(cfg, p, cs, bs, i);
  }

  lemma NextBoundary(cfg: Config, p: Punishment, cs: seq<Chain>, bs: seq<Block>, i: nat)
    requires Run(cfg, p, cs, bs) && i < |bs| && Tracking(cs[i])
    requires cs[i].node.strategy.validators.Keys == cs[i].tm.pending.Keys
    requires cfg.epochBlocks >= 1 && Epoch(cfg, bs[i].header.height)
    ensures |cfg.heights| > 3 && BoundarySet(cfg, cs[i + 1].node.strategy, cs[i + 1].tm.pending)
  {
    assert Linked(cfg, p, cs, bs, i);
    StepBoundary(cfg, p, cs[i], bs[i], cs[i + 1]);
  }

  // ---------------------------------------------------------------- how long a signer is remembered

  /** The block is a boundary at which the waiting time of an unbonded signer is over. */
  ghost predicate Expires(cfg: Config, p: Punishment, c: Chain, b: Block, g: Address) {
    && cfg.epochBlocks >= 1 && |cfg.versions| == |cfg.heights|
    && Begin(cfg, p, c.node, b.header, b.votes, b.evidence).Some?
    && Epoch(cfg, b.header.height)
    && var d := Done(cfg, p, c, b).strategy;
       g in d.next.unbonded && g in cfg.expired(d.next, d.height)
  }

  /** A signer that is unbonded when EndBlock comes stays in the table, with its item and its address,
      exactly unless it expires. The snapshot taken by that very block still has it. */
  lemma ExpiryExactly(cfg: Config, p: Punishment, c: Chain, b: Block, g: Address)
    requires NodeOk(c.node.strategy) && Offered(cfg, p, c, b) && g in Done(cfg, p, c, b).strategy.next.unbonded
    ensures var was, now := Done(cfg, p, c, b).strategy.next, Closed(cfg, p, c, b).strategy.next;
            && (g in now.unbonded <==> !Expires(cfg, p, c, b, g))
            && (g in now.unbonded ==>
                  && now.unbonded[g] == was.unbonded[g]
                  && now.unbonded[g].tmAddress in now.signerOf && now.signerOf[now.unbonded[g].tmAddress] == g)
            && (Expires(cfg, p, c, b, g) ==> was.unbonded[g].tmAddress !in Known(now))
    ensures Epoch(cfg, b.header.height) ==> g in Closed(cfg, p, c, b).strategy.curr.unbonded
  {
    var d := Done(cfg, p, c, b).strategy;
    DoneFacts(cfg, p, c, b);
    DropExactly(d.next, cfg.expired(d.next, d.height));
  }

  lemma StepRemembers(cfg: Config, p: Punishment, c: Chain, b: Block, c': Chain, a: TmAddress)
    requires Tracking(c) && Step(cfg, p, c, b, c') && a in c.node.strategy.next.signerOf
    ensures var g, next := c.node.strategy.next.signerOf[a], c'.node.strategy.next;
            && (a in Known(next) <==> !Expires(cfg, p, c, b, g))
            && (a in Known(next) ==> next.signerOf[a] == g)
  {
    var d := Done(cfg, p, c, b).strategy;
    DoneFacts(cfg, p, c, b);
    DropExactly(d.next, cfg.expired(d.next, d.height));
  }

  ghost predicate ExpiresIn(cfg: Config, p: Punishment, cs: seq<Chain>, bs: seq<Block>, g: Address, j: int) {
    0 <= j < |bs| && j < |cs| && Expires(cfg, p, cs[j], bs[j], g)
  }

  /** The table resolves an address to a signer. */
  ghost predicate Resolves(c: Chain, a: TmAddress, g: Address) {
    a in c.node.strategy.next.signerOf && c.node.strategy.next.signerOf[a] == g
  }

  lemma NextRemembers(cfg: Config, p: Punishment, cs: seq<Chain>, bs: seq<Block>, a: TmAddress, g: Address, i: nat)
    requires Run(cfg, p, cs, bs) && i < |bs| && Tracking(cs[i]) && Resolves(cs[i], a, g)
    ensures ExpiresIn(cfg, p, cs, bs, g, i) ==> a !in Known(cs[i + 1].node.strategy.next)
    ensures !ExpiresIn(cfg, p, cs, bs, g, i) ==> Resolves(cs[i + 1], a, g)
  {
    assert Linked(cfg, p, cs, bs, i);
    StepRemembers(cfg, p, cs[i], bs[i], cs[i + 1], a);
  }

  lemma {:induction false} RemembersFrom(cfg: Config, p: Punishment, cs: seq<Chain>, bs: seq<Block>, a: TmAddress,
                                         g: Address, i: nat, k: nat)
    requires Run(cfg, p, cs, bs) && i <= k < |cs| && Tracking(cs[0]) && Resolves(cs[i], a, g)
    requires forall j :: i <= j < k ==> !ExpiresIn(cfg, p, cs, bs, g, j)
    ensures Resolves(cs[k], a, g)
  {
    if i < k {
      RemembersFrom(cfg, p, cs, bs, a, g, i, k - 1);
      TracksFrom(cfg, p, cs, bs, 0, k - 1);
      NextRemembers(cfg, p, cs, bs, a, g, k - 1);
    }
  }

  /** In any run an address in the table keeps resolving to its signer, bonded or not, and evidence
      against it is found, until the first boundary at which the signer is unbonded and has expired;
      that boundary forgets it. */
  lemma RunRemembers(cfg: Config, p: Punishment, cs: seq<Chain>, bs: seq<Block>, accounts: map<TmAddress, Account>,
                     vs: seq<Update>, a: TmAddress, g: Address, i: nat, k: nat, evidence: seq<TmAddress>)
    requires Run(cfg, p, cs, bs) && Begins(cfg, cs, accounts, vs) && i <= k < |cs| && Resolves(cs[i], a, g)
    requires forall j :: i <= j < k ==> !ExpiresIn(cfg, p, cs, bs, g, j)
    ensures Resolves(cs[k], a, g)
    ensures a in evidence ==> g in Found(cs[k].node.strategy.next, evidence)
    ensures k < |bs| && ExpiresIn(cfg, p, cs, bs, g, k) ==> a !in Known(cs[k + 1].node.strategy.next)
  {
    StartTracks(cfg, cs, accounts, vs);
    RemembersFrom(cfg, p, cs, bs, a, g, i, k);
    if k < |bs| {
      TracksFrom(cfg, p, cs, bs, 0, k);
      NextRemembers(cfg, p, cs, bs, a, g, k);
    }
  }

  // ---------------------------------------------------------------- what is written to disk

  /** Neither evidence nor transactions touch the table in this block. */
  ghost predicate LeavesTable(cfg: Config, p: Punishment, c: Chain, b: Block) {
    && |cfg.versions| == |cfg.heights|
    && var n := Begin(cfg, p, c.node, b.header, b.votes, b.evidence);
       && n.Some? && n.value.strategy.next == c.node.strategy.next
       && (b.exec(StakeOf(n.value)).changed ==> n.value.strategy.changed)
  }

  lemma QuietFlag(cfg: Config, p: Punishment, c: Chain, b: Block)
    requires NodeOk(c.node.strategy) && Proposed(cfg, p, c, b) && LeavesTable(cfg, p, c, b)
    ensures !Done(cfg, p, c, b).strategy.changed
  {
    var opening := Opened(cfg, c.node.strategy, b.header, b.votes);
    SlashingRaisesFlag(cfg, p, Stake(opening.next, false, c.node.balances), b.evidence, b.header.height);
  }

  /** Between two boundaries Commit writes the record of the height only, unless the table was touched:
      the flag of an earlier block does not linger. */
  lemma StepWrites(cfg: Config, p: Punishment, c: Chain, b: Block, c': Chain)
    requires Tracking(c) && Step(cfg, p, c, b, c') && !Epoch(cfg, b.header.height)
    ensures c'.store.height == Some(StoredHeight(b.header.height, c'.node.strategy.validators))
    ensures c'.store.epoch == c.store.epoch
    ensures LeavesTable(cfg, p, c, b) ==> c'.store.next == c.store.next
  {
    DoneFacts(cfg, p, c, b);
    if LeavesTable(cfg, p, c, b) {
      QuietFlag(cfg, p, c, b);
    }
  }
}
