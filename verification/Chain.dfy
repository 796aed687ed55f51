/** Whole runs: the node and Tendermint's pipeline of validator sets, block after block. */
module Chains {
  import opened Arithmetic
  import opened Types
  import opened Tendermint
  import opened Strategies
  import opened Rewards
  import opened Punishments
  import opened Application
  import opened GenesisProofs

  /** One block as the node sees it. The transactions are an arbitrary function of the state they
      can reach; ups is the update list the node answers with. */
  datatype Block = Block(header: Header, votes: seq<Vote>, evidence: seq<TmAddress>, exec: Stake -> Stake,
                         seed: Option<Seed>, ups: seq<Update>)

  datatype Chain = Chain(node: Node, tm: Pipeline, store: Store)

  /** What transactions may do: the table evolves, and a change of it raises the dirty flag. */
  ghost predicate ExecOk(k: Stake, k': Stake) {
    && Evolves(k.next, k'.next)
    && (k.changed ==> k'.changed)
    && (k'.next != k.next ==> k'.changed)
  }

  /** The node after BeginBlock and all transactions. */
  ghost function Done(cfg: Config, p: Punishment, c: Chain, b: Block): Node
    requires |cfg.versions| == |cfg.heights|
    requires Begin(cfg, p, c.node, b.header, b.votes, b.evidence).Some?
  {
    var n := Begin(cfg, p, c.node, b.header, b.votes, b.evidence).value;
    WithStake(n, b.exec(StakeOf(n)))
  }

  /** The strategy on which EndBlock makes its choice. */
  ghost function Turned(cfg: Config, p: Punishment, c: Chain, b: Block): StrategyState
    requires |cfg.versions| == |cfg.heights| && cfg.epochBlocks >= 1
    requires Begin(cfg, p, c.node, b.header, b.votes, b.evidence).Some?
  {
    TurnEpoch(cfg, Done(cfg, p, c, b).strategy, b.header.height)
  }

  /** A block that Tendermint may propose and the node can work through up to Commit: the next
      height, the votes of the previous validators, a current proposer. */
  ghost predicate Proposed(cfg: Config, p: Punishment, c: Chain, b: Block) {
    && ConfigOk(cfg)
    && b.header.height == c.node.strategy.height + 1
    && VotesOf(b.votes, c.tm.last)
    && SignedPower(b.votes) < 0x8000_0000_0000_0000
    && (b.header.proposer.Some? ==> b.header.proposer.value in c.tm.current)
    && var n := Begin(cfg, p, c.node, b.header, b.votes, b.evidence);
       && n.Some?
       && ExecOk(StakeOf(n.value), b.exec(StakeOf(n.value)))
       && CanChoose(cfg, Turned(cfg, p, c, b), b.header.height, b.seed)
  }

  /** Such a block with an update list that is one of the answers of EndBlock. */
  ghost predicate Offered(cfg: Config, p: Punishment, c: Chain, b: Block) {
    && Proposed(cfg, p, c, b)
    && Diff(c.node.strategy.validators, Chosen(cfg, Turned(cfg, p, c, b), b.header.height, b.seed), b.ups)
  }

  /** The node after EndBlock. */
  ghost function Closed(cfg: Config, p: Punishment, c: Chain, b: Block): Node
    requires Offered(cfg, p, c, b)
  {
    var n := Done(cfg, p, c, b);
    n.(strategy := Ended(cfg, n.strategy, b.header.height, b.seed))
  }

  ghost function Rewarded(cfg: Config, p: Punishment, c: Chain, b: Block): Outcome
    requires Offered(cfg, p, c, b)
  {
    var n := Closed(cfg, p, c, b);
    Accumulate(n.strategy, n.coinbase, n.balances)
  }

  /** A block that went through: Tendermint took the updates and Commit paid the rewards. */
  ghost predicate Step(cfg: Config, p: Punishment, c: Chain, b: Block, c': Chain) {
    && Offered(cfg, p, c, b)
    && Apply(c.tm.pending, b.ups).Accepted?
    && Rewarded(cfg, p, c, b).Paid?
    && var n := Closed(cfg, p, c, b);
       c' == Chain(n.(balances := Rewarded(cfg, p, c, b).balances),
                   c.tm.Advance(Apply(c.tm.pending, b.ups).vals),
                   Persist(cfg, n.strategy, c.store))
  }

  /** The chain right after InitChain. Its response is empty, so Tendermint keeps every genesis
      validator, enrolled or not. */
  ghost predicate Initial(cfg: Config, c: Chain, accounts: map<TmAddress, Account>, vs: seq<Update>) {
    exists selectCount: int, dkgLimit: int, totalBalance: nat ::
      InitialWith(cfg, c, accounts, vs, selectCount, dkgLimit, totalBalance)
  }

  function Blank(selectCount: int, dkgLimit: int, totalBalance: int): StrategyState {
    Fresh(selectCount, dkgLimit, totalBalance).(minorBonus := MinorBonusOf(totalBalance))
  }

  ghost predicate InitialWith(cfg: Config, c: Chain, accounts: map<TmAddress, Account>, vs: seq<Update>,
                              selectCount: int, dkgLimit: int, totalBalance: nat)
  {
    && ConfigOk(cfg)
    && Choice(vs)
    && c.tm == Pipeline(map[], Powers(vs), Powers(vs))
    && c.store == Persist(cfg, c.node.strategy, EMPTY_STORE)
    && Founded(cfg, c.node.(strategy := Blank(selectCount, dkgLimit, totalBalance)), accounts, vs) ==
       Some(c.node.strategy)
  }

  ghost predicate Run(cfg: Config, p: Punishment, cs: seq<Chain>, bs: seq<Block>) {
    && |cs| == |bs| + 1
    && forall i :: 0 <= i < |bs| ==> Linked(cfg, p, cs, bs, i)
  }

  /** A sequence of chains whose first one is a chain right after InitChain. It is stated over
      positions so that a proof looks at the genesis state only where it asks for it. */
  ghost predicate Begins(cfg: Config, cs: seq<Chain>, accounts: map<TmAddress, Account>, vs: seq<Update>) {
    cs != [] && forall i :: 0 <= i < |cs| ==> BeginsAt(cfg, cs, accounts, vs, i)
  }

  ghost predicate BeginsAt(cfg: Config, cs: seq<Chain>, accounts: map<TmAddress, Account>, vs: seq<Update>, i: int) {
    0 <= i < |cs| && (i == 0 ==> Initial(cfg, cs[0], accounts, vs))
  }

  lemma BeginsExactly(cfg: Config, cs: seq<Chain>, accounts: map<TmAddress, Account>, vs: seq<Update>)
    requires cs != []
    ensures Begins(cfg, cs, accounts, vs) <==> Initial(cfg, cs[0], accounts, vs)
  {
    if Begins(cfg, cs, accounts, vs) {
      assert BeginsAt(cfg, cs, accounts, vs, 0);
    }
  }

  /** Only the first chain matters for that. */
  lemma BeginsWith(cfg: Config, cs: seq<Chain>, accounts: map<TmAddress, Account>, vs: seq<Update>)
    requires cs != []
    ensures Begins(cfg, cs, accounts, vs) <==> Begins(cfg, [cs[0]], accounts, vs)
  {
    BeginsExactly(cfg, cs, accounts, vs);
    BeginsExactly(cfg, [cs[0]], accounts, vs);
  }

  ghost predicate Linked(cfg: Config, p: Punishment, cs: seq<Chain>, bs: seq<Block>, i: int) {
    0 <= i < |bs| && i + 1 < |cs| && Step(cfg, p, cs[i], bs[i], cs[i + 1])
  }

  /** One more block. */
  lemma RunSnoc(cfg: Config, p: Punishment, cs: seq<Chain>, bs: seq<Block>, c: Chain, b: Block, c': Chain)
    requires Run(cfg, p, cs, bs) && cs[|bs|] == c && Step(cfg, p, c, b, c')
    ensures Run(cfg, p, cs + [c'], bs + [b])
  {
    assert Linked(cfg, p, cs + [c'], bs + [b], |bs|);
    RunExtends(cfg, p, cs, bs, b, c');
  }

  lemma RunExtends(cfg: Config, p: Punishment, cs: seq<Chain>, bs: seq<Block>, b: Block, c': Chain)
    requires Run(cfg, p, cs, bs) && Linked(cfg, p, cs + [c'], bs + [b], |bs|)
    ensures Run(cfg, p, cs + [c'], bs + [b])
  {
    var cs', bs' := cs + [c'], bs + [b];
    forall i | 0 <= i < |bs'| ensures Linked(cfg, p, cs', bs', i) {
      if i < |bs| {
        LinkedBefore(cfg, p, cs, bs, b, c', i);
      }
    }
  }

  lemma LinkedBefore(cfg: Config, p: Punishment, cs: seq<Chain>, bs: seq<Block>, b: Block, c': Chain, i: int)
    requires |cs| == |bs| + 1 && Linked(cfg, p, cs, bs, i)
    ensures Linked(cfg, p, cs + [c'], bs + [b], i)
  {
    assert (cs + [c'])[i] == cs[i] && (cs + [c'])[i + 1] == cs[i + 1] && (bs + [b])[i] == bs[i];
  }

  // ---------------------------------------------------------------- one block in outline

  ghost predicate NodeOk(s: StrategyState) {
    && TableOk(s.curr) && TableOk(s.next) && TrackedOk(s.validators)
    && Bonded(s.curr) <= Known(s.next)
  }

  lemma DoneFacts(cfg: Config, p: Punishment, c: Chain, b: Block)
    requires NodeOk(c.node.strategy) && Proposed(cfg, p, c, b)
    ensures var s, d := c.node.strategy, Done(cfg, p, c, b).strategy;
            && d == s.(next := d.next, changed := d.changed, height := b.header.height, hfHeight := b.header.height,
                       proposer := b.header.proposer, lastVotes := b.votes,
                       blockVersion := VersionFor(cfg, s.hfPassed, b.header.height, b.header.version))
            && Evolves(s.next, d.next)
            && (d.next != s.next ==> d.changed)
  {
    var opening := Opened(cfg, c.node.strategy, b.header, b.votes);
    var k := Stake(opening.next, false, c.node.balances);
    SlashedTable(cfg, p, k, b.evidence, b.header.height);
    SlashingRaisesFlag(cfg, p, k, b.evidence, b.header.height);
    var n := Begin(cfg, p, c.node, b.header, b.votes, b.evidence).value;
    EvolvesTransitive(c.node.strategy.next, n.strategy.next, b.exec(StakeOf(n)).next);
  }

  /** What a block does to the snapshot, the table and the record. */
  lemma BlockFacts(cfg: Config, p: Punishment, c: Chain, b: Block)
    requires NodeOk(c.node.strategy) && Offered(cfg, p, c, b)
    ensures var s, d, e := c.node.strategy, Done(cfg, p, c, b).strategy, Closed(cfg, p, c, b).strategy;
            var chosen := Chosen(cfg, Turned(cfg, p, c, b), b.header.height, b.seed);
            && e.height == b.header.height && e.lastVotes == b.votes && e.selectCount == s.selectCount
            && NodeOk(e)
            && e.curr == (if Epoch(cfg, b.header.height) then d.next else s.curr)
            && Known(s.next) <= Known(d.next)
            && Choice(chosen) && Addrs(chosen) == e.validators.Keys <= Bonded(e.curr)
            && (chosen != [] <==> e.curr.items != map[] && (Epoch(cfg, b.header.height) || s.selectCount >= 0))
  {
    var s, d, t := c.node.strategy, Done(cfg, p, c, b).strategy, Turned(cfg, p, c, b);
    DoneFacts(cfg, p, c, b);
    if Epoch(cfg, b.header.height) {
      DropKeepsBonded(d.next, cfg.expired(d.next, d.height));
    }
    ChosenBonded(cfg, t, b.header.height, b.seed);
    RecordTracksChoice(cfg, t, b.header.height, b.seed);
  }

  /** The outline of a block that went through: the choice, the table worked on, and what they
      make of the node and of the pipeline. */
  ghost predicate Outline(cfg: Config, c: Chain, c': Chain, chosen: seq<Update>, worked: Table) {
    var s, s' := c.node.strategy, c'.node.strategy;
    && cfg.epochBlocks >= 1
    && NodeOk(s')
    && s'.height == s.height + 1
    && s' == s'.(selectCount := s.selectCount, dkgLimit := s.dkgLimit, totalBalance := s.totalBalance,
                 minorBonus := s.minorBonus, hfPassed := s.hfPassed)
    && Known(s.next) <= Known(worked)
    && s'.curr == (if Epoch(cfg, s'.height) then worked else s.curr)
    && Choice(chosen)
    && Addrs(chosen) == s'.validators.Keys <= Bonded(s'.curr)
    && c'.tm == c.tm.Advance((c.tm.pending - s.validators.Keys) + Powers(chosen))
  }

  lemma StepOutline(cfg: Config, p: Punishment, c: Chain, b: Block, c': Chain)
    requires NodeOk(c.node.strategy) && c.node.strategy.validators.Keys <= c.tm.pending.Keys
    requires Step(cfg, p, c, b, c')
    ensures Outline(cfg, c, c', Chosen(cfg, Turned(cfg, p, c, b), b.header.height, b.seed),
                    Done(cfg, p, c, b).strategy.next)
  {
    BlockFacts(cfg, p, c, b);
    DoneFacts(cfg, p, c, b);
    DiffAccepted(c.tm.pending, c.node.strategy.validators,
                 Chosen(cfg, Turned(cfg, p, c, b), b.header.height, b.seed), b.ups);
  }

  // ---------------------------------------------------------------- tracked and pending sets

  /** Pending validators the node does not know it has. */
  ghost function Untracked(c: Chain): set<TmAddress> {
    c.tm.pending.Keys - c.node.strategy.validators.Keys
  }

  ghost predicate Positive(vs: ValSet) {
    forall a :: a in vs ==> vs[a] > 0
  }

  ghost predicate Tracking(c: Chain) {
    && NodeOk(c.node.strategy)
    && c.node.strategy.validators.Keys <= c.tm.pending.Keys
    && Positive(c.tm.pending) && Positive(c.tm.current) && Positive(c.tm.last)
  }

  lemma PendingAfter(pending: ValSet, tracked: Tracked, chosen: seq<Update>)
    requires Positive(pending) && Choice(chosen)
    ensures var after := (pending - tracked.Keys) + Powers(chosen);
            && Positive(after)
            && after.Keys == (pending.Keys - tracked.Keys) + Addrs(chosen)
            && forall i :: 0 <= i < |chosen| ==> Addr(chosen[i]) in after && after[Addr(chosen[i])] == chosen[i].power
  {
    PowersPositive(chosen);
  }

  lemma OutlineTracks(cfg: Config, c: Chain, c': Chain, chosen: seq<Update>, worked: Table)
    requires Tracking(c) && Outline(cfg, c, c', chosen, worked)
    ensures Tracking(c')
    ensures Untracked(c') <= Untracked(c)
    ensures c'.tm.pending.Keys == Untracked(c) + c'.node.strategy.validators.Keys
    ensures forall i :: 0 <= i < |chosen| ==>
              Addr(chosen[i]) in c'.tm.pending && c'.tm.pending[Addr(chosen[i])] == chosen[i].power
  {
    PendingAfter(c.tm.pending, c.node.strategy.validators, chosen);
  }

  /** At every step: the tracked validators stay inside Tendermint's pending set, every chosen
      validator is pending with the emitted power, and the untracked part never grows. */
  lemma StepTracks(cfg: Config, p: Punishment, c: Chain, b: Block, c': Chain)
    requires Tracking(c) && Step(cfg, p, c, b, c')
    ensures Tracking(c')
    ensures Untracked(c') <= Untracked(c)
    ensures c'.tm.pending.Keys == Untracked(c) + c'.node.strategy.validators.Keys
    ensures var chosen := Chosen(cfg, Turned(cfg, p, c, b), b.header.height, b.seed);
            forall i :: 0 <= i < |chosen| ==>
              Addr(chosen[i]) in c'.tm.pending && c'.tm.pending[Addr(chosen[i])] == chosen[i].power
  {
    StepOutline(cfg, p, c, b, c');
    OutlineTracks(cfg, c, c', Chosen(cfg, Turned(cfg, p, c, b), b.header.height, b.seed),
                  Done(cfg, p, c, b).strategy.next);
  }

  /** Tendermint refuses the updates of a block exactly when they would remove everyone it has: the
      snapshot is empty, or a negative number was asked for, and all that is pending is tracked. */
  lemma UpdatesAccepted(cfg: Config, p: Punishment, c: Chain, b: Block)
    requires Tracking(c) && Offered(cfg, p, c, b)
    ensures Apply(c.tm.pending, b.ups).Accepted? <==>
            || (&& Closed(cfg, p, c, b).strategy.curr.items != map[]
                && (Epoch(cfg, b.header.height) || c.node.strategy.selectCount >= 0))
            || c.node.strategy.validators == map[]
            || Untracked(c) != {}
    ensures Apply(c.tm.pending, b.ups).Rejected? ==> Apply(c.tm.pending, b.ups).reason == EmptySet
  {
    BlockFacts(cfg, p, c, b);
    var chosen := Chosen(cfg, Turned(cfg, p, c, b), b.header.height, b.seed);
    DiffAccepted(c.tm.pending, c.node.strategy.validators, chosen, b.ups);
    AllTracked(c);
  }

  lemma PowersPositive(vs: seq<Update>)
    requires Choice(vs)
    ensures Powers(vs).Keys == Addrs(vs) && Positive(Powers(vs))
  {
  }

  lemma InitialTracks(cfg: Config, c: Chain, accounts: map<TmAddress, Account>, vs: seq<Update>)
    requires Initial(cfg, c, accounts, vs)
    ensures Tracking(c) && Untracked(c) == Addrs(vs) - c.node.strategy.validators.Keys
    ensures c.node.strategy.validators.Keys == Bonded(c.node.strategy.curr)
    ensures c.node.strategy.height == 0
    ensures NoRepeat(vs) && c.tm == Pipeline(map[], Powers(vs), Powers(vs)) && Powers(vs).Keys == Addrs(vs)
  {
    var sc: int, dk: int, tb: nat :| InitialWith(cfg, c, accounts, vs, sc, dk, tb);
    PowersPositive(vs);
    FoundedFacts(cfg, c.node.(strategy := Blank(sc, dk, tb)), accounts, vs);
  }

  /** What the start of a run gives. */
  lemma StartTracks(cfg: Config, cs: seq<Chain>, accounts: map<TmAddress, Account>, vs: seq<Update>)
    requires Begins(cfg, cs, accounts, vs)
    ensures Tracking(cs[0]) && Untracked(cs[0]) == Addrs(vs) - cs[0].node.strategy.validators.Keys
    ensures cs[0].node.strategy.validators.Keys == Bonded(cs[0].node.strategy.curr)
    ensures cs[0].node.strategy.height == 0
    ensures NoRepeat(vs) && cs[0].tm == Pipeline(map[], Powers(vs), Powers(vs)) && Powers(vs).Keys == Addrs(vs)
  {
    BeginsExactly(cfg, cs, accounts, vs);
    InitialTracks(cfg, cs[0], accounts, vs);
  }

  lemma {:induction false} TracksFrom(cfg: Config, p: Punishment, cs: seq<Chain>, bs: seq<Block>, i: nat, j: nat)
    requires Run(cfg, p, cs, bs) && i <= j < |cs| && Tracking(cs[i])
    ensures Tracking(cs[j]) && Untracked(cs[j]) <= Untracked(cs[i])
  {
    if i < j {
      TracksFrom(cfg, p, cs, bs, i, j - 1);
      NextTracks(cfg, p, cs, bs, j - 1);
    }
  }

  /** In any run, whatever the epoch length: tracked validators are pending validators, and the
      others are genesis validators InitChain did not enrol; that remainder never grows. If
      InitChain enrolled everyone, the two sets have the same members after every block. */
  lemma RunTracks(cfg: Config, p: Punishment, cs: seq<Chain>, bs: seq<Block>,
                  accounts: map<TmAddress, Account>, vs: seq<Update>, i: nat, j: nat)
    requires Run(cfg, p, cs, bs) && Begins(cfg, cs, accounts, vs) && i <= j < |cs|
    ensures Tracking(cs[j])
    ensures Untracked(cs[j]) <= Untracked(cs[i]) <= Untracked(cs[0]) == Addrs(vs) - cs[0].node.strategy.validators.Keys
    ensures cs[0].node.strategy.validators.Keys == Addrs(vs) ==>
              cs[j].node.strategy.validators.Keys == cs[j].tm.pending.Keys
  {
    StartTracks(cfg, cs, accounts, vs);
    TracksFrom(cfg, p, cs, bs, 0, i);
    TracksFrom(cfg, p, cs, bs, i, j);
    if cs[0].node.strategy.validators.Keys == Addrs(vs) {
      AllTracked(cs[j]);
    }
  }

  lemma AllTracked(c: Chain)
    requires c.node.strategy.validators.Keys <= c.tm.pending.Keys
    ensures Untracked(c) == {} <==> c.node.strategy.validators.Keys == c.tm.pending.Keys
  {
    assert c.tm.pending.Keys == Untracked(c) + c.node.strategy.validators.Keys;
  }

  lemma NextTracks(cfg: Config, p: Punishment, cs: seq<Chain>, bs: seq<Block>, i: nat)
    requires Run(cfg, p, cs, bs) && i < |bs| && Tracking(cs[i])
    ensures Tracking(cs[i + 1]) && Untracked(cs[i + 1]) <= Untracked(cs[i])
  {
    assert Linked(cfg, p, cs, bs, i);
    StepTracks(cfg, p, cs[i], bs[i], cs[i + 1]);
  }

  // ---------------------------------------------------------------- every voter resolves

  /** Where the members of the three sets can be found in the snapshot, apart from a set R of
      strangers. The further the last boundary lies back, the more of them are still bonded. */
  ghost predicate Resolving(cfg: Config, strangers: set<TmAddress>, c: Chain)
    requires cfg.epochBlocks >= 1
  {
    var s, tm := c.node.strategy, c.tm;
    var age := s.height % cfg.epochBlocks;
    && s.height >= 0
    && tm.pending.Keys - strangers <= Bonded(s.curr)
    && tm.current.Keys - strangers <= (if age >= 1 then Bonded(s.curr) else Known(s.curr))
    && tm.last.Keys - strangers <= (if age >= 2 then Bonded(s.curr) else Known(s.curr))
  }

  lemma AgeStep(h: int, e: int)
    requires h >= 0 && e >= 3
    ensures (h + 1) % e == 0 ==> h % e >= 2
    ensures (h + 1) % e != 0 ==> (h + 1) % e == h % e + 1
  {
    var q, r := h / e, h % e;
    Division(h, e);
    if r + 1 < e {
      ModUnique(h + 1, e, q, r + 1);
    } else {
      MulNext(e, q);
      ModUnique(h + 1, e, q + 1, 0);
    }
  }

  /** With epochs of at least three blocks a set chosen from one snapshot has stopped voting before
      a second boundary can forget any of its members. */
  lemma ResolvesUnder(cfg: Config, strangers: set<TmAddress>, c: Chain, h: int, curr: Table)
    requires cfg.epochBlocks >= 3 && TableOk(c.node.strategy.curr) && Resolving(cfg, strangers, c)
    requires h == c.node.strategy.height + 1
    requires if Epoch(cfg, h) then Bonded(c.node.strategy.curr) <= Known(curr) else curr == c.node.strategy.curr
    ensures c.tm.last.Keys - strangers <= Known(curr)
    ensures c.tm.current.Keys - strangers <= Known(curr)
    ensures c.tm.pending.Keys - strangers <= (if Epoch(cfg, h) then Known(curr) else Bonded(curr))
  {
    AgeStep(c.node.strategy.height, cfg.epochBlocks);
    BondedKnown(c.node.strategy.curr);
  }

  lemma SnapshotAfter(cfg: Config, p: Punishment, c: Chain, b: Block)
    requires NodeOk(c.node.strategy) && Offered(cfg, p, c, b)
    ensures var s, e := c.node.strategy, Closed(cfg, p, c, b).strategy;
            && TableOk(e.curr) && e.lastVotes == b.votes
            && if Epoch(cfg, b.header.height) then Bonded(s.curr) <= Known(e.curr) else e.curr == s.curr
  {
    DoneFacts(cfg, p, c, b);
    var s, d := c.node.strategy, Done(cfg, p, c, b).strategy;
    assert Bonded(s.curr) <= Known(s.next) <= Known(d.next);
  }

  lemma OutlineResolves(cfg: Config, strangers: set<TmAddress>, c: Chain, c': Chain, chosen: seq<Update>, worked: Table)
    requires cfg.epochBlocks >= 3 && Tracking(c) && Resolving(cfg, strangers, c)
    requires Outline(cfg, c, c', chosen, worked) && Untracked(c) <= strangers
    ensures Resolving(cfg, strangers, c')
  {
    var s, s' := c.node.strategy, c'.node.strategy;
    OutlineTracks(cfg, c, c', chosen, worked);
    AgeStep(s.height, cfg.epochBlocks);
    BondedKnown(s.curr);
    assert c'.tm.pending.Keys - strangers <= s'.validators.Keys;
  }

  lemma {:induction false} ResolvesFrom(cfg: Config, p: Punishment, cs: seq<Chain>, bs: seq<Block>,
                                        strangers: set<TmAddress>, i: nat)
    requires cfg.epochBlocks >= 3
    requires Run(cfg, p, cs, bs) && i < |cs|
    requires Tracking(cs[0]) && Resolving(cfg, strangers, cs[0]) && Untracked(cs[0]) <= strangers
    ensures Resolving(cfg, strangers, cs[i])
  {
    if i > 0 {
      ResolvesFrom(cfg, p, cs, bs, strangers, i - 1);
      TracksFrom(cfg, p, cs, bs, 0, i - 1);
      NextResolves(cfg, p, cs, bs, strangers, i - 1);
    }
  }

  lemma RunResolves(cfg: Config, p: Punishment, cs: seq<Chain>, bs: seq<Block>,
                    accounts: map<TmAddress, Account>, vs: seq<Update>, i: nat)
    requires cfg.epochBlocks >= 3
    requires Run(cfg, p, cs, bs) && Begins(cfg, cs, accounts, vs) && i < |cs|
    ensures Resolving(cfg, Untracked(cs[0]), cs[i])
  {
    StartTracks(cfg, cs, accounts, vs);
    BondedKnown(cs[0].node.strategy.curr);
    ResolvesFrom(cfg, p, cs, bs, Untracked(cs[0]), i);
  }

  lemma NextResolves(cfg: Config, p: Punishment, cs: seq<Chain>, bs: seq<Block>, strangers: set<TmAddress>, i: nat)
    requires cfg.epochBlocks >= 3
    requires Run(cfg, p, cs, bs) && i < |bs| && Tracking(cs[i]) && Untracked(cs[i]) <= strangers
    requires Resolving(cfg, strangers, cs[i])
    ensures Resolving(cfg, strangers, cs[i + 1])
  {
    var c, b, c' := cs[i], bs[i], cs[i + 1];
    assert Linked(cfg, p, cs, bs, i);
    StepOutline(cfg, p, c, b, c');
    OutlineResolves(cfg, strangers, c, c', Chosen(cfg, Turned(cfg, p, c, b), b.header.height, b.seed),
                    Done(cfg, p, c, b).strategy.next);
  }

  /** In every run a Commit comes down exactly when, below version 4, a voter that signed is not known.
      With epochs of at least three blocks that can only be a genesis validator that InitChain did
      not enrol. */
  lemma RewardPanicsExactly(cfg: Config, p: Punishment, cs: seq<Chain>, bs: seq<Block>,
                            accounts: map<TmAddress, Account>, vs: seq<Update>, b: Block)
    requires Run(cfg, p, cs, bs) && Begins(cfg, cs, accounts, vs) && Offered(cfg, p, cs[|bs|], b)
    ensures var c, e := cs[|bs|], Closed(cfg, p, cs[|bs|], b).strategy;
            Rewarded(cfg, p, c, b).Panicked? <==> e.blockVersion < NO_REWARD_VERSION && Unresolved(b.votes, e.curr)
    ensures var e := Closed(cfg, p, cs[|bs|], b).strategy;
            cfg.epochBlocks >= 3 ==>
              forall i :: 0 <= i < |b.votes| && b.votes[i].address !in Known(e.curr) ==>
                b.votes[i].address in Addrs(vs) - cs[0].node.strategy.validators.Keys
  {
    var c, n := cs[|bs|], Closed(cfg, p, cs[|bs|], b);
    RunTracks(cfg, p, cs, bs, accounts, vs, |bs|, |bs|);
    SnapshotAfter(cfg, p, c, b);
    PanicsExactly(n, c.tm.last);
    if cfg.epochBlocks >= 3 {
      RunResolves(cfg, p, cs, bs, accounts, vs, |bs|);
      ResolvesUnder(cfg, Untracked(cs[0]), c, b.header.height, n.strategy.curr);
    }
  }

  lemma PanicsExactly(n: Node, voters: ValSet)
    requires TableOk(n.strategy.curr) && Positive(voters) && VotesOf(n.strategy.lastVotes, voters)
    requires SignedPower(n.strategy.lastVotes) < 0x8000_0000_0000_0000
    ensures Accumulate(n.strategy, n.coinbase, n.balances).Panicked? <==>
            n.strategy.blockVersion < NO_REWARD_VERSION && Unresolved(n.strategy.lastVotes, n.strategy.curr)
  {
    assert VotesSane(n.strategy.lastVotes);
    AccumulateFaultsExactly(n.strategy, n.coinbase, n.balances);
  }

  /** So when InitChain enrolled every genesis validator, no Commit of any run can come down,
      across boundaries, unbonding, slashing, expiry and the two-block delay. */
  lemma NoRewardPanic(cfg: Config, p: Punishment, cs: seq<Chain>, bs: seq<Block>,
                      accounts: map<TmAddress, Account>, vs: seq<Update>, b: Block)
    requires cfg.epochBlocks >= 3
    requires Run(cfg, p, cs, bs) && Begins(cfg, cs, accounts, vs) && Offered(cfg, p, cs[|bs|], b)
    requires cs[0].node.strategy.validators.Keys == Addrs(vs)
    ensures Rewarded(cfg, p, cs[|bs|], b).Paid?
  {
    RewardPanicsExactly(cfg, p, cs, bs, accounts, vs, b);
  }

  // ---------------------------------------------------------------- progress

  lemma {:induction false} RemovalsExist(gone: set<TmAddress>) returns (r: seq<Update>)
    ensures Removals(r, gone)
    decreases |gone|
  {
    if gone == {} {
      r := [];
    } else {
      var a :| a in gone;
      var rest := RemovalsExist(gone - {a});
      RemovalsSnoc(rest, gone - {a}, a.key);
      r := rest + [Update(a.key, 0)];
      assert gone - {a} + {a} == gone;
    }
  }

  /** Every proposed block has an answer. */
  lemma Answer(cfg: Config, p: Punishment, c: Chain, b: Block) returns (ups: seq<Update>)
    requires Proposed(cfg, p, c, b)
    ensures Offered(cfg, p, c, b.(ups := ups))
  {
    var chosen := Chosen(cfg, Turned(cfg, p, c, b), b.header.height, b.seed);
    var r := RemovalsExist(c.node.strategy.validators.Keys - Addrs(chosen));
    ups := chosen + r;
    assert ups[|chosen|..] == r;
    assert Turned(cfg, p, c, b.(ups := ups)) == Turned(cfg, p, c, b);
  }

  /** It goes through if someone is bonded and every voter resolves. */
  lemma Proceed(cfg: Config, p: Punishment, c: Chain, b: Block) returns (c': Chain)
    requires Tracking(c) && Offered(cfg, p, c, b) && c.node.strategy.selectCount >= 0
    requires Closed(cfg, p, c, b).strategy.curr.items != map[]
    requires !Unresolved(b.votes, Closed(cfg, p, c, b).strategy.curr)
    ensures Step(cfg, p, c, b, c') && Tracking(c') && c'.tm.last == c.tm.current && c'.tm.current == c.tm.pending
    ensures c'.node.strategy == Closed(cfg, p, c, b).strategy
  {
    UpdatesAccepted(cfg, p, c, b);
    SnapshotAfter(cfg, p, c, b);
    var n := Closed(cfg, p, c, b);
    AccumulateFaultsExactly(n.strategy, n.coinbase, n.balances);
    c' := Chain(n.(balances := Rewarded(cfg, p, c, b).balances), c.tm.Advance(Apply(c.tm.pending, b.ups).vals),
                Persist(cfg, n.strategy, c.store));
    StepTracks(cfg, p, c, b, c');
  }

  ghost predicate GoesThrough(cfg: Config, p: Punishment, c: Chain, b: Block) {
    exists c' :: Step(cfg, p, c, b, c')
  }

  /** Tendermint never runs out of validators. */
  lemma {:induction false} NeverEmpty(cfg: Config, p: Punishment, cs: seq<Chain>, bs: seq<Block>, i: nat)
    requires Run(cfg, p, cs, bs) && i < |cs| && cs[0].tm.pending != map[]
    ensures cs[i].tm.pending != map[]
  {
    if i > 0 {
      NeverEmpty(cfg, p, cs, bs, i - 1);
      NextNonEmpty(cfg, p, cs, bs, i - 1);
    }
  }

  lemma NextNonEmpty(cfg: Config, p: Punishment, cs: seq<Chain>, bs: seq<Block>, i: nat)
    requires Run(cfg, p, cs, bs) && i < |bs| && cs[i].tm.pending != map[]
    ensures cs[i + 1].tm.pending != map[]
  {
    assert Linked(cfg, p, cs, bs, i);
  }

  lemma StartsNonEmpty(cfg: Config, cs: seq<Chain>, accounts: map<TmAddress, Account>, vs: seq<Update>)
    requires Begins(cfg, cs, accounts, vs)
    ensures cs[0].tm.pending != map[]
  {
    BeginsExactly(cfg, cs, accounts, vs);
    var sc: int, dk: int, tb: nat :| InitialWith(cfg, cs[0], accounts, vs, sc, dk, tb);
    assert vs != [];
    assert Addr(vs[0]) in Powers(vs);
  }

  /** What an offered block needs to go through: a list that does not empty the set, and no unknown
      voter below version 4. */
  lemma StepExists(cfg: Config, p: Punishment, c: Chain, b: Block)
    requires Tracking(c) && Offered(cfg, p, c, b)
    ensures GoesThrough(cfg, p, c, b) <==> Apply(c.tm.pending, b.ups).Accepted? && Rewarded(cfg, p, c, b).Paid?
  {
    if Apply(c.tm.pending, b.ups).Accepted? && Rewarded(cfg, p, c, b).Paid? {
      var n := Closed(cfg, p, c, b);
      var c' := Chain(n.(balances := Rewarded(cfg, p, c, b).balances),
                      c.tm.Advance(Apply(c.tm.pending, b.ups).vals), Persist(cfg, n.strategy, c.store));
      assert Step(cfg, p, c, b, c');
    }
  }

  /** Progress. With epochs of at least three blocks and every genesis validator enrolled, every block
      of every run goes through exactly if someone is bonded in its snapshot and, between two
      boundaries, the count is not negative. */
  lemma ProgressExactly(cfg: Config, p: Punishment, cs: seq<Chain>, bs: seq<Block>,
                        accounts: map<TmAddress, Account>, vs: seq<Update>, b: Block)
    requires cfg.epochBlocks >= 3
    requires Run(cfg, p, cs, bs) && Begins(cfg, cs, accounts, vs) && Offered(cfg, p, cs[|bs|], b)
    requires cs[0].node.strategy.validators.Keys == Addrs(vs)
    ensures GoesThrough(cfg, p, cs[|bs|], b) <==>
            && Closed(cfg, p, cs[|bs|], b).strategy.curr.items != map[]
            && (Epoch(cfg, b.header.height) || cs[|bs|].node.strategy.selectCount >= 0)
  {
    var c := cs[|bs|];
    RunTracks(cfg, p, cs, bs, accounts, vs, |bs|, |bs|);
    StartsNonEmpty(cfg, cs, accounts, vs);
    NeverEmpty(cfg, p, cs, bs, |bs|);
    NoRewardPanic(cfg, p, cs, bs, accounts, vs, b);
    StepExists(cfg, p, c, b);
    UpdatesAccepted(cfg, p, c, b);
    AllTracked(c);
    assert c.node.strategy.validators == map[] ==> c.tm.pending.Keys == {};
  }
}
