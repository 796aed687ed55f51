/** Crash and restart: what Commit leaves on disk is enough to go on as if nothing had happened. */
module Restarts {
  import opened Types
  import opened Tendermint
  import opened Strategies
  import opened Forks
  import opened Punishments
  import opened Application
  import opened Chains
  import opened RunProperties

  /** The three stored slots hold the live record, snapshot and table. */
  ghost predicate Saved(c: Chain) {
    var s := c.node.strategy;
    && c.store.height == Some(StoredHeight(s.height, s.validators))
    && c.store.epoch == Some(StoredEpoch(Strip(s.curr), s.totalBalance))
    && c.store.next == Some(Strip(s.next))
  }

  /** Every Commit leaves the slots up to date, although it writes the table only when the dirty
      flag is up or the epoch turns, and the snapshot only when the epoch turns. */
  lemma StepSaves(cfg: Config, p: Punishment, c: Chain, b: Block, c': Chain)
    requires NodeOk(c.node.strategy) && Saved(c) && Step(cfg, p, c, b, c')
    ensures Saved(c')
  {
    DoneFacts(cfg, p, c, b);
  }

  lemma {:induction false} SavedFrom(cfg: Config, p: Punishment, cs: seq<Chain>, bs: seq<Block>, i: nat)
    requires Run(cfg, p, cs, bs) && i < |cs| && Tracking(cs[0]) && Saved(cs[0])
    ensures Saved(cs[i])
  {
    if i > 0 {
      SavedFrom(cfg, p, cs, bs, i - 1);
      TracksFrom(cfg, p, cs, bs, 0, i - 1);
      NextSaves(cfg, p, cs, bs, i - 1);
    }
  }

  lemma NextSaves(cfg: Config, p: Punishment, cs: seq<Chain>, bs: seq<Block>, i: nat)
    requires Run(cfg, p, cs, bs) && i < |bs| && Tracking(cs[i]) && Saved(cs[i])
    ensures Saved(cs[i + 1])
  {
    assert Linked(cfg, p, cs, bs, i);
    StepSaves(cfg, p, cs[i], bs[i], cs[i + 1]);
  }

  lemma InitialSaves(cfg: Config, c: Chain, accounts: map<TmAddress, Account>, vs: seq<Update>)
    requires Initial(cfg, c, accounts, vs)
    ensures Saved(c) && ConfigOk(cfg)
  {
    InitialTracks(cfg, c, accounts, vs);
    assert 0 % cfg.epochBlocks == 0;
  }

  /** After every Commit of any run the stored slots hold exactly the live data. */
  lemma RunSaves(cfg: Config, p: Punishment, cs: seq<Chain>, bs: seq<Block>,
                 accounts: map<TmAddress, Account>, vs: seq<Update>, i: nat)
    requires Run(cfg, p, cs, bs) && Begins(cfg, cs, accounts, vs) && i < |cs|
    ensures Saved(cs[i])
  {
    StartTracks(cfg, cs, accounts, vs);
    StartSaves(cfg, cs, accounts, vs);
    SavedFrom(cfg, p, cs, bs, i);
  }

  lemma StartSaves(cfg: Config, cs: seq<Chain>, accounts: map<TmAddress, Account>, vs: seq<Update>)
    requires Begins(cfg, cs, accounts, vs)
    ensures Saved(cs[0]) && ConfigOk(cfg)
  {
    BeginsExactly(cfg, cs, accounts, vs);
    InitialSaves(cfg, cs[0], accounts, vs);
  }

  /** Two strategies that differ only in what BeginBlock overwrites. */
  ghost predicate SameCommitted(s: StrategyState, s': StrategyState) {
    s' == s.(changed := s'.changed, hfHeight := s'.hfHeight, proposer := s'.proposer, lastVotes := s'.lastVotes,
    blockVersion := s'.blockVersion)
  }

  /** The node that comes up after a crash: the state database survives, the work in progress is
      reset. */
  ghost function Reborn(cfg: Config, c: Chain, coinbase: Address): Chain
    requires |cfg.versions| == |cfg.heights| && Loadable(c.store)
  {
    var s := c.node.strategy;
    c.(node := Node(Restarted(cfg, c.store, s.selectCount, s.dkgLimit), c.node.balances, coinbase))
  }

  lemma RebornSame(cfg: Config, c: Chain, coinbase: Address)
    requires |cfg.versions| == |cfg.heights| && NodeOk(c.node.strategy) && Saved(c)
    requires Economics(c.node.strategy, c.node.strategy.totalBalance) && c.node.strategy.hfPassed
    ensures Loadable(c.store)
    ensures SameCommitted(c.node.strategy, Reborn(cfg, c, coinbase).node.strategy)
  {
    StoreRoundTrip(c.node.strategy.curr);
    StoreRoundTrip(c.node.strategy.next);
  }

  /** BeginBlock wipes out every difference. */
  lemma BeginForgets(cfg: Config, p: Punishment, n: Node, n': Node, b: Block)
    requires |cfg.versions| == |cfg.heights|
    requires SameCommitted(n.strategy, n'.strategy) && n.balances == n'.balances
    ensures Begin(cfg, p, n, b.header, b.votes, b.evidence) == Begin(cfg, p, n', b.header, b.votes, b.evidence)
  {
    assert Opened(cfg, n.strategy, b.header, b.votes) == Opened(cfg, n'.strategy, b.header, b.votes);
  }

  /** So both nodes accept the same blocks, answer them with the same updates, pay the same rewards
      or come down with the same fault, and end up in the same state. */
  lemma SameBlocks(cfg: Config, p: Punishment, c: Chain, r: Chain, b: Block, c': Chain)
    requires |cfg.versions| == |cfg.heights|
    requires SameCommitted(c.node.strategy, r.node.strategy) && c.node.balances == r.node.balances
    requires c.tm == r.tm && c.store == r.store
    ensures Offered(cfg, p, c, b) <==> Offered(cfg, p, r, b)
    ensures Offered(cfg, p, c, b) ==> Rewarded(cfg, p, c, b) == Rewarded(cfg, p, r, b)
    ensures Step(cfg, p, c, b, c') <==> Step(cfg, p, r, b, c')
  {
    BeginForgets(cfg, p, c.node, r.node, b);
  }

  lemma SavedRun(cfg: Config, p: Punishment, cs: seq<Chain>, bs: seq<Block>,
                 accounts: map<TmAddress, Account>, vs: seq<Update>, i: nat, coinbase: Address)
    requires Run(cfg, p, cs, bs) && Begins(cfg, cs, accounts, vs) && i < |cs|
    ensures |cfg.versions| == |cfg.heights| && Loadable(cs[i].store)
    ensures SameCommitted(cs[i].node.strategy, Reborn(cfg, cs[i], coinbase).node.strategy)
  {
    var total := cs[0].node.strategy.totalBalance;
    StartTracks(cfg, cs, accounts, vs);
    StartEconomics(cfg, cs, accounts, vs);
    StartSaves(cfg, cs, accounts, vs);
    TracksFrom(cfg, p, cs, bs, 0, i);
    RunSaves(cfg, p, cs, bs, accounts, vs, i);
    EconomicsKept(cfg, p, cs, bs, total, i);
    ScheduleOn(cfg, p, cs, bs, i);
    RebornSame(cfg, cs[i], coinbase);
  }

  /** A crash after any Commit of any run goes unnoticed: the stored state can be read back, and
      from then on every block is possible, and has the same outcome, exactly as for the live node. */
  lemma RestartUnnoticed(cfg: Config, p: Punishment, cs: seq<Chain>, bs: seq<Block>,
                         accounts: map<TmAddress, Account>, vs: seq<Update>, i: nat, coinbase: Address,
                         b: Block, c': Chain)
    requires Run(cfg, p, cs, bs) && Begins(cfg, cs, accounts, vs) && i < |cs|
    ensures |cfg.versions| == |cfg.heights| && Loadable(cs[i].store)
    ensures Offered(cfg, p, cs[i], b) <==> Offered(cfg, p, Reborn(cfg, cs[i], coinbase), b)
    ensures Offered(cfg, p, cs[i], b) ==>
              Rewarded(cfg, p, cs[i], b) == Rewarded(cfg, p, Reborn(cfg, cs[i], coinbase), b)
    ensures Step(cfg, p, cs[i], b, c') <==> Step(cfg, p, Reborn(cfg, cs[i], coinbase), b, c')
  {
    SavedRun(cfg, p, cs, bs, accounts, vs, i, coinbase);
    SameBlocks(cfg, p, cs[i], Reborn(cfg, cs[i], coinbase), b, c');
  }

  /** Right after the restart, before any BeginBlock, the node is at the version the schedule gives for
      its height, 0 where the schedule has not begun; from the first scheduled height on that is the
      version of the live node. */
  lemma RestartVersion(cfg: Config, p: Punishment, cs: seq<Chain>, bs: seq<Block>,
                       accounts: map<TmAddress, Account>, vs: seq<Update>, i: nat, coinbase: Address)
    requires Run(cfg, p, cs, bs) && Begins(cfg, cs, accounts, vs) && 0 < i < |cs|
    ensures |cfg.versions| == |cfg.heights| && Loadable(cs[i].store)
    ensures var live, reborn := cs[i].node.strategy, Reborn(cfg, cs[i], coinbase).node.strategy;
            && reborn.height == reborn.hfHeight == live.height && reborn.hfPassed
            && reborn.blockVersion == VersionAt(cfg.heights, cfg.versions, live.height, 0)
            && ((exists j :: Reached(cfg.heights, live.height, j)) ==> reborn.blockVersion == live.blockVersion)
  {
    StartTracks(cfg, cs, accounts, vs);
    StartEconomics(cfg, cs, accounts, vs);
    SavedRun(cfg, p, cs, bs, accounts, vs, i, coinbase);
    RunSaves(cfg, p, cs, bs, accounts, vs, i);
    ScheduleOn(cfg, p, cs, bs, i);
    var live := cs[i].node.strategy;
    if j :| Reached(cfg.heights, live.height, j) {
      var g := SomeGreatest(cfg.heights, live.height, j);
      VersionIsGreatestReached(cfg.heights, cfg.versions, live.height, 0, g);
      VersionIsGreatestReached(cfg.heights, cfg.versions, live.height, bs[i - 1].header.version, g);
    }
  }

  /** Continuations: the live node and the restarted one have the same futures. */
  lemma SameFutures(cfg: Config, p: Punishment, cs: seq<Chain>, bs: seq<Block>,
                    accounts: map<TmAddress, Account>, vs: seq<Update>, i: nat, coinbase: Address,
                    later: seq<Chain>, blocks: seq<Block>)
    requires Run(cfg, p, cs, bs) && Begins(cfg, cs, accounts, vs) && i < |cs| && blocks != []
    ensures |cfg.versions| == |cfg.heights| && Loadable(cs[i].store)
    ensures Run(cfg, p, [cs[i]] + later, blocks) <==> Run(cfg, p, [Reborn(cfg, cs[i], coinbase)] + later, blocks)
  {
    SavedRun(cfg, p, cs, bs, accounts, vs, i, coinbase);
    var live, reborn := [cs[i]] + later, [Reborn(cfg, cs[i], coinbase)] + later;
    if |later| == |blocks| {
      SameBlocks(cfg, p, cs[i], Reborn(cfg, cs[i], coinbase), blocks[0], later[0]);
      forall j | 0 <= j < |blocks| ensures Linked(cfg, p, live, blocks, j) <==> Linked(cfg, p, reborn, blocks, j) {
        assert j > 0 ==> live[j] == reborn[j];
        assert live[j + 1] == reborn[j + 1];
      }
    }
  }
}
