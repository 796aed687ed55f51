/** The application object behind the runs: its methods, called as Tendermint calls them, make a run. */
module Drivers {
  import opened Types
  import opened Tendermint
  import opened Strategies
  import opened Ledger
  import opened Rewards
  import opened Punishments
  import opened Application
  import opened Chains

  /** The ABCI calls of one block on the application object, in Tendermint's order. Whatever order
      the maps are walked in, the calls amount to a step of the chain. */
  method ProcessBlock(app: EthermintApplication, b: Block, ghost tm: Pipeline)
    returns (ups: seq<Update>, fault: Option<Fault>)
    requires NodeOk(app.strategy.View())
    requires Proposed(app.cfg, app.punishment, Chain(app.View(), tm, app.store), b)
    modifies app`store, app.strategy, app.work
    ensures var c := old(Chain(app.View(), tm, app.store));
            && Offered(app.cfg, app.punishment, c, b.(ups := ups))
            && (fault.Some? <==> Rewarded(app.cfg, app.punishment, c, b.(ups := ups)).Panicked?)
            && (fault.None? && Apply(tm.pending, ups).Accepted? ==>
                  Step(app.cfg, app.punishment, c, b.(ups := ups),
                       Chain(app.View(), tm.Advance(Apply(tm.pending, ups).vals), app.store)))
  {
    ghost var c := Chain(app.View(), tm, app.store);
    DoneFacts(app.cfg, app.punishment, c, b);
    DeliverBlock(app, b);
    ghost var done := app.View();
    assert done == Done(app.cfg, app.punishment, c, b);
    ups := app.EndBlock(b.header.height, b.seed);
    ghost var b' := b.(ups := ups);
    assert Turned(app.cfg, app.punishment, c, b') == Turned(app.cfg, app.punishment, c, b);
    assert app.View() == Closed(app.cfg, app.punishment, c, b');
    fault := app.Commit();
  }

  /** BeginBlock and the transactions. */
  method DeliverBlock(app: EthermintApplication, b: Block)
    requires |app.cfg.versions| == |app.cfg.heights|
    requires Begin(app.cfg, app.punishment, app.View(), b.header, b.votes, b.evidence).Some?
    modifies app.strategy, app.work
    ensures var n := old(Begin(app.cfg, app.punishment, app.View(), b.header, b.votes, b.evidence)).value;
            app.View() == WithStake(n, b.exec(StakeOf(n)))
  {
    var ok := app.BeginBlock(b.header, b.votes, b.evidence);
    var k := b.exec(Stake(app.strategy.next, app.strategy.changed, app.work.balances));
    app.strategy.next, app.strategy.changed := k.next, k.changed;
    app.work.balances := k.balances;
  }

  // ---------------------------------------------------------------- whole runs

  /** A node is set up, answers Info and is given its genesis. */
  method Launch(cfg: Config, p: Punishment, selectCount: int, dkgLimit: int, totalBalance: nat, balances: Balances,
                accounts: map<TmAddress, Account>, vs: seq<Update>)
    returns (app: EthermintApplication, ok: bool)
    requires ConfigOk(cfg) && Choice(vs)
    ensures fresh(app) && fresh(app.strategy) && fresh(app.work) && app.cfg == cfg && app.punishment == p
    ensures ok <==> Founded(cfg, Node(Blank(selectCount, dkgLimit, totalBalance), balances, 0), accounts, vs).Some?
    ensures ok ==> Begins(cfg, [Chain(app.View(), Pipeline(map[], Powers(vs), Powers(vs)), app.store)], accounts, vs)
  {
    var strategy := new Strategy(selectCount, dkgLimit, totalBalance);
    var work := new WorkState(balances, 0);
    app := new EthermintApplication(cfg, p, strategy, work, accounts, EMPTY_STORE);
    var version := app.Info(0);
    assert app.View() == Node(Blank(selectCount, dkgLimit, totalBalance), balances, 0);
    ok := app.InitChain(vs);
    if ok {
      ghost var c := Chain(app.View(), Pipeline(map[], Powers(vs), Powers(vs)), app.store);
      assert InitialWith(cfg, c, accounts, vs, selectCount, dkgLimit, totalBalance);
      BeginsExactly(cfg, [c], accounts, vs);
    }
  }

  /** Blocks Tendermint may propose one after the other, whichever way the node answers. */
  ghost predicate Feeds(cfg: Config, p: Punishment, c: Chain, bs: seq<Block>)
    decreases |bs|
  {
    bs == [] ||
    (&& Proposed(cfg, p, c, bs[0])
     && forall ups: seq<Update>, c': Chain ::
          Step(cfg, p, c, bs[0].(ups := ups), c') ==> Feeds(cfg, p, c', bs[1..]))
  }

  /** How a sequence of blocks ends: worked through, or at a block whose update list Tendermint
      refused or whose Commit came down. */
  datatype Stop = Finished | Refused(block: Block) | Faulted(block: Block)

  ghost predicate Ends(cfg: Config, p: Punishment, c: Chain, bs: seq<Block>, stop: Stop) {
    match stop
    case Finished => bs == []
    case Refused(b) =>
      && bs != [] && b == bs[0].(ups := b.ups) && Offered(cfg, p, c, b)
      && Apply(c.tm.pending, b.ups).Rejected?
    case Faulted(b) =>
      && bs != [] && b == bs[0].(ups := b.ups) && Offered(cfg, p, c, b)
      && Rewarded(cfg, p, c, b).Panicked?
  }

  /** The answered blocks are the given ones, but for their update lists. */
  ghost predicate Answers(bs: seq<Block>, answered: seq<Block>) {
    |answered| <= |bs| && forall i :: 0 <= i < |answered| ==> answered[i] == bs[i].(ups := answered[i].ups)
  }

  /** Part of a list of blocks has been answered: the run so far leads from chain c0 to chain c. */
  ghost predicate Worked(cfg: Config, p: Punishment, c0: Chain, bs: seq<Block>, answered: seq<Block>, cs: seq<Chain>,
                         c: Chain)
  {
    && Answers(bs, answered)
    && Run(cfg, p, cs, answered) && cs[0] == c0 && cs[|answered|] == c
    && Tracking(c) && Feeds(cfg, p, c, bs[|answered|..])
  }

  lemma WorkedHead(cfg: Config, p: Punishment, c0: Chain, bs: seq<Block>, answered: seq<Block>, cs: seq<Chain>,
                   c: Chain)
    requires Worked(cfg, p, c0, bs, answered, cs, c) && |answered| < |bs|
    ensures NodeOk(c.node.strategy) && Proposed(cfg, p, c, bs[|answered|])
  {
    assert bs[|answered|..][0] == bs[|answered|];
  }

  lemma WorkedNext(cfg: Config, p: Punishment, c0: Chain, bs: seq<Block>, answered: seq<Block>, cs: seq<Chain>,
                   c: Chain, b: Block, c': Chain)
    requires Worked(cfg, p, c0, bs, answered, cs, c) && |answered| < |bs|
    requires b == bs[|answered|].(ups := b.ups) && Step(cfg, p, c, b, c')
    ensures Worked(cfg, p, c0, bs, answered + [b], cs + [c'], c')
  {
    GoesOn(cfg, p, c, bs, |answered|, b, c');
    RunSnoc(cfg, p, cs, answered, c, b, c');
    AnswersSnoc(bs, answered, b);
    WorkedFrom(cfg, p, c0, bs, answered + [b], cs + [c'], c');
  }

  lemma WorkedFrom(cfg: Config, p: Punishment, c0: Chain, bs: seq<Block>, answered: seq<Block>, cs: seq<Chain>,
                   c: Chain)
    requires |answered| <= |bs| && Answers(bs, answered) && Run(cfg, p, cs, answered)
    requires cs[0] == c0 && cs[|answered|] == c && Tracking(c) && Feeds(cfg, p, c, bs[|answered|..])
    ensures Worked(cfg, p, c0, bs, answered, cs, c)
  {
  }

  lemma AnswersSnoc(bs: seq<Block>, answered: seq<Block>, b: Block)
    requires |answered| < |bs| && b == bs[|answered|].(ups := b.ups) && Answers(bs, answered)
    ensures Answers(bs, answered + [b])
  {
  }

  lemma GoesOn(cfg: Config, p: Punishment, c: Chain, bs: seq<Block>, n: nat, b: Block, c': Chain)
    requires n < |bs| && Tracking(c) && Feeds(cfg, p, c, bs[n..]) && b == bs[n].(ups := b.ups)
    requires Step(cfg, p, c, b, c')
    ensures Tracking(c') && Feeds(cfg, p, c', bs[n + 1..])
  {
    assert bs[n..][0] == bs[n] && bs[n..][1..] == bs[n + 1..];
    FeedsNext(cfg, p, c, bs[n..], b, c');
    StepTracks(cfg, p, c, b, c');
  }

  lemma FeedsNext(cfg: Config, p: Punishment, c: Chain, bs: seq<Block>, b: Block, c': Chain)
    requires Feeds(cfg, p, c, bs) && bs != [] && b == bs[0].(ups := b.ups) && Step(cfg, p, c, b, c')
    ensures Feeds(cfg, p, c', bs[1..])
  {
    assert Step(cfg, p, c, bs[0].(ups := b.ups), c');
  }

  /** One more block, on the object and on Tendermint's side. */
  method NextBlock(app: EthermintApplication, b: Block, tm: Pipeline) returns (b': Block, tm': Pipeline, stop: Stop)
    requires NodeOk(app.strategy.View())
    requires Proposed(app.cfg, app.punishment, Chain(app.View(), tm, app.store), b)
    modifies app`store, app.strategy, app.work
    ensures b' == b.(ups := b'.ups)
    ensures stop.Finished? ==> Step(app.cfg, app.punishment, old(Chain(app.View(), tm, app.store)), b',
                                    Chain(app.View(), tm', app.store))
    ensures !stop.Finished? ==> Ends(app.cfg, app.punishment, old(Chain(app.View(), tm, app.store)), [b], stop)
  {
    var ups, fault := ProcessBlock(app, b, tm);
    b', tm' := b.(ups := ups), tm;
    if fault.Some? {
      return b', tm', Faulted(b');
    }
    var applied := Apply(tm.pending, ups);
    if applied.Rejected? {
      return b', tm', Refused(b');
    }
    tm', stop := tm.Advance(applied.vals), Finished;
  }

  /** The object works through a list of blocks. Its states after each block, and its answers, are a
      run; it stops early only at a refused list or a fault. */
  method WorkThrough(app: EthermintApplication, start: Pipeline, bs: seq<Block>)
    returns (answered: seq<Block>, tm: Pipeline, stop: Stop, ghost cs: seq<Chain>)
    requires Tracking(Chain(app.View(), start, app.store))
    requires Feeds(app.cfg, app.punishment, Chain(app.View(), start, app.store), bs)
    modifies app`store, app.strategy, app.work
    ensures Run(app.cfg, app.punishment, cs, answered) && cs[0] == old(Chain(app.View(), start, app.store))
    ensures Answers(bs, answered)
    ensures Ends(app.cfg, app.punishment, cs[|answered|], bs[|answered|..], stop)
    ensures stop.Finished? ==> cs[|answered|] == Chain(app.View(), tm, app.store)
  {
    answered, tm, stop := [], start, Finished;
    ghost var c0 := Chain(app.View(), tm, app.store);
    cs := [c0];
    assert bs[0..] == bs;
    while |answered| < |bs|
      invariant Worked(app.cfg, app.punishment, c0, bs, answered, cs, Chain(app.View(), tm, app.store))
      decreases |bs| - |answered|
    {
      ghost var c := Chain(app.View(), tm, app.store);
      WorkedHead(app.cfg, app.punishment, c0, bs, answered, cs, c);
      var b, tm', ended := NextBlock(app, bs[|answered|], tm);
      if !ended.Finished? {
        stop := ended;
        return;
      }
      tm := tm';
      ghost var c' := Chain(app.View(), tm, app.store);
      WorkedNext(app.cfg, app.punishment, c0, bs, answered, cs, c, b, c');
      answered, cs := answered + [b], cs + [c'];
    }
  }

  /** A launched node at work: what it goes through is a run from its genesis, so all that holds of
      runs holds of the object. With epochs of at least three blocks and every genesis validator
      enrolled, no Commit comes down. */
  method Operate(app: EthermintApplication, bs: seq<Block>, ghost accounts: map<TmAddress, Account>, vs: seq<Update>)
    returns (answered: seq<Block>, stop: Stop, ghost cs: seq<Chain>)
    requires NoRepeat(vs)
    requires var c := Chain(app.View(), Pipeline(map[], Powers(vs), Powers(vs)), app.store);
             Begins(app.cfg, [c], accounts, vs) && Feeds(app.cfg, app.punishment, c, bs)
    modifies app`store, app.strategy, app.work
    ensures Run(app.cfg, app.punishment, cs, answered) && Begins(app.cfg, cs, accounts, vs)
    ensures Answers(bs, answered)
    ensures Ends(app.cfg, app.punishment, cs[|answered|], bs[|answered|..], stop)
    ensures stop.Finished? ==> cs[|bs|].node == app.View() && cs[|bs|].store == app.store
    ensures app.cfg.epochBlocks >= 3 && cs[0].node.strategy.validators.Keys == Addrs(vs) ==> !stop.Faulted?
  {
    var start := Pipeline(map[], Powers(vs), Powers(vs));
    StartTracks(app.cfg, [Chain(app.View(), start, app.store)], accounts, vs);
    var tm;
    answered, tm, stop, cs := WorkThrough(app, start, bs);
    BeginsWith(app.cfg, cs, accounts, vs);
    NeverFaults(app.cfg, app.punishment, cs, answered, accounts, vs, bs[|answered|..], stop);
  }

  lemma NeverFaults(cfg: Config, p: Punishment, cs: seq<Chain>, answered: seq<Block>,
                    accounts: map<TmAddress, Account>, vs: seq<Update>, rest: seq<Block>, stop: Stop)
    requires Run(cfg, p, cs, answered) && Begins(cfg, cs, accounts, vs)
    requires Ends(cfg, p, cs[|answered|], rest, stop)
    ensures cfg.epochBlocks >= 3 && cs[0].node.strategy.validators.Keys == Addrs(vs) ==> !stop.Faulted?
  {
    if cfg.epochBlocks >= 3 && cs[0].node.strategy.validators.Keys == Addrs(vs) && stop.Faulted? {
      NoRewardPanic(cfg, p, cs, answered, accounts, vs, stop.block);
    }
  }
}
