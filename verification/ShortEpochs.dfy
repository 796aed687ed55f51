/** Epochs of three blocks are the shortest safe ones: with one or two blocks an epoch there is a
    run in which every genesis validator was enrolled and a Commit still comes down. */
module ShortEpochs {
  import opened Types
  import opened Tendermint
  import opened Selection
  import opened Strategies
  import opened Punishments
  import opened Application
  import opened Chains
  import opened BlockEffects
  import opened Scenarios

  /** A run over epochs of e blocks, with every genesis validator enrolled, that ends in a panic. */
  ghost predicate Fatal(e: int, cfg: Config, p: Punishment, cs: seq<Chain>, bs: seq<Block>,
                        accounts: map<TmAddress, Account>, vs: seq<Update>, b: Block)
  {
    && cfg.epochBlocks == e >= 1
    && Run(cfg, p, cs, bs) && Begins(cfg, cs, accounts, vs)
    && cs[0].node.strategy.validators.Keys == Addrs(vs)
    && Offered(cfg, p, cs[|bs|], b)
    && Rewarded(cfg, p, cs[|bs|], b).Panicked?
  }

  ghost predicate HasFatal(e: int) {
    exists cfg, p, cs, bs, accounts, vs, b :: Fatal(e, cfg, p, cs, bs, accounts, vs, b)
  }

  /** A boundary after signer 2 has been forgotten, while it still votes. */
  lemma LastBlock(e: int, p: Punishment, cs: seq<Chain>, bs: seq<Block>, c0: Chain, c: Chain, power: int)
    requires Told(e, p, cs, bs, c0, c) && Opening(e, 2, c0)
    requires Tracking(c) && Story(e, c.node.strategy) && c.node.strategy.next == LEFT
    requires (c.node.strategy.height + 1) % e == 0 && 0 < power <= 1000 && c.tm.last == map[A1 := power, A2 := power]
    ensures HasFatal(e)
  {
    var b := FatalBlock(e, p, c, power);
    Conclude(ShortConfig(e), p, cs, bs, ACCOUNTS, GENESIS, c, b);
  }

  lemma FatalBlock(e: int, p: Punishment, c: Chain, power: int) returns (b: Block)
    requires e >= 1 && Tracking(c) && Story(e, c.node.strategy) && c.node.strategy.next == LEFT
    requires (c.node.strategy.height + 1) % e == 0 && 0 < power <= 1000 && c.tm.last == map[A1 := power, A2 := power]
    ensures Offered(ShortConfig(e), p, c, b) && Rewarded(ShortConfig(e), p, c, b).Panicked?
  {
    var votes := BothVote(power);
    BoundaryTables(e, c.node.strategy, c.node.balances);
    b := QuietPanic(e, p, c, votes);
  }

  lemma Conclude(cfg: Config, p: Punishment, cs: seq<Chain>, bs: seq<Block>,
                 accounts: map<TmAddress, Account>, vs: seq<Update>, c: Chain, b: Block)
    requires cfg.epochBlocks >= 1 && Run(cfg, p, cs, bs) && Begins(cfg, [cs[0]], accounts, vs)
    requires cs[0].node.strategy.validators.Keys == Addrs(vs) && cs[|bs|] == c
    requires Offered(cfg, p, c, b) && Rewarded(cfg, p, c, b).Panicked?
    ensures HasFatal(cfg.epochBlocks)
  {
    BeginsWith(cfg, cs, accounts, vs);
    assert Fatal(cfg.epochBlocks, cfg, p, cs, bs, accounts, vs, b);
  }

  /** Boundaries in two blocks running: signer 2 leaves in block 1 and is forgotten, and in block 2 it
      is its turn to vote. */
  lemma BoundariesInARow(e: int, p: Punishment)
    requires e >= 1 && 1 % e == 2 % e == 0
    ensures HasFatal(e)
  {
    var c0 := Open(e, 2);
    BoundaryTables(e, c0.node.strategy, c0.node.balances);
    var b1, c1 := Tell(e, p, [c0], [], c0, c0, [], Leave);
    LastBlock(e, p, [c0] + [c1], [] + [b1], c0, c1, 10);
  }

  /** The first selection of the two-block run: both validators, once each. */
  lemma FirstSelection()
    ensures Tally(Prefix(Draws(Picker(), BOTH.items, None, 1), 2)) == [Update(K1, 1000), Update(K2, 1000)]
  {
    var draw := Draws(Picker(), BOTH.items, None, 1);
    assert draw(0) == K1 && draw(1) == K2;
    assert Prefix(draw, 2) == [K1] + [K2] && [K1] == [] + [K1];
    TallyNew([], K1);
    TallyNew([K1], K2);
    assert Tally([]) == [];
  }

  lemma BothPowers()
    ensures var chosen := [Update(K1, 1000), Update(K2, 1000)];
            NoRepeat(chosen) && Powers(chosen) == map[A1 := 1000, A2 := 1000]
  {
    var chosen := [Update(K1, 1000), Update(K2, 1000)];
    PowersPositive(chosen);
    assert Addr(chosen[0]) == A1 && Addr(chosen[1]) == A2;
    assert Powers(chosen)[Addr(chosen[0])] == 1000 && Powers(chosen)[Addr(chosen[1])] == 1000;
    assert Addrs(chosen) == {A1, A2};
  }

  /** A choice made at height 1 from the full table. */
  lemma ChosenBoth(e: int, t: StrategyState)
    requires e >= 1 && 1 % e != 0 && t.curr == BOTH && t.blockVersion == 0 && t.selectCount == 2
    ensures ConfigOk(ShortConfig(e)) && CanChoose(ShortConfig(e), t, 1, None)
    ensures Chosen(ShortConfig(e), t, 1, None) == [Update(K1, 1000), Update(K2, 1000)]
  {
    ShortConfigOk(e);
    FirstSelection();
    assert 1 in t.curr.items;
  }

  lemma SelectBoth(e: int, p: Punishment, c: Chain, b: Block, c': Chain)
    requires e >= 1 && 1 % e != 0 && Opening(e, 2, c)
    requires b == Quiet(1, [], Idle).(ups := b.ups) && Step(ShortConfig(e), p, c, b, c')
    ensures c'.tm.pending == map[A1 := 1000, A2 := 1000]
  {
    var cfg, b0 := ShortConfig(e), Quiet(1, [], Idle);
    QuietProposed(e, p, c, [], Idle);
    UpdatesDoNotMatter(cfg, p, c, b0, b.ups);
    ChosenBoth(e, Turned(cfg, p, c, b));
    BothPowers();
    StepPending(cfg, p, c, b, c');
    OnlyChosen(c.tm.pending, c.node.strategy.validators, map[A1 := 1000, A2 := 1000]);
  }

  lemma FirstStep(e: int, p: Punishment, c0: Chain) returns (b1: Block, c1: Chain)
    requires e >= 1 && 1 % e != 0 && Opening(e, 2, c0)
    ensures Step(ShortConfig(e), p, c0, b1, c1) && b1 == Quiet(1, [], Idle).(ups := b1.ups)
    ensures Tracking(c1) && Story(e, c1.node.strategy) && c1.node.strategy.height == 1 && c1.node.strategy.next == BOTH
    ensures c1.node.strategy.selectCount == 2
    ensures c1.tm.last == c1.tm.current == map[A1 := 10, A2 := 10]
  {
    OrdinaryTables(e, c0.node.strategy, c0.node.balances);
    b1, c1 := QuietStep(e, p, c0, [], Idle);
  }

  lemma FirstBlock(e: int, p: Punishment, c0: Chain) returns (b1: Block, c1: Chain)
    requires e >= 1 && 1 % e != 0 && Opening(e, 2, c0)
    ensures Told(e, p, [c0] + [c1], [] + [b1], c0, c1)
    ensures Tracking(c1) && Story(e, c1.node.strategy) && c1.node.strategy.height == 1 && c1.node.strategy.next == BOTH
    ensures c1.node.strategy.selectCount == 2
    ensures c1.tm.last == c1.tm.current == map[A1 := 10, A2 := 10] && c1.tm.pending == map[A1 := 1000, A2 := 1000]
  {
    b1, c1 := FirstStep(e, p, c0);
    SelectBoth(e, p, c0, b1, c1);
    TellMore(e, p, [c0], [], c0, c0, b1, c1);
  }

  /** Boundaries in every other block: signer 2 is selected in block 1 and leaves in block 2, the
      boundary forgets it, and in block 4 it is its turn to vote. */
  lemma EveryOtherBoundary(e: int, p: Punishment)
    requires e >= 1 && 1 % e != 0 && 2 % e == 0 && 3 % e != 0 && 4 % e == 0
    ensures HasFatal(e)
  {
    var c0 := Open(e, 2);
    var b1, c1 := FirstBlock(e, p, c0);
    var cs, bs := [c0] + [c1], [] + [b1];
    var votes := BothVote(10);
    BoundaryTables(e, c1.node.strategy, c1.node.balances);
    var b2, c2 := Tell(e, p, cs, bs, c0, c1, votes, Leave);
    LastTwoBlocks(e, p, cs + [c2], bs + [b2], c0, c2);
  }

  lemma LastTwoBlocks(e: int, p: Punishment, cs: seq<Chain>, bs: seq<Block>, c0: Chain, c2: Chain)
    requires e >= 1 && 3 % e != 0 && 4 % e == 0 && Told(e, p, cs, bs, c0, c2) && Opening(e, 2, c0)
    requires Tracking(c2) && Story(e, c2.node.strategy) && c2.node.strategy.selectCount == 2
    requires c2.node.strategy.height == 2 && c2.node.strategy.curr == LEAVING && c2.node.strategy.next == LEFT
    requires c2.tm.last == map[A1 := 10, A2 := 10] && c2.tm.current == map[A1 := 1000, A2 := 1000]
    ensures HasFatal(e)
  {
    var votes := BothVote(10);
    OrdinaryTables(e, c2.node.strategy, c2.node.balances);
    var b3, c3 := Tell(e, p, cs, bs, c0, c2, votes, Idle);
    LastBlock(e, p, cs + [c3], bs + [b3], c0, c3, 1000);
  }

  /** Rewards are safe in every run exactly when an epoch has at least three blocks. */
  lemma SafeEpochsExactly(e: int)
    requires e >= 1
    ensures !HasFatal(e) <==> e >= 3
  {
    if e == 1 {
      BoundariesInARow(e, Punishment(Percent100, Burn));
    } else if e == 2 {
      EveryOtherBoundary(e, Punishment(Percent100, Burn));
    } else {
      forall cfg: Config, p: Punishment, cs: seq<Chain>, bs: seq<Block>, accounts: map<TmAddress, Account>,
             vs: seq<Update>, b: Block
        ensures !Fatal(e, cfg, p, cs, bs, accounts, vs, b)
      {
        NotFatal(e, cfg, p, cs, bs, accounts, vs, b);
      }
    }
  }

  lemma NotFatal(e: int, cfg: Config, p: Punishment, cs: seq<Chain>, bs: seq<Block>,
                 accounts: map<TmAddress, Account>, vs: seq<Update>, b: Block)
    requires e >= 3
    ensures !Fatal(e, cfg, p, cs, bs, accounts, vs, b)
  {
    if cfg.epochBlocks == e && Run(cfg, p, cs, bs) && Begins(cfg, cs, accounts, vs)
       && cs[0].node.strategy.validators.Keys == Addrs(vs) && Offered(cfg, p, cs[|bs|], b)
    {
      NoRewardPanic(cfg, p, cs, bs, accounts, vs, b);
    }
  }
}
