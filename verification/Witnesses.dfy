/** Inputs for which the code does not do what one expects: a negative count, an unenrolled validator
    that signs, and a slashed validator that stays. */
module Witnesses {
  import opened Types
  import opened Tendermint
  import opened Selection
  import opened Strategies
  import opened Ledger
  import opened Rewards
  import opened Punishments
  import opened Application
  import opened Chains
  import opened RunProperties
  import opened Scenarios

  // ---------------------------------------------------------------- a negative count

  /** With any negative count, epochs of at least two blocks and everyone enrolled and bonded,
      Tendermint refuses the very first list: it removes all validators. */
  lemma NegativeCountRefused(e: int, count: int, p: Punishment) returns (c: Chain, b: Block)
    requires e >= 2 && count < 0
    ensures Begins(ShortConfig(e), [c], ACCOUNTS, GENESIS) && c.node.strategy.selectCount == count
    ensures c.node.strategy.validators.Keys == Addrs(GENESIS) == Bonded(c.node.strategy.curr)
    ensures Offered(ShortConfig(e), p, c, b) && Closed(ShortConfig(e), p, c, b).strategy.curr == BOTH
    ensures Apply(c.tm.pending, b.ups) == Rejected(EmptySet)
  {
    c := Open(e, count);
    StartTracks(ShortConfig(e), [c], ACCOUNTS, GENESIS);
    b := RefusedFirst(e, p, c);
  }

  lemma FirstOffered(e: int, p: Punishment, c: Chain) returns (b: Block)
    requires e >= 1 && Story(e, c.node.strategy) && c.node.strategy.curr == BOTH && c.tm.last == map[]
    requires (c.node.strategy.height + 1) % e != 0
    ensures Offered(ShortConfig(e), p, c, b) && Closed(ShortConfig(e), p, c, b).strategy.curr == BOTH
    ensures b.header.height == c.node.strategy.height + 1
  {
    b := QuietOffered(e, p, c, [], Idle);
    OrdinaryTables(e, c.node.strategy, c.node.balances);
  }

  lemma RefusedFirst(e: int, p: Punishment, c: Chain) returns (b: Block)
    requires e >= 1 && Tracking(c) && Story(e, c.node.strategy) && c.node.strategy.curr == BOTH
    requires (c.node.strategy.height + 1) % e != 0 && c.node.strategy.selectCount < 0 && c.tm.last == map[]
    requires c.node.strategy.validators.Keys == c.tm.pending.Keys && A1 in c.tm.pending
    ensures Offered(ShortConfig(e), p, c, b) && Closed(ShortConfig(e), p, c, b).strategy.curr == BOTH
    ensures Apply(c.tm.pending, b.ups) == Rejected(EmptySet)
  {
    b := FirstOffered(e, p, c);
    RemovesAll(ShortConfig(e), p, c, b, e, c.node.strategy.height + 1);
  }

  lemma RemovesAll(cfg: Config, p: Punishment, c: Chain, b: Block, e: int, h: int)
    requires Tracking(c) && Offered(cfg, p, c, b) && c.node.strategy.selectCount < 0
    requires e >= 1 && cfg.epochBlocks == e && b.header.height == h && h % e != 0
    requires c.node.strategy.validators.Keys == c.tm.pending.Keys && A1 in c.tm.pending
    ensures Apply(c.tm.pending, b.ups) == Rejected(EmptySet)
  {
    UpdatesAccepted(cfg, p, c, b);
    AllTracked(c);
  }

  // ---------------------------------------------------------------- an unenrolled validator that signs

  /** For every epoch length: a genesis validator without an account, which InitChain passes over and
      Tendermint keeps, signs the first block, and the Commit of the second one comes down. */
  lemma UnenrolledPanics(e: int, p: Punishment) returns (cs: seq<Chain>, bs: seq<Block>, b: Block)
    requires e >= 1
    ensures Run(ShortConfig(e), p, cs, bs) && |bs| == 1 && Begins(ShortConfig(e), cs, ONE_ACCOUNT, GENESIS)
    ensures Addrs(GENESIS) - cs[0].node.strategy.validators.Keys == {A2}
    ensures Offered(ShortConfig(e), p, cs[1], b) && Rewarded(ShortConfig(e), p, cs[1], b).Panicked?
    ensures Signed(b, A2)
  {
    GenesisPowers();
    var c0 := OpenOne(e, 1);
    var b1, c1 := FirstQuiet(e, p, c0);
    cs, bs := [c0] + [c1], [] + [b1];
    BeginsWith(ShortConfig(e), cs, ONE_ACCOUNT, GENESIS);
    b := SignsAndPanics(e, p, c1);
  }

  lemma FirstQuiet(e: int, p: Punishment, c: Chain) returns (b: Block, c': Chain)
    requires OpeningOne(e, 1, c)
    ensures Told(e, p, [c] + [c'], [] + [b], c, c') && Tracking(c') && Story(e, c'.node.strategy)
    ensures c'.node.strategy.curr == c'.node.strategy.next == LEFT && c'.tm.last == map[A1 := 10, A2 := 10]
  {
    IdleTables(e, c.node.strategy, c.node.balances);
    b, c' := Tell(e, p, [c], [], c, c, [], Idle);
  }

  lemma SignsAndPanics(e: int, p: Punishment, c: Chain) returns (b: Block)
    requires e >= 1 && Tracking(c) && Story(e, c.node.strategy) && c.node.strategy.curr == c.node.strategy.next == LEFT
    requires c.tm.last == map[A1 := 10, A2 := 10]
    ensures Offered(ShortConfig(e), p, c, b) && Rewarded(ShortConfig(e), p, c, b).Panicked?
    ensures Signed(b, A2)
  {
    var votes := BothVote(10);
    IdleTables(e, c.node.strategy, c.node.balances);
    b := QuietPanic(e, p, c, votes);
    assert votes[1].address == A2;
  }

  ghost predicate Signed(b: Block, a: TmAddress) {
    exists i :: 0 <= i < |b.votes| && b.votes[i].address == a && b.votes[i].signed
  }

  /** Nothing happens to the small table. */
  lemma IdleTables(e: int, s: StrategyState, balances: Balances)
    requires e >= 1 && s.curr == s.next == LEFT
    ensures SnapshotOf(e, s, Idle, balances) == LEFT && TableOf(e, s, Idle, balances) == LEFT
  {
    TablesOk();
  }

  // ---------------------------------------------------------------- a slashed validator that stays

  /** A quiet block with evidence against the second validator. */
  function Accusing(h: int, votes: seq<Vote>): Block {
    Quiet(h, votes, Idle).(evidence := [A2])
  }

  /** The table after signer 2 has been slashed. */
  function SlashedTwo(h: int): Table {
    LEAVING.(unbonded := map[2 := ITEM2.(slots := 0, height := h)])
  }

  lemma SlashTwo(cfg: Config, p: Punishment, balances: Balances, h: int)
    requires cfg.removable(BOTH, 2, h)
    ensures var k := PunishAll(cfg, p, Stake(BOTH, false, balances), [A2], h);
            k.Some? && k.value.next == SlashedTwo(h) && k.value.changed
  {
    var k := Stake(BOTH, false, balances);
    assert [A2][..0] == [] && PunishAll(cfg, p, k, [], h) == Some(k);
    assert PunishAll(cfg, p, k, [A2], h) == PunishOne(cfg, p, k, A2, h);
  }

  lemma SlashedTwoOk(h: int)
    ensures TableOk(SlashedTwo(h)) && Known(SlashedTwo(h)) == {A1, A2}
  {
  }

  lemma AccusingProposed(e: int, p: Punishment, c: Chain, votes: seq<Vote>)
    requires e >= 1 && Story(e, c.node.strategy) && c.node.strategy.next == BOTH
    requires (c.node.strategy.height + 1) % e == 0
    requires VotesOf(votes, c.tm.last) && SignedPower(votes) < 0x8000_0000_0000_0000
    ensures var b := Accusing(c.node.strategy.height + 1, votes);
            && Proposed(ShortConfig(e), p, c, b)
            && Done(ShortConfig(e), p, c, b).strategy.next == SlashedTwo(c.node.strategy.height + 1)
  {
    var h := c.node.strategy.height + 1;
    ShortConfigOk(e);
    SlashTwo(ShortConfig(e), p, c.node.balances, h);
    SlashedTwoOk(h);
  }

  lemma AccusingOffered(e: int, p: Punishment, c: Chain, votes: seq<Vote>) returns (b: Block)
    requires e >= 1 && Story(e, c.node.strategy) && c.node.strategy.next == BOTH
    requires (c.node.strategy.height + 1) % e == 0
    requires VotesOf(votes, c.tm.last) && SignedPower(votes) < 0x8000_0000_0000_0000
    ensures b == Accusing(c.node.strategy.height + 1, votes).(ups := b.ups)
    ensures Offered(ShortConfig(e), p, c, b)
    ensures Closed(ShortConfig(e), p, c, b).strategy.curr == SlashedTwo(c.node.strategy.height + 1)
  {
    var b0 := Accusing(c.node.strategy.height + 1, votes);
    AccusingProposed(e, p, c, votes);
    var ups := Answer(ShortConfig(e), p, c, b0);
    b := b0.(ups := ups);
    UpdatesDoNotMatter(ShortConfig(e), p, c, b0, ups);
    ClosedFields(ShortConfig(e), p, c, b);
  }

  lemma AccusingStep(e: int, p: Punishment, c: Chain) returns (b: Block, c': Chain)
    requires e >= 1 && Tracking(c) && Story(e, c.node.strategy) && c.node.strategy.next == BOTH
    requires (c.node.strategy.height + 1) % e == 0 && c.node.strategy.selectCount >= 0 && Pair(c.tm.last)
    ensures Step(ShortConfig(e), p, c, b, c') && b.evidence == [A2] && b.exec == Idle
    ensures b.header.height == c.node.strategy.height + 1
  {
    PairVotesOk(c.tm.last);
    b := AccusingOffered(e, p, c, PairVotes(c.tm.last));
    SlashedTwoOk(c.node.strategy.height + 1);
    assert 1 in Closed(ShortConfig(e), p, c, b).strategy.curr.items;
    c' := Proceed(ShortConfig(e), p, c, b);
  }

  lemma AccusingBlock(e: int, p: Punishment, cs: seq<Chain>, bs: seq<Block>, c0: Chain, c: Chain)
    returns (b: Block, c': Chain)
    requires e >= 1 && Tracking(c) && Story(e, c.node.strategy) && c.node.strategy.next == BOTH
    requires (c.node.strategy.height + 1) % e == 0 && c.node.strategy.selectCount >= 0
    requires Pair(c.tm.last) && Told(e, p, cs, bs, c0, c)
    ensures Told(e, p, cs + [c'], bs + [b], c0, c') && b.evidence == [A2] && b.exec == Idle
    ensures b.header.height == c.node.strategy.height + 1
  {
    b, c' := AccusingStep(e, p, c);
    TellMore(e, p, cs, bs, c0, c, b, c');
  }

  // ---------------------------------------------------------------- the blocks before that

  /** The sets of the waiting time: the second validator keeps its genesis power. */
  ghost predicate Pair(vals: ValSet) {
    vals.Keys == {A1, A2} && 0 < vals[A1] <= 1000 && vals[A2] == 10
  }

  /** The first validator signs, the second one does not. */
  function PairVotes(vals: ValSet): seq<Vote>
    requires A1 in vals
  {
    [Vote(A1, vals[A1], true), Vote(A2, 10, false)]
  }

  lemma PairVotesOk(vals: ValSet)
    requires Pair(vals)
    ensures VotesOf(PairVotes(vals), vals) && SignedPower(PairVotes(vals)) < 0x8000_0000_0000_0000
    ensures forall t: Table :: A1 in Known(t) ==> !Unresolved(PairVotes(vals), t)
  {
    var votes := PairVotes(vals);
    assert votes[..1] == [Vote(A1, vals[A1], true)] && votes[..1][..0] == [];
    assert SignedPower(votes[..1]) == vals[A1];
    assert votes[0].address == A1 && votes[1].address == A2;
  }

  /** From a table with the first validator only, it is chosen with power 1000. */
  lemma ChosenOne(e: int, t: StrategyState, h: int)
    requires e >= 1 && h % e != 0 && t.curr == LEFT && t.blockVersion == 0 && t.selectCount == 1
    ensures ConfigOk(ShortConfig(e)) && CanChoose(ShortConfig(e), t, h, None)
    ensures h != -1 ==> Chosen(ShortConfig(e), t, h, None) == [Update(K1, 1000)]
  {
    ShortConfigOk(e);
    assert 1 in t.curr.items;
    var draw := Draws(Picker(), LEFT.items, None, h);
    assert draw(0) == K1;
    assert Prefix(draw, 1) == [] + [K1];
    TallyNew([], K1);
    assert Tally([]) == [];
  }

  lemma OnePower()
    ensures var chosen := [Update(K1, 1000)];
            NoRepeat(chosen) && Powers(chosen) == map[A1 := 1000] && Addrs(chosen) == {A1}
  {
    var chosen := [Update(K1, 1000)];
    PowersPositive(chosen);
    assert Addr(chosen[0]) == A1 && Powers(chosen)[Addr(chosen[0])] == 1000;
    assert Addrs(chosen) == {A1};
  }

  /** The second validator has bonded, the snapshot does not have it, and the node does not track it. */
  ghost predicate Waiting(e: int, c: Chain) {
    && Tracking(c) && Story(e, c.node.strategy) && c.node.strategy.selectCount == 1
    && c.node.strategy.curr == LEFT && c.node.strategy.next == BOTH
    && Pair(c.tm.last) && Pair(c.tm.current) && Pair(c.tm.pending) && c.node.strategy.validators.Keys == {A1}
  }

  lemma QuietChosen(e: int, p: Punishment, c: Chain, b: Block, votes: seq<Vote>, exec: Stake -> Stake)
    requires e >= 1 && Story(e, c.node.strategy) && Act(exec) && c.node.strategy.curr == LEFT
    requires c.node.strategy.selectCount == 1 && (c.node.strategy.height + 1) % e != 0
    requires VotesOf(votes, c.tm.last) && SignedPower(votes) < 0x8000_0000_0000_0000
    requires b == Quiet(c.node.strategy.height + 1, votes, exec).(ups := b.ups)
    ensures Proposed(ShortConfig(e), p, c, b)
    ensures Chosen(ShortConfig(e), Turned(ShortConfig(e), p, c, b), b.header.height, b.seed) == [Update(K1, 1000)]
  {
    QuietProposed(e, p, c, votes, exec);
    UpdatesDoNotMatter(ShortConfig(e), p, c, Quiet(c.node.strategy.height + 1, votes, exec), b.ups);
    ChosenOne(e, Turned(ShortConfig(e), p, c, b), b.header.height);
  }

  /** A block that ends with the small snapshot does not touch the second validator. */
  lemma PendingPair(cfg: Config, p: Punishment, c: Chain, b: Block, c': Chain)
    requires Tracking(c) && Step(cfg, p, c, b, c')
    requires Chosen(cfg, Turned(cfg, p, c, b), b.header.height, b.seed) == [Update(K1, 1000)]
    requires Pair(c.tm.pending) && c.node.strategy.validators.Keys == {A1}
    ensures Pair(c'.tm.pending) && c'.node.strategy.validators.Keys == {A1}
  {
    OnePower();
    StepOutline(cfg, p, c, b, c');
    PairReplaced(c.tm.pending, c.node.strategy.validators);
  }

  lemma PairReplaced(pending: ValSet, tracked: Tracked)
    requires Pair(pending) && tracked.Keys == {A1}
    ensures Pair((pending - tracked.Keys) + map[A1 := 1000])
  {
  }

  /** One more block of waiting, in which the second validator bonds or nothing happens. */
  lemma WaitingBlock(e: int, p: Punishment, cs: seq<Chain>, bs: seq<Block>, c0: Chain, c: Chain, votes: seq<Vote>,
                     exec: Stake -> Stake)
    returns (b: Block, c': Chain)
    requires e >= 1 && Told(e, p, cs, bs, c0, c)
    requires Tracking(c) && Story(e, c.node.strategy) && Act(exec) && c.node.strategy.height < e
    requires c.node.strategy.curr == LEFT && TableOf(e, c.node.strategy, exec, c.node.balances) == BOTH
    requires c.node.strategy.selectCount == 1 && (c.node.strategy.height + 1) % e != 0
    requires VotesOf(votes, c.tm.last) && SignedPower(votes) < 0x8000_0000_0000_0000 && !Unresolved(votes, LEFT)
    requires Pair(c.tm.current) && Pair(c.tm.pending) && c.node.strategy.validators.Keys == {A1}
    ensures Told(e, p, cs + [c'], bs + [b], c0, c') && Waiting(e, c')
    ensures c'.node.strategy.height == c.node.strategy.height + 1
  {
    b, c' := QuietStep(e, p, c, votes, exec);
    QuietChosen(e, p, c, b, votes, exec);
    PendingPair(ShortConfig(e), p, c, b, c');
    TellMore(e, p, cs, bs, c0, c, b, c');
  }

  lemma IdleBlock(e: int, p: Punishment, cs: seq<Chain>, bs: seq<Block>, c0: Chain, c: Chain)
    returns (b: Block, c': Chain)
    requires e >= 1 && Told(e, p, cs, bs, c0, c) && Waiting(e, c)
    requires c.node.strategy.height < e && (c.node.strategy.height + 1) % e != 0
    ensures Told(e, p, cs + [c'], bs + [b], c0, c') && Waiting(e, c')
    ensures c'.node.strategy.height == c.node.strategy.height + 1
  {
    PairVotesOk(c.tm.last);
    OrdinaryTables(e, c.node.strategy, c.node.balances);
    assert A1 in Known(LEFT);
    b, c' := WaitingBlock(e, p, cs, bs, c0, c, PairVotes(c.tm.last), Idle);
  }

  lemma BondingBlock(e: int, p: Punishment, c: Chain) returns (b: Block, c': Chain)
    requires e >= 2 && OpeningOne(e, 1, c)
    ensures Told(e, p, [c] + [c'], [] + [b], c, c') && Waiting(e, c') && c'.node.strategy.height == 1
  {
    OrdinaryTables(e, c.node.strategy, c.node.balances);
    b, c' := WaitingBlock(e, p, [c], [], c, c, [], Bond);
  }

  /** The whole waiting time: up to height n, all within the first epoch. */
  lemma {:induction false} WaitUntil(e: int, p: Punishment, c0: Chain, n: nat)
    returns (cs: seq<Chain>, bs: seq<Block>, c: Chain)
    requires 1 <= n < e && OpeningOne(e, 1, c0)
    ensures Told(e, p, cs, bs, c0, c) && Waiting(e, c) && c.node.strategy.height == n == |bs|
  {
    if n == 1 {
      var b1;
      b1, c := BondingBlock(e, p, c0);
      cs, bs := [c0] + [c], [] + [b1];
    } else {
      cs, bs, c := WaitUntil(e, p, c0, n - 1);
      SmallMod(n, e);
      var b, c' := IdleBlock(e, p, cs, bs, c0, c);
      cs, bs, c := cs + [c'], bs + [b], c';
    }
  }

  lemma SmallMod(n: int, e: int)
    requires 0 <= n < e
    ensures n % e == n
  {
  }

  // ---------------------------------------------------------------- the end of the first epoch

  lemma IdleKeepsOut(cfg: Config, p: Punishment, c: Chain, b: Block, a: TmAddress)
    requires |cfg.versions| == |cfg.heights| && b.exec == Idle
    ensures KeepsOut(cfg, p, c, b, a)
  {
  }

  /** For every epoch length of at least two blocks: an unenrolled genesis validator that bonds after
      the snapshot was taken and is slashed at the boundary, before it was ever chosen, has lost its
      stake and keeps its power. */
  lemma SlashedStays(e: int, p: Punishment) returns (cs: seq<Chain>, bs: seq<Block>)
    requires e >= 2
    ensures Run(ShortConfig(e), p, cs, bs) && |bs| == e && Begins(ShortConfig(e), cs, ONE_ACCOUNT, GENESIS)
    ensures A2 in Bonded(cs[e - 1].node.strategy.next) && bs[e - 1].evidence == [A2]
    ensures Epoch(ShortConfig(e), bs[e - 1].header.height) && StaysOut(ShortConfig(e), p, cs, bs, A2, e - 1, e)
    ensures A2 !in Bonded(cs[e].node.strategy.curr) && A2 in cs[e].tm.pending && cs[e].tm.pending[A2] == 10
  {
    var c0 := OpenOne(e, 1);
    cs, bs := WaitAndSlash(e, p, c0);
    BeginsWith(ShortConfig(e), cs, ONE_ACCOUNT, GENESIS);
    StillPending(ShortConfig(e), p, cs, bs, e - 1);
  }

  lemma WaitAndSlash(e: int, p: Punishment, c0: Chain) returns (cs: seq<Chain>, bs: seq<Block>)
    requires e >= 2 && OpeningOne(e, 1, c0)
    ensures Run(ShortConfig(e), p, cs, bs) && |bs| == e && cs[0] == c0
    ensures A2 in Bonded(cs[e - 1].node.strategy.next) && A2 in Untracked(cs[e - 1])
    ensures cs[e - 1].tm.pending[A2] == 10
    ensures bs[e - 1].evidence == [A2] && bs[e - 1].exec == Idle && bs[e - 1].header.height == e
  {
    var c;
    cs, bs, c := WaitUntil(e, p, c0, e - 1);
    SecondBonded(c);
    var b, c' := AccusingBlock(e, p, cs, bs, c0, c);
    cs, bs := cs + [c'], bs + [b];
  }

  lemma SecondBonded(c: Chain)
    requires c.node.strategy.next == BOTH
    ensures A2 in Bonded(c.node.strategy.next)
  {
    assert BOTH.items[2].tmAddress == A2;
  }

  lemma StillPending(cfg: Config, p: Punishment, cs: seq<Chain>, bs: seq<Block>, i: nat)
    requires Run(cfg, p, cs, bs) && |bs| == i + 1 && Begins(cfg, cs, ONE_ACCOUNT, GENESIS)
    requires |cfg.versions| == |cfg.heights| && bs[i].exec == Idle && bs[i].evidence == [A2]
    requires cfg.epochBlocks >= 1 && Epoch(cfg, bs[i].header.height)
    requires A2 in Untracked(cs[i]) && cs[i].tm.pending[A2] == 10
    ensures StaysOut(cfg, p, cs, bs, A2, i, i + 1)
    ensures A2 !in Bonded(cs[i + 1].node.strategy.curr)
    ensures A2 in cs[i + 1].tm.pending && cs[i + 1].tm.pending[A2] == 10
  {
    IdleKeepsOut(cfg, p, cs[i], bs[i], A2);
    assert KeptOut(cfg, p, cs, bs, A2, i);
    SlashingTakesEffect(cfg, p, cs, bs, ONE_ACCOUNT, GENESIS, A2, i, i, i + 1);
  }
}
