/** Runs that exist: a genesis of two validators of which one comes or goes, and quiet blocks on top
    of it, for every epoch length. */
module Scenarios {
  import opened Types
  import opened Tendermint
  import opened Strategies
  import opened Ledger
  import opened Forks
  import opened Rewards
  import opened Punishments
  import opened Application
  import opened Chains

  // ---------------------------------------------------------------- two validators, one of them comes or goes

  const K1 := PubKey(1)
  const K2 := PubKey(2)
  const A1 := AddressOf(K1)
  const A2 := AddressOf(K2)

  ghost function Any(items: map<Address, PosItem>): Address {
    if items == map[] then 0 else var s :| s in items; s
  }

  /** A signer with most slots. */
  ghost function Greatest(items: map<Address, PosItem>): (s: Address)
    requires items != map[]
    ensures IsGreatest(items, s)
  {
    GreatestExists(items);
    var s :| IsGreatest(items, s);
    s
  }

  ghost predicate IsGreatest(items: map<Address, PosItem>, s: Address) {
    s in items && forall g :: g in items ==> items[g].slots <= items[s].slots
  }

  lemma {:induction false} GreatestExists(items: map<Address, PosItem>)
    requires items != map[]
    ensures exists s :: IsGreatest(items, s)
    decreases |items|
  {
    var s :| s in items;
    var rest := items - {s};
    if rest == map[] {
      assert forall g :: g in items && g != s ==> g in rest;
      assert IsGreatest(items, s);
    } else {
      GreatestExists(rest);
      var r :| IsGreatest(rest, r);
      GreatestOf(items, s, r);
    }
  }

  lemma GreatestOf(items: map<Address, PosItem>, s: Address, r: Address)
    requires s in items && IsGreatest(items - {s}, r)
    ensures IsGreatest(items, s) || IsGreatest(items, r)
  {
    assert forall g :: g in items && g != s ==> g in items - {s};
  }

  /** The k signers with most slots, one after the other. */
  ghost function Ranking(items: map<Address, PosItem>, k: nat): seq<Address> {
    if k == 0 || items == map[] then []
    else
      var s := Greatest(items);
      [s] + Ranking(items - {s}, k - 1)
  }

  /** Signers without repeats of which none left out has more slots. */
  ghost predicate Ranked(signers: seq<Address>, items: map<Address, PosItem>) {
    && (forall i :: 0 <= i < |signers| ==> signers[i] in items)
    && (forall i, j :: 0 <= i < j < |signers| ==> signers[i] != signers[j])
    && forall s, i :: s in items && s !in signers && 0 <= i < |signers| ==> items[s].slots <= items[signers[i]].slots
  }

  lemma {:induction false} RankingTop(items: map<Address, PosItem>, k: nat)
    ensures Ranked(Ranking(items, k), items)
    ensures |Ranking(items, k)| == if k < |items| then k else |items|
    ensures k >= |items| ==> forall s :: s in items ==> s in Ranking(items, k)
  {
    if k > 0 && items != map[] {
      var s := Greatest(items);
      RankingTop(items - {s}, k - 1);
      assert |items - {s}| == |items| - 1;
      RankedAlso(Ranking(items - {s}, k - 1), items, s);
      assert forall g :: g in items && g != s ==> g in items - {s};
    }
  }

  lemma RankedAlso(rest: seq<Address>, items: map<Address, PosItem>, s: Address)
    requires IsGreatest(items, s)
    requires Ranked(rest, items - {s})
    ensures Ranked([s] + rest, items)
  {
    var signers := [s] + rest;
    forall g, i | g in items && g !in signers && 0 <= i < |signers|
      ensures items[g].slots <= items[signers[i]].slots
    {
      assert g != s && g !in rest;
      assert i > 0 ==> signers[i] == rest[i - 1] && g in items - {s};
    }
  }

  /** Draws by height take turns between signers 1 and 2. */
  ghost predicate TakesTurns(sel: Selector) {
    forall items: map<Address, PosItem>, h: int ::
      && (h % 2 == 1 && 1 in items ==> sel.byHeight(items, h) == 1)
      && (h % 2 == 0 && 2 in items ==> sel.byHeight(items, h) == 2)
  }

  /** Such pickers exist. */
  ghost function RankingSelector(): Selector {
    Selector((items: map<Address, PosItem>, seed: Option<Seed>, i: nat) => Any(items),
             (items: map<Address, PosItem>, h: int) => var s := if h % 2 == 1 then 1 else 2;
                                                       if s in items then s else Any(items),
             (items: map<Address, PosItem>, k: nat) => Ranking(items, k),
             (items: map<Address, PosItem>) => Ranking(items, |items|))
  }

  lemma RankingSelectorValid()
    ensures ValidSelector(RankingSelector()) && TakesTurns(RankingSelector())
  {
    var sel := RankingSelector();
    forall items: map<Address, PosItem>, k: nat ensures Ranks(sel, items, k) {
      RankingTop(items, k);
      RankingTop(items, |items|);
    }
    forall items: map<Address, PosItem>, k: nat | k > 0 ensures Lists(sel.topK(items, k), items) {
      assert Ranks(sel, items, k);
    }
    forall items: map<Address, PosItem> ensures Lists(sel.sorted(items), items) {
      assert Ranks(sel, items, 0);
    }
  }

  ghost function Picker(): Selector {
    RankingSelectorValid();
    var sel :| ValidSelector(sel) && TakesTurns(sel);
    sel
  }

  /** Unbonded signers expire at the next boundary, and no fork comes during the first epoch. */
  ghost function ShortConfig(e: int): Config {
    Config(e, [e + 1000, e + 2000, e + 3000, e + 4000], [2, 3, 4, 5], 0, 10, Picker(),
           (t: Table, s: Address, h: int) => true, (t: Table, h: int) => t.unbonded.Keys)
  }

  lemma ShortConfigOk(e: int)
    requires e >= 1
    ensures ConfigOk(ShortConfig(e))
  {
  }

  const ITEM1 := PosItem(K1, A1, 5, 1, 1)
  const ITEM2 := PosItem(K2, A2, 5, 2, 1)
  const BOTH := Table(map[1 := ITEM1, 2 := ITEM2], map[], map[A1 := 1, A2 := 2], 1)
  const LEAVING := Table(map[1 := ITEM1], map[2 := ITEM2], map[A1 := 1, A2 := 2], 1)
  const LEFT := Table(map[1 := ITEM1], map[], map[A1 := 1], 1)

  const GENESIS := [Update(K1, 10), Update(K2, 10)]
  const ACCOUNTS := map[A1 := Account(1, 1), A2 := Account(2, 2)]
  const ONE_ACCOUNT := map[A1 := Account(1, 1)]
  const BALANCES: Balances := map[1 := 5, 2 := 5]
  const TRACK_ONE := map[A1 := Validator(K1, 10, 1)]
  const TRACK_BOTH := map[A1 := Validator(K1, 10, 1), A2 := Validator(K2, 10, 2)]

  /** Signer 2 leaves the table of bonded items. */
  function Leave(k: Stake): Stake {
    if k.next == BOTH then Stake(LEAVING, true, k.balances) else k
  }

  /** Signer 2 bonds. */
  function Bond(k: Stake): Stake {
    if k.next == LEFT then Stake(BOTH, true, k.balances) else k
  }

  function Idle(k: Stake): Stake {
    k
  }

  /** The chain after a genesis that leaves a table and a record; Tendermint keeps both validators. */
  ghost function Founding(e: int, count: int, t: Table, tracked: Tracked): Chain
    requires e >= 1
  {
    var s := Blank(count, 0, 10).(next := t, curr := t, validators := tracked);
    Chain(Node(s, BALANCES, 0), Pipeline(map[], map[A1 := 10, A2 := 10], map[A1 := 10, A2 := 10]),
          Persist(ShortConfig(e), s, EMPTY_STORE))
  }

  lemma FoundingInitial(e: int, count: int, accounts: map<TmAddress, Account>, t: Table, tracked: Tracked)
    requires e >= 1
    requires var g := EnrolAll(0, BALANCES, Genesis(EMPTY_TABLE.(threshold := 1), accounts, map[], []), GENESIS);
             g.next == t && g.validators == tracked && g.accepted != []
    ensures Initial(ShortConfig(e), Founding(e, count, t, tracked), accounts, GENESIS)
  {
    ShortConfigOk(e);
    GenesisPowers();
    assert InitialWith(ShortConfig(e), Founding(e, count, t, tracked), accounts, GENESIS, count, 0, 10);
  }

  lemma FoundingBegins(e: int, count: int, accounts: map<TmAddress, Account>, t: Table, tracked: Tracked)
    requires e >= 1
    requires var g := EnrolAll(0, BALANCES, Genesis(EMPTY_TABLE.(threshold := 1), accounts, map[], []), GENESIS);
             g.next == t && g.validators == tracked && g.accepted != []
    ensures Begins(ShortConfig(e), [Founding(e, count, t, tracked)], accounts, GENESIS)
    ensures Tracking(Founding(e, count, t, tracked)) && Addrs(GENESIS) == {A1, A2}
  {
    GenesisPowers();
    FoundingInitial(e, count, accounts, t, tracked);
    BeginsExactly(ShortConfig(e), [Founding(e, count, t, tracked)], accounts, GENESIS);
    StartTracks(ShortConfig(e), [Founding(e, count, t, tracked)], accounts, GENESIS);
  }

  lemma GenesisPowers()
    ensures Choice(GENESIS) && Powers(GENESIS) == map[A1 := 10, A2 := 10] && Addrs(GENESIS) == {A1, A2}
  {
    assert Addr(GENESIS[0]) == A1 && Addr(GENESIS[1]) == A2;
    assert Addrs(GENESIS) == {A1, A2};
    PowersPositive(GENESIS);
    assert Powers(GENESIS)[Addr(GENESIS[0])] == 10 && Powers(GENESIS)[Addr(GENESIS[1])] == 10;
  }

  /** The first validator is enrolled; the second one if it has an account. */
  lemma EnrolGenesis(accounts: map<TmAddress, Account>)
    requires accounts == ACCOUNTS || accounts == ONE_ACCOUNT
    ensures EnrolAll(0, BALANCES, Genesis(EMPTY_TABLE.(threshold := 1), accounts, map[], []), GENESIS) ==
            if accounts == ACCOUNTS then Genesis(BOTH, accounts, TRACK_BOTH, [Update(K2, 10)])
            else Genesis(LEFT, accounts, TRACK_ONE, [Update(K1, 10)])
  {
    var g0 := Genesis(EMPTY_TABLE.(threshold := 1), accounts, map[], []);
    var g1 := Genesis(LEFT, accounts, TRACK_ONE, [Update(K1, 10)]);
    assert GENESIS[..1] == [Update(K1, 10)] && GENESIS[..1][..0] == [];
    assert EnrolAll(0, BALANCES, g0, []) == g0;
    assert Enrol(0, BALANCES, g0, Update(K1, 10)) == g1;
    assert EnrolAll(0, BALANCES, g0, GENESIS[..1]) == g1;
  }

  /** The start of a run in which both validators were enrolled. */
  ghost predicate Opening(e: int, count: int, c: Chain) {
    && e >= 1
    && Begins(ShortConfig(e), [c], ACCOUNTS, GENESIS)
    && c.node.strategy.validators.Keys == Addrs(GENESIS) == c.tm.pending.Keys
    && Tracking(c) && Story(e, c.node.strategy) && c.node.strategy.selectCount == count
    && c.node.strategy.height == 0 && c.node.strategy.curr == c.node.strategy.next == BOTH
    && c.tm.last == map[] && c.tm.current == c.tm.pending == map[A1 := 10, A2 := 10]
  }

  lemma Open(e: int, count: int) returns (c: Chain)
    requires e >= 1
    ensures Opening(e, count, c)
  {
    c := Founding(e, count, BOTH, TRACK_BOTH);
    EnrolGenesis(ACCOUNTS);
    FoundingBegins(e, count, ACCOUNTS, BOTH, TRACK_BOTH);
  }

  /** The start of a run in which only the first one was; Tendermint has the second one as well. */
  ghost predicate OpeningOne(e: int, count: int, c: Chain) {
    && e >= 1
    && Begins(ShortConfig(e), [c], ONE_ACCOUNT, GENESIS)
    && Tracking(c) && Story(e, c.node.strategy) && c.node.strategy.selectCount == count
    && c.node.strategy.height == 0 && c.node.strategy.curr == c.node.strategy.next == LEFT
    && c.node.strategy.validators.Keys == {A1}
    && c.tm.last == map[] && c.tm.current == c.tm.pending == map[A1 := 10, A2 := 10]
  }

  lemma OpenOne(e: int, count: int) returns (c: Chain)
    requires e >= 1
    ensures OpeningOne(e, count, c)
  {
    c := Founding(e, count, LEFT, TRACK_ONE);
    EnrolGenesis(ONE_ACCOUNT);
    FoundingBegins(e, count, ONE_ACCOUNT, LEFT, TRACK_ONE);
  }

  // ---------------------------------------------------------------- quiet blocks

  ghost predicate Act(exec: Stake -> Stake) {
    exec == Leave || exec == Bond || exec == Idle
  }

  function Quiet(h: int, votes: seq<Vote>, exec: Stake -> Stake): Block {
    Block(Header(h, 0, None), votes, [], exec, None, [])
  }

  /** The three tables of the story, and what the transactions make of them. */
  ghost predicate Story(e: int, s: StrategyState) {
    && NodeOk(s)
    && s.hfPassed && 0 <= s.height < e + 100
    && (s.curr == BOTH || s.curr == LEAVING || s.curr == LEFT)
    && (s.next == BOTH || s.next == LEAVING || s.next == LEFT)
  }

  lemma TablesOk()
    ensures TableOk(BOTH) && TableOk(LEAVING) && TableOk(LEFT)
    ensures Evolves(BOTH, LEAVING) && Evolves(LEFT, BOTH)
    ensures Forget(BOTH) == BOTH && Forget(LEAVING) == LEFT && Forget(LEFT) == LEFT
  {
    StoryIndexes();
    StoryForgets();
  }

  lemma StoryIndexes()
    ensures TableOk(BOTH) && TableOk(LEAVING) && TableOk(LEFT)
  {
  }

  lemma StoryForgets()
    ensures Forget(BOTH) == BOTH && Forget(LEAVING) == LEFT && Forget(LEFT) == LEFT
  {
    assert BOTH.unbonded.Keys == {} && LEAVING.unbonded.Keys == {2};
  }

  /** What a boundary leaves of a table when every unbonded signer has expired. */
  function Forget(t: Table): Table {
    DropUnbonded(t, t.unbonded.Keys)
  }

  lemma EarlyVersion(e: int, h: int)
    requires h < e + 1000
    ensures VersionAt(ShortConfig(e).heights, ShortConfig(e).versions, h, 0) == 0
  {
    VersionBeforeSchedule(ShortConfig(e).heights, ShortConfig(e).versions, h, 0);
  }

  lemma QuietBegin(cfg: Config, p: Punishment, c: Chain, hd: Header, votes: seq<Vote>)
    requires |cfg.versions| == |cfg.heights|
    ensures var n := Begin(cfg, p, c.node, hd, votes, []);
            && n.Some?
            && n.value.strategy == Opened(cfg, c.node.strategy, hd, votes)
            && StakeOf(n.value) == Stake(c.node.strategy.next, false, c.node.balances)
  {
  }

  lemma QuietExec(t: Table, balances: Balances, exec: Stake -> Stake)
    requires t == BOTH || t == LEAVING || t == LEFT
    requires Act(exec)
    ensures var k := Stake(t, false, balances);
            ExecOk(k, exec(k)) && 1 in exec(k).next.items
  {
    TablesOk();
  }

  /** A quiet block can be proposed; it moves the tables as expected. */
  lemma QuietProposed(e: int, p: Punishment, c: Chain, votes: seq<Vote>, exec: Stake -> Stake)
    requires e >= 1 && Story(e, c.node.strategy) && Act(exec)
    requires VotesOf(votes, c.tm.last) && SignedPower(votes) < 0x8000_0000_0000_0000
    ensures var s, b := c.node.strategy, Quiet(c.node.strategy.height + 1, votes, exec);
            && Proposed(ShortConfig(e), p, c, b)
            && var d := Done(ShortConfig(e), p, c, b).strategy;
               && d.next == exec(Stake(s.next, false, c.node.balances)).next
               && d.curr == s.curr && d.blockVersion == 0 && d.height == s.height + 1 && d.lastVotes == votes
               && d.hfPassed && d.selectCount == s.selectCount
  {
    QuietExec(c.node.strategy.next, c.node.balances, exec);
    QuietDone(e, p, c, votes, exec);
    assert 1 in c.node.strategy.curr.items;
    QuietMay(e, p, c, votes, exec);
  }

  lemma QuietMay(e: int, p: Punishment, c: Chain, votes: seq<Vote>, exec: Stake -> Stake)
    requires e >= 1 && c.node.strategy.hfPassed && c.node.strategy.height < e + 100 && 1 in c.node.strategy.curr.items
    requires VotesOf(votes, c.tm.last) && SignedPower(votes) < 0x8000_0000_0000_0000
    requires var k := Stake(c.node.strategy.next, false, c.node.balances); ExecOk(k, exec(k)) && 1 in exec(k).next.items
    ensures Proposed(ShortConfig(e), p, c, Quiet(c.node.strategy.height + 1, votes, exec))
  {
    var h := c.node.strategy.height + 1;
    ShortConfigOk(e);
    QuietDone(e, p, c, votes, exec);
    QuietTurned(e, Done(ShortConfig(e), p, c, Quiet(h, votes, exec)).strategy, h);
    MayPropose(ShortConfig(e), p, c, Quiet(h, votes, exec));
  }

  lemma MayPropose(cfg: Config, p: Punishment, c: Chain, b: Block)
    requires ConfigOk(cfg) && b.header.height == c.node.strategy.height + 1 && b.header.proposer.None?
    requires VotesOf(b.votes, c.tm.last) && SignedPower(b.votes) < 0x8000_0000_0000_0000
    requires var n := Begin(cfg, p, c.node, b.header, b.votes, b.evidence);
             n.Some? && ExecOk(StakeOf(n.value), b.exec(StakeOf(n.value)))
    requires CanChoose(cfg, Turned(cfg, p, c, b), b.header.height, b.seed)
    ensures Proposed(cfg, p, c, b)
  {
  }

  lemma QuietDone(e: int, p: Punishment, c: Chain, votes: seq<Vote>, exec: Stake -> Stake)
    requires e >= 1 && c.node.strategy.hfPassed && c.node.strategy.height < e + 100
    ensures var s, b := c.node.strategy, Quiet(c.node.strategy.height + 1, votes, exec);
            var n := Begin(ShortConfig(e), p, c.node, b.header, votes, []);
            && n.Some? && StakeOf(n.value) == Stake(s.next, false, c.node.balances)
            && var d := Done(ShortConfig(e), p, c, b).strategy;
               && d.next == exec(Stake(s.next, false, c.node.balances)).next
               && d.curr == s.curr && d.blockVersion == 0 && d.height == s.height + 1 && d.lastVotes == votes
               && d.hfPassed && d.selectCount == s.selectCount
  {
    EarlyVersion(e, c.node.strategy.height + 1);
    QuietBegin(ShortConfig(e), p, c, Header(c.node.strategy.height + 1, 0, None), votes);
  }

  lemma QuietTurned(e: int, d: StrategyState, h: int)
    requires e >= 1 && d.blockVersion == 0 && 1 in d.curr.items && 1 in d.next.items
    ensures CanChoose(ShortConfig(e), TurnEpoch(ShortConfig(e), d, h), h, None)
  {
    assert 1 in TurnEpoch(ShortConfig(e), d, h).curr.items;
  }

  /** The snapshot at the end of such a block, and the table carried on. */
  ghost function SnapshotOf(e: int, s: StrategyState, exec: Stake -> Stake, balances: Balances): Table
    requires e >= 1
  {
    if (s.height + 1) % e == 0 then exec(Stake(s.next, false, balances)).next else s.curr
  }

  ghost function TableOf(e: int, s: StrategyState, exec: Stake -> Stake, balances: Balances): Table
    requires e >= 1
  {
    var w := exec(Stake(s.next, false, balances)).next;
    if (s.height + 1) % e == 0 then Forget(w) else w
  }

  lemma ClosedFields(cfg: Config, p: Punishment, c: Chain, b: Block)
    requires Offered(cfg, p, c, b)
    ensures var d, t := Done(cfg, p, c, b).strategy, Closed(cfg, p, c, b).strategy;
            t == TurnEpoch(cfg, d, b.header.height).(validators := t.validators)
  {
  }

  lemma UpdatesDoNotMatter(cfg: Config, p: Punishment, c: Chain, b: Block, ups: seq<Update>)
    requires Proposed(cfg, p, c, b)
    ensures Proposed(cfg, p, c, b.(ups := ups)) && Done(cfg, p, c, b.(ups := ups)) == Done(cfg, p, c, b)
  {
  }

  lemma QuietOffered(e: int, p: Punishment, c: Chain, votes: seq<Vote>, exec: Stake -> Stake) returns (b: Block)
    requires e >= 1 && Story(e, c.node.strategy) && Act(exec)
    requires VotesOf(votes, c.tm.last) && SignedPower(votes) < 0x8000_0000_0000_0000
    ensures b == Quiet(c.node.strategy.height + 1, votes, exec).(ups := b.ups)
    ensures Offered(ShortConfig(e), p, c, b)
    ensures QuietEnd(e, c.node.strategy, c.node.balances, votes, exec, Closed(ShortConfig(e), p, c, b).strategy)
  {
    var b0 := Quiet(c.node.strategy.height + 1, votes, exec);
    QuietProposed(e, p, c, votes, exec);
    var ups := Answer(ShortConfig(e), p, c, b0);
    b := b0.(ups := ups);
    UpdatesDoNotMatter(ShortConfig(e), p, c, b0, ups);
    ClosedFields(ShortConfig(e), p, c, b);
    QuietTurn(e, c.node.strategy, c.node.balances, votes, exec, Done(ShortConfig(e), p, c, b).strategy,
              Closed(ShortConfig(e), p, c, b).strategy);
  }

  /** The strategy after a quiet block. */
  ghost predicate QuietEnd(e: int, s: StrategyState, balances: Balances, votes: seq<Vote>, exec: Stake -> Stake,
                           t: StrategyState)
  {
    && e >= 1
    && t.curr == SnapshotOf(e, s, exec, balances) && t.next == TableOf(e, s, exec, balances)
    && t.blockVersion == 0 && t.height == s.height + 1 && t.lastVotes == votes && t.hfPassed
    && t.selectCount == s.selectCount
  }

  lemma QuietTurn(e: int, s: StrategyState, balances: Balances, votes: seq<Vote>, exec: Stake -> Stake,
                  d: StrategyState, t: StrategyState)
    requires e >= 1 && d.next == exec(Stake(s.next, false, balances)).next
    requires d.curr == s.curr && d.blockVersion == 0 && d.height == s.height + 1 && d.lastVotes == votes
    requires d.hfPassed && d.selectCount == s.selectCount
    requires t == TurnEpoch(ShortConfig(e), d, s.height + 1).(validators := t.validators)
    ensures QuietEnd(e, s, balances, votes, exec, t)
  {
  }

  lemma StoryTables(e: int, s: StrategyState, exec: Stake -> Stake, balances: Balances)
    requires e >= 1 && Story(e, s) && Act(exec)
    ensures var curr, next := SnapshotOf(e, s, exec, balances), TableOf(e, s, exec, balances);
            && (curr == BOTH || curr == LEAVING || curr == LEFT)
            && (next == BOTH || next == LEAVING || next == LEFT)
  {
    var w := exec(Stake(s.next, false, balances)).next;
    StoryTable(s.next, w, exec, balances);
  }

  lemma StoryTable(t: Table, w: Table, exec: Stake -> Stake, balances: Balances)
    requires t == BOTH || t == LEAVING || t == LEFT
    requires Act(exec) && w == exec(Stake(t, false, balances)).next
    ensures w == BOTH || w == LEAVING || w == LEFT
    ensures Forget(w) == BOTH || Forget(w) == LEFT
  {
    TablesOk();
    if exec == Leave {
      assert w == Leave(Stake(t, false, balances)).next;
    } else if exec == Bond {
      assert w == Bond(Stake(t, false, balances)).next;
    } else {
      assert w == Idle(Stake(t, false, balances)).next;
    }
  }

  /** A quiet block goes through when every voter resolves. */
  lemma QuietStep(e: int, p: Punishment, c: Chain, votes: seq<Vote>, exec: Stake -> Stake) returns (b: Block, c': Chain)
    requires e >= 1 && Tracking(c) && Story(e, c.node.strategy) && c.node.strategy.height < e + 99
    requires c.node.strategy.selectCount >= 0
    requires Act(exec)
    requires VotesOf(votes, c.tm.last) && SignedPower(votes) < 0x8000_0000_0000_0000
    requires !Unresolved(votes, SnapshotOf(e, c.node.strategy, exec, c.node.balances))
    ensures Step(ShortConfig(e), p, c, b, c') && Tracking(c') && Story(e, c'.node.strategy)
    ensures b == Quiet(c.node.strategy.height + 1, votes, exec).(ups := b.ups)
    ensures c'.tm.last == c.tm.current && c'.tm.current == c.tm.pending
    ensures c'.node.strategy.height == c.node.strategy.height + 1
    ensures c'.node.strategy.selectCount == c.node.strategy.selectCount
    ensures c'.node.strategy.curr == SnapshotOf(e, c.node.strategy, exec, c.node.balances)
    ensures c'.node.strategy.next == TableOf(e, c.node.strategy, exec, c.node.balances)
  {
    b := QuietOffered(e, p, c, votes, exec);
    StoryGoesOn(e, c.node.strategy, c.node.balances, votes, exec, Closed(ShortConfig(e), p, c, b).strategy);
    c' := Proceed(ShortConfig(e), p, c, b);
  }

  lemma StoryGoesOn(e: int, s: StrategyState, balances: Balances, votes: seq<Vote>, exec: Stake -> Stake,
                    t: StrategyState)
    requires e >= 1 && Story(e, s) && s.height < e + 99 && Act(exec) && QuietEnd(e, s, balances, votes, exec, t)
    ensures t.curr.items != map[]
    ensures NodeOk(t) ==> Story(e, t)
  {
    StoryTables(e, s, exec, balances);
    assert 1 in t.curr.items;
  }

  /** It brings the node down when one does not. */
  lemma QuietPanic(e: int, p: Punishment, c: Chain, votes: seq<Vote>) returns (b: Block)
    requires e >= 1 && Tracking(c) && Story(e, c.node.strategy)
    requires VotesOf(votes, c.tm.last) && SignedPower(votes) < 0x8000_0000_0000_0000
    requires Unresolved(votes, SnapshotOf(e, c.node.strategy, Idle, c.node.balances))
    ensures Offered(ShortConfig(e), p, c, b) && Rewarded(ShortConfig(e), p, c, b).Panicked? && b.votes == votes
  {
    b := QuietOffered(e, p, c, votes, Idle);
    SnapshotAfter(ShortConfig(e), p, c, b);
    var n := Closed(ShortConfig(e), p, c, b);
    assert VotesSane(votes);
    AccumulateFaultsExactly(n.strategy, n.coinbase, n.balances);
  }

  lemma BothVote(power: int) returns (votes: seq<Vote>)
    requires 0 < power <= 1000
    ensures votes == [Vote(A1, power, true), Vote(A2, power, true)]
    ensures VotesOf(votes, map[A1 := power, A2 := power]) && SignedPower(votes) < 0x8000_0000_0000_0000
    ensures !Unresolved(votes, BOTH) && !Unresolved(votes, LEAVING) && Unresolved(votes, LEFT)
  {
    votes := [Vote(A1, power, true), Vote(A2, power, true)];
    assert votes[..1] == [Vote(A1, power, true)] && votes[..1][..0] == [];
    assert SignedPower(votes[..1]) == power;
    assert votes[0].address == A1 && votes[1].address == A2;
  }

  // ---------------------------------------------------------------- runs of quiet blocks

  /** A run of the story that has come to a chain c. */
  ghost predicate Told(e: int, p: Punishment, cs: seq<Chain>, bs: seq<Block>, c0: Chain, c: Chain) {
    Run(ShortConfig(e), p, cs, bs) && cs[0] == c0 && cs[|bs|] == c
  }

  lemma TellMore(e: int, p: Punishment, cs: seq<Chain>, bs: seq<Block>, c0: Chain, c: Chain, b: Block, c': Chain)
    requires Told(e, p, cs, bs, c0, c) && Step(ShortConfig(e), p, c, b, c')
    ensures Told(e, p, cs + [c'], bs + [b], c0, c')
  {
    RunSnoc(ShortConfig(e), p, cs, bs, c, b, c');
  }

  /** One more quiet block. */
  lemma Tell(e: int, p: Punishment, cs: seq<Chain>, bs: seq<Block>, c0: Chain, c: Chain, votes: seq<Vote>,
             exec: Stake -> Stake)
    returns (b: Block, c': Chain)
    requires e >= 1 && Told(e, p, cs, bs, c0, c)
    requires Tracking(c) && Story(e, c.node.strategy) && c.node.strategy.height < e + 99
    requires Act(exec) && c.node.strategy.selectCount >= 0
    requires VotesOf(votes, c.tm.last) && SignedPower(votes) < 0x8000_0000_0000_0000
    requires !Unresolved(votes, SnapshotOf(e, c.node.strategy, exec, c.node.balances))
    ensures Told(e, p, cs + [c'], bs + [b], c0, c') && Tracking(c') && Story(e, c'.node.strategy)
    ensures b == Quiet(c.node.strategy.height + 1, votes, exec).(ups := b.ups)
    ensures c'.tm.last == c.tm.current && c'.tm.current == c.tm.pending
    ensures c'.node.strategy.height == c.node.strategy.height + 1
    ensures c'.node.strategy.selectCount == c.node.strategy.selectCount
    ensures c'.node.strategy.curr == SnapshotOf(e, c.node.strategy, exec, c.node.balances)
    ensures c'.node.strategy.next == TableOf(e, c.node.strategy, exec, c.node.balances)
  {
    b, c' := QuietStep(e, p, c, votes, exec);
    TellMore(e, p, cs, bs, c0, c, b, c');
  }

  /** What a boundary does to the tables of the story. */
  lemma BoundaryTables(e: int, s: StrategyState, balances: Balances)
    requires e >= 1 && (s.height + 1) % e == 0
    ensures s.next == BOTH ==> SnapshotOf(e, s, Leave, balances) == LEAVING && TableOf(e, s, Leave, balances) == LEFT
    ensures s.next == LEFT ==> SnapshotOf(e, s, Idle, balances) == LEFT
  {
    TablesOk();
  }

  lemma OrdinaryTables(e: int, s: StrategyState, balances: Balances)
    requires e >= 1 && (s.height + 1) % e != 0
    ensures SnapshotOf(e, s, Idle, balances) == s.curr && TableOf(e, s, Idle, balances) == s.next
    ensures s.next == LEFT ==> SnapshotOf(e, s, Bond, balances) == s.curr && TableOf(e, s, Bond, balances) == BOTH
  {
  }

  lemma StepPending(cfg: Config, p: Punishment, c: Chain, b: Block, c': Chain)
    requires Tracking(c) && Step(cfg, p, c, b, c')
    ensures var chosen := Chosen(cfg, Turned(cfg, p, c, b), b.header.height, b.seed);
            NoRepeat(chosen) && c'.tm.pending == (c.tm.pending - c.node.strategy.validators.Keys) + Powers(chosen)
  {
    StepOutline(cfg, p, c, b, c');
  }
}
