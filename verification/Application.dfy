/** The ABCI application: what InitChain, BeginBlock, EndBlock and Commit do to the node, what
    Commit leaves on disk, and what a restart reads back. */
module Application {
  import opened Types
  import opened Tendermint
  import opened Strategies
  import opened Ledger
  import opened Forks
  import opened Rewards
  import opened Punishments

  /** The node between two calls. */
  datatype Node = Node(strategy: StrategyState, balances: Balances, coinbase: Address)

  // ---------------------------------------------------------------- one block

  datatype Header = Header(height: int, version: nat, proposer: Option<TmAddress>)

  predicate Epoch(cfg: Config, h: int)
    requires cfg.epochBlocks >= 1
  {
    h % cfg.epochBlocks == 0
  }

  function VersionFor(cfg: Config, passed: bool, h: int, default: nat): nat
    requires |cfg.versions| == |cfg.heights|
  {
    if passed then VersionAt(cfg.heights, cfg.versions, h, default) else default
  }

  /** The strategy at the start of a block, before slashing. */
  function Opened(cfg: Config, s: StrategyState, hd: Header, votes: seq<Vote>): StrategyState
    requires |cfg.versions| == |cfg.heights|
  {
    s.(changed := false, height := hd.height, hfHeight := hd.height, proposer := hd.proposer, lastVotes := votes,
    blockVersion := VersionFor(cfg, s.hfPassed, hd.height, hd.version))
  }

  function WithStake(n: Node, k: Stake): Node {
    n.(strategy := n.strategy.(next := k.next, changed := k.changed), balances := k.balances)
  }

  function StakeOf(n: Node): Stake {
    Stake(n.strategy.next, n.strategy.changed, n.balances)
  }

  /** BeginBlock; None is a panic while slashing. */
  function Begin(cfg: Config, p: Punishment, n: Node, hd: Header, votes: seq<Vote>, evidence: seq<TmAddress>)
    : Option<Node>
    requires |cfg.versions| == |cfg.heights|
  {
    var s := Opened(cfg, n.strategy, hd, votes);
    var started := n.(strategy := s, coinbase := Receiver(cfg, s));
    match PunishAll(cfg, p, StakeOf(started), evidence, hd.height)
    case None => None
    case Some(k) => Some(WithStake(started, k))
  }

  /** At an epoch boundary the table worked on becomes the snapshot, and only then loses the
      unbonded signers whose waiting time is over. */
  function TurnEpoch(cfg: Config, s: StrategyState, h: int): StrategyState
    requires cfg.epochBlocks >= 1
  {
    if Epoch(cfg, h) then s.(curr := s.next, next := DropUnbonded(s.next, cfg.expired(s.next, s.height))) else s
  }

  /** The strategy after EndBlock. */
  ghost function Ended(cfg: Config, s: StrategyState, h: int, seed: Option<Seed>): StrategyState
    requires ConfigOk(cfg) && CanChoose(cfg, TurnEpoch(cfg, s, h), h, seed)
  {
    var t := TurnEpoch(cfg, s, h);
    t.(validators := RecordOf(cfg, t, h, seed))
  }

  // ---------------------------------------------------------------- persistence

  /** A table on disk: the address index is rebuilt on loading. */
  datatype StoredTable = StoredTable(items: map<Address, PosItem>, unbonded: map<Address, PosItem>, threshold: int)

  datatype StoredEpoch = StoredEpoch(table: StoredTable, totalBalance: int)

  datatype StoredHeight = StoredHeight(height: int, validators: Tracked)

  datatype Store = Store(next: Option<StoredTable>, epoch: Option<StoredEpoch>, height: Option<StoredHeight>)

  const EMPTY_STORE := Store(None, None, None)

  function Strip(t: Table): StoredTable {
    StoredTable(t.items, t.unbonded, t.threshold)
  }

  function Stored(st: StoredTable): set<Address> {
    st.items.Keys + st.unbonded.Keys
  }

  function AddressIn(st: StoredTable, s: Address): TmAddress
    requires s in Stored(st)
  {
    if s in st.items then st.items[s].tmAddress else st.unbonded[s].tmAddress
  }

  /** No two items on disk share an address. */
  ghost predicate Indexable(st: StoredTable) {
    forall s, s' :: s in Stored(st) && s' in Stored(st) && AddressIn(st, s) == AddressIn(st, s') ==> s == s'
  }

  /** Rebuilds the index from Tendermint address to signer. */
  function InitStruct(st: StoredTable): Table
    requires Indexable(st)
  {
    Table(st.items, st.unbonded, map s | s in Stored(st) :: AddressIn(st, s) := s, st.threshold)
  }

  /** Loading undoes storing. */
  lemma StoreRoundTrip(t: Table)
    requires TableOk(t)
    ensures Indexable(Strip(t)) && InitStruct(Strip(t)) == t
  {
    var st := Strip(t);
    forall s | s in Stored(st) ensures AddressIn(st, s) in t.signerOf && t.signerOf[AddressIn(st, s)] == s
    {
    }
    var t' := InitStruct(st);
    forall a | a in t.signerOf ensures a in t'.signerOf && t'.signerOf[a] == t.signerOf[a] {
      assert AddressIn(st, t.signerOf[a]) == a;
    }
    forall a | a in t'.signerOf ensures a in t.signerOf {
      var s :| s in Stored(st) && AddressIn(st, s) == a;
    }
    assert t'.signerOf == t.signerOf;
  }

  /** What SetPersistenceData writes: the record of the height always, the snapshot at an epoch
      boundary, the table worked on at a boundary or when its dirty flag is up. */
  function Persist(cfg: Config, s: StrategyState, store: Store): Store
    requires cfg.epochBlocks >= 1
  {
    Store(if s.changed || Epoch(cfg, s.height) then Some(Strip(s.next)) else store.next,
          if Epoch(cfg, s.height) then Some(StoredEpoch(Strip(s.curr), s.totalBalance)) else store.epoch,
          Some(StoredHeight(s.height, s.validators)))
  }

  ghost predicate Loadable(store: Store) {
    && store.height.Some? && store.epoch.Some? && store.next.Some?
    && Indexable(store.epoch.value.table) && Indexable(store.next.value)
  }

  /** What InitPersistData makes of a strategy. */
  function Restored(cfg: Config, s: StrategyState, store: Store): StrategyState
    requires |cfg.versions| == |cfg.heights| && Loadable(store)
  {
    var e, h := store.epoch.value, store.height.value;
    s.(height := h.height, validators := h.validators, hfHeight := h.height,
    blockVersion := VersionFor(cfg, s.hfPassed, h.height, s.blockVersion),
    curr := InitStruct(e.table), totalBalance := e.totalBalance, next := InitStruct(store.next.value))
  }

  /** The strategy a restarted node works with: read back from disk, with the command line flags
      and with the bonus that Info computes. */
  function Restarted(cfg: Config, store: Store, selectCount: int, dkgLimit: int): StrategyState
    requires |cfg.versions| == |cfg.heights| && Loadable(store)
  {
    var s := Restored(cfg, Fresh(selectCount, dkgLimit, 0), store);
    s.(minorBonus := MinorBonusOf(s.totalBalance))
  }

  // ---------------------------------------------------------------- genesis

  datatype Account = Account(signer: Address, beneficiary: Address)

  /** The state of the InitChain loop. */
  datatype Genesis = Genesis(next: Table, accounts: map<TmAddress, Account>, validators: Tracked, accepted: seq<Update>)

  /** Enrols one genesis validator: its stake is its balance in units of the threshold. A
      validator without an account is passed over; one the table refuses loses its account. */
  function Enrol(version: nat, balances: Balances, g: Genesis, v: Update): Genesis
    requires version >= 4 || g.next.threshold != 0
  {
    var a := Addr(v);
    if a !in g.accounts then g
    else
      var who := g.accounts[a];
      var slots := if version >= 4 then 10 else Int64(Get(balances, who.signer) / g.next.threshold);
      match InsertPosItem(g.next, who.signer, PosItem(v.pubKey, a, slots, who.beneficiary, 1))
      case Some(t) =>
        g.(next := t, validators := g.validators[a := Validator(v.pubKey, v.power, who.signer)], accepted := [v])
      case None => g.(accounts := g.accounts - {a})
  }

  function EnrolAll(version: nat, balances: Balances, g: Genesis, vs: seq<Update>): (r: Genesis)
    requires version >= 4 || g.next.threshold != 0
    ensures r.next.threshold == g.next.threshold
  {
    if vs == [] then g else Enrol(version, balances, EnrolAll(version, balances, g, vs[..|vs| - 1]), vs[|vs| - 1])
  }

  /** InitChain on a fresh node; None is one of its panics. */
  function Founded(cfg: Config, n: Node, accounts: map<TmAddress, Account>, vs: seq<Update>): Option<StrategyState>
    requires cfg.thresholdUnit >= 1
  {
    var s := n.strategy;
    if Int64(s.totalBalance) == 0 then None
    else
      var threshold := s.totalBalance / cfg.thresholdUnit;
      if threshold == 0 && s.blockVersion < 4 then None
      else
        var start := Genesis(s.next.(threshold := threshold), accounts, s.validators, []);
        var g := EnrolAll(s.blockVersion, n.balances, start, vs);
        if g.accepted == [] then None else Some(s.(next := g.next, curr := g.next, validators := g.validators))
  }

  // ---------------------------------------------------------------- the application object

  datatype Recovery = NoData | Loaded | MissingEpoch

  class EthermintApplication {
    const cfg: Config
    const punishment: Punishment
    const strategy: Strategy
    const work: WorkState
    var accounts: map<TmAddress, Account>
    var store: Store

    constructor (cfg: Config, punishment: Punishment, strategy: Strategy, work: WorkState,
                 accounts: map<TmAddress, Account>, store: Store)
      ensures this.cfg == cfg && this.punishment == punishment && this.strategy == strategy && this.work == work
      ensures this.accounts == accounts && this.store == store
    {
      this.cfg, this.punishment, this.strategy, this.work := cfg, punishment, strategy, work;
      this.accounts, this.store := accounts, store;
    }

    ghost function View(): Node
      reads strategy, work
    {
      Node(strategy.View(), work.balances, work.coinbase)
    }

    /** Reports the version in force and sets the per-block bonus. */
    method Info(height: int) returns (appVersion: nat)
      requires |cfg.versions| == |cfg.heights|
      modifies strategy`minorBonus
      ensures appVersion == VersionFor(cfg, strategy.hfPassed, height, 1)
      ensures strategy.minorBonus == MinorBonusOf(strategy.totalBalance)
    {
      appVersion := 1;
      if strategy.hfPassed {
        appVersion := ScanVersion(cfg.heights, cfg.versions, height, 1);
      }
      strategy.minorBonus := strategy.totalBalance / (100 * (BLOCKS_PER_YEAR / 2));
    }

    method BeginBlock(hd: Header, votes: seq<Vote>, evidence: seq<TmAddress>) returns (ok: bool)
      requires |cfg.versions| == |cfg.heights|
      modifies strategy, work
      ensures match old(Begin(cfg, punishment, View(), hd, votes, evidence))
              case Some(n) => ok && View() == n
              case None => !ok
    {
      OpenBlock(hd, votes);
      ok := DoPunish(cfg, punishment, strategy, work, evidence, work.coinbase, hd.height);
    }

    /** Resets the dirty flag, takes over the height and finds the version in force. */
    method EnterHeight(hd: Header)
      requires |cfg.versions| == |cfg.heights|
      modifies strategy
      ensures strategy.View() == old(strategy.View()).(changed := false, height := hd.height, hfHeight := hd.height,
              blockVersion := VersionFor(cfg, strategy.hfPassed, hd.height, hd.version))
    {
      strategy.changed := false;
      strategy.hfHeight, strategy.blockVersion, strategy.height := hd.height, hd.version, hd.height;
      if strategy.hfPassed {
        strategy.blockVersion := ScanVersion(cfg.heights, cfg.versions, hd.height, hd.version);
      }
    }

    method OpenBlock(hd: Header, votes: seq<Vote>)
      requires |cfg.versions| == |cfg.heights|
      modifies strategy, work`coinbase
      ensures strategy.View() == old(Opened(cfg, strategy.View(), hd, votes))
      ensures work.coinbase == Receiver(cfg, strategy.View())
    {
      EnterHeight(hd);
      strategy.proposer := hd.proposer;
      ghost var s := strategy.View();
      work.coinbase := Receiver(cfg, strategy.View());
      strategy.lastVotes := votes;
      assert strategy.View() == s.(lastVotes := votes);
    }

    method EndBlock(h: int, seed: Option<Seed>) returns (ups: seq<Update>)
      requires ConfigOk(cfg) && TableOk(strategy.curr) && TableOk(strategy.next) && TrackedOk(strategy.validators)
      requires CanChoose(cfg, TurnEpoch(cfg, strategy.View(), h), h, seed)
      modifies strategy
      ensures View() == old(View().(strategy := Ended(cfg, strategy.View(), h, seed)))
      ensures Diff(old(strategy.validators), old(Chosen(cfg, TurnEpoch(cfg, strategy.View(), h), h, seed)), ups)
    {
      NextEpoch(h);
      if h % cfg.epochBlocks == 0 {
        DropKeepsBonded(old(strategy.next), cfg.expired(old(strategy.next), old(strategy.height)));
      }
      ups := strategy.GetUpdatedValidators(cfg, h, seed);
    }

    /** At a boundary: the deep copy, then the removal of expired signers. */
    method NextEpoch(h: int)
      requires cfg.epochBlocks >= 1
      modifies strategy`curr, strategy`next
      ensures strategy.View() == old(TurnEpoch(cfg, strategy.View(), h))
    {
      if h % cfg.epochBlocks == 0 {
        strategy.curr := strategy.next;
        strategy.next := DropUnbonded(strategy.next, cfg.expired(strategy.next, strategy.height));
      }
    }

    method SetPersistenceData()
      requires cfg.epochBlocks >= 1
      modifies this`store
      ensures store == old(Persist(cfg, strategy.View(), store))
    {
      var h := strategy.height;
      if strategy.changed || h % cfg.epochBlocks == 0 {
        store := store.(next := Some(Strip(strategy.next)));
      }
      if h % cfg.epochBlocks == 0 {
        store := store.(epoch := Some(StoredEpoch(Strip(strategy.curr), strategy.totalBalance)));
      }
      store := store.(height := Some(StoredHeight(h, strategy.validators)));
    }

    method Commit() returns (fault: Option<Fault>)
      requires cfg.epochBlocks >= 1
      modifies this`store, work`balances
      ensures match old(Accumulate(strategy.View(), work.coinbase, work.balances))
              case Paid(b) => fault == None && View() == old(View()).(balances := b)
                              && store == old(Persist(cfg, strategy.View(), store))
              case Panicked(f) => fault == Some(f) && store == old(store)
    {
      fault := work.AccumulateRewards(strategy);
      if fault.None? {
        SetPersistenceData();
      }
    }

    /** Reads a stored state back; without one the tables start empty. */
    method InitPersistData() returns (r: Recovery)
      requires |cfg.versions| == |cfg.heights|
      requires store.height.Some? && store.epoch.Some? ==> Loadable(store)
      modifies strategy
      ensures r == NoData <==> store.height.None?
      ensures r == MissingEpoch <==> store.height.Some? && store.epoch.None?
      ensures r == NoData ==> strategy.View() == old(strategy.View()).(next := EMPTY_TABLE)
      ensures r == Loaded ==> Loadable(store) && strategy.View() == Restored(cfg, old(strategy.View()), store)
    {
      if store.height.None? {
        strategy.next := EMPTY_TABLE;
        return NoData;
      }
      strategy.height, strategy.validators := store.height.value.height, store.height.value.validators;
      strategy.hfHeight := strategy.height;
      if strategy.hfPassed {
        strategy.blockVersion := ScanVersion(cfg.heights, cfg.versions, strategy.hfHeight, strategy.blockVersion);
      }
      if store.epoch.None? {
        return MissingEpoch;
      }
      LoadTables();
      r := Loaded;
    }

    method LoadTables()
      requires Loadable(store)
      modifies strategy
      ensures strategy.View() == old(strategy.View()).(curr := InitStruct(store.epoch.value.table),
              totalBalance := store.epoch.value.totalBalance, next := InitStruct(store.next.value))
    {
      strategy.curr := InitStruct(store.epoch.value.table);
      strategy.totalBalance := store.epoch.value.totalBalance;
      strategy.next := InitStruct(store.next.value);
    }

    /** One turn of the enrolment loop. */
    method EnrolValidator(v: Update, before: seq<Update>) returns (accepted: seq<Update>)
      requires strategy.blockVersion >= 4 || strategy.next.threshold != 0
      modifies this`accounts, strategy`next, strategy`validators
      ensures Genesis(strategy.next, accounts, strategy.validators, accepted) ==
              old(Enrol(strategy.blockVersion, work.balances,
                        Genesis(strategy.next, accounts, strategy.validators, before), v))
    {
      accepted := before;
      var a := Addr(v);
      if a in accounts {
        var who := accounts[a];
        var slots := if strategy.blockVersion >= 4 then 10
                     else Int64(Get(work.balances, who.signer) / strategy.next.threshold);
        match InsertPosItem(strategy.next, who.signer, PosItem(v.pubKey, a, slots, who.beneficiary, 1))
        case Some(t) =>
          strategy.next := t;
          strategy.validators := strategy.validators[a := Validator(v.pubKey, v.power, who.signer)];
          accepted := [v];
        case None =>
          accounts := accounts - {a};
      }
    }

    /** Enrols the genesis validators, takes the first snapshot and writes everything. */
    method InitChain(vs: seq<Update>) returns (ok: bool)
      requires cfg.epochBlocks >= 1 && cfg.thresholdUnit >= 1
      modifies this`accounts, this`store, strategy
      ensures match old(Founded(cfg, View(), accounts, vs))
              case Some(s) => ok && View() == old(View()).(strategy := s) && store == Persist(cfg, s, old(store))
              case None => !ok
    {
      if Int64(strategy.totalBalance) == 0 {
        return false;
      }
      var threshold := strategy.totalBalance / cfg.thresholdUnit;
      if threshold == 0 && strategy.blockVersion < 4 {
        return false;
      }
      strategy.next := strategy.next.(threshold := threshold);
      ghost var g0 := Genesis(strategy.next, accounts, strategy.validators, []);
      ghost var s0 := strategy.View();
      var accepted: seq<Update> := [];
      for i := 0 to |vs|
        invariant strategy.View() == s0.(next := strategy.next, validators := strategy.validators)
        invariant Genesis(strategy.next, accounts, strategy.validators, accepted) ==
                  EnrolAll(s0.blockVersion, work.balances, g0, vs[..i])
        invariant store == old(store)
      {
        assert vs[..i + 1][..i] == vs[..i];
        accepted := EnrolValidator(vs[i], accepted);
      }
      assert vs[..|vs|] == vs;
      if accepted == [] {
        return false;
      }
      strategy.curr := strategy.next;
      SetPersistenceData();
      ok := true;
    }
  }
}
