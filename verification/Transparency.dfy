/** What the mempool's traffic means for the chain: nothing, as long as CheckTx and DeliverTx derive
    the same senders. And which traffic keeps the check state solvent. */
module Transparency {
  import opened Types
  import opened Mempools

  // ---------------------------------------------------------------- execution without a cache

  /** A node without mempool and cache: it executes each delivered transaction under the sender it
      derives itself. */
  function Executed(e: Crypto, start: Accounts, evs: seq<Event>): Accounts {
    if evs == [] then start
    else
      var before := Executed(e, start, evs[..|evs| - 1]);
      match evs[|evs| - 1]
      case Deliver(tx, execute) =>
        (match DeliverDerive(e, tx)
         case Resolved(info) => execute(before, info)
         case Bad(_) => before)
      case Submit(_, _, _) => before
      case Commit(_) => before
  }

  /** The deliveries of a history. */
  function Deliveries(evs: seq<Event>): seq<Event> {
    if evs == [] then []
    else Deliveries(evs[..|evs| - 1]) + if evs[|evs| - 1].Deliver? then [evs[|evs| - 1]] else []
  }

  lemma {:induction false} OnlyDeliveriesCount(e: Crypto, start: Accounts, evs: seq<Event>)
    ensures Executed(e, start, Deliveries(evs)) == Executed(e, start, evs)
  {
    if evs != [] {
      var rest, ev := evs[..|evs| - 1], evs[|evs| - 1];
      OnlyDeliveriesCount(e, start, rest);
      if ev.Deliver? {
        assert Deliveries(evs)[..|Deliveries(evs)| - 1] == Deliveries(rest);
      } else {
        assert Deliveries(evs) == Deliveries(rest);
      }
    }
  }

  /** With consistent derivations every history executes as the node without a cache does. */
  lemma {:induction false} CachelessRefinement(e: Crypto, committed: Accounts, evs: seq<Event>)
    requires Consistent(e) && Legal(e, evs)
    ensures History(e, Start(committed), evs).working == Executed(e, committed, evs)
  {
    if evs != [] {
      var rest, ev := evs[..|evs| - 1], evs[|evs| - 1];
      CachelessRefinement(e, committed, rest);
      HistoryKeeps(e, committed, rest);
    }
  }

  /** Nodes that execute the same blocks agree, whatever else each of them has seen: submissions,
      refusals, rechecks and so the contents of their caches. */
  lemma NodesAgree(e: Crypto, committed: Accounts, evs: seq<Event>, evs': seq<Event>)
    requires Consistent(e) && Legal(e, evs) && Legal(e, evs')
    requires Deliveries(evs) == Deliveries(evs')
    ensures History(e, Start(committed), evs).working == History(e, Start(committed), evs').working
  {
    CachelessRefinement(e, committed, evs);
    CachelessRefinement(e, committed, evs');
    OnlyDeliveriesCount(e, committed, evs);
    OnlyDeliveriesCount(e, committed, evs');
  }

  // ---------------------------------------------------------------- exactly then

  ghost predicate AlwaysFaithful(e: Crypto) {
    forall committed: Accounts, evs: seq<Event> :: Legal(e, evs) ==>
      CacheFaithful(e, History(e, Start(committed), evs).front.cache)
  }

  ghost predicate AlwaysCacheless(e: Crypto) {
    forall committed: Accounts, evs: seq<Event> :: Legal(e, evs) ==>
      History(e, Start(committed), evs).working == Executed(e, committed, evs)
  }

  /** A filter that lets everything through up to a gas limit. */
  function Permissive(gasLimit: nat): Filter {
    Filter(gasLimit, (t: Tx) => false, (a: Address, b: int, t: Tx) => false, (a: Address) => false,
           (a: Address, t: Tx) => false, (a: Address) => false, (a: Address) => false)
  }

  /** A state in which a transaction is the next one of its sender and paid for. */
  function ReadyFor(tx: Tx, info: TxInfo): Accounts {
    Accounts(map[info.from := tx.nonce], map[Payer(info) := tx.cost])
  }

  /** An execution that shows under which derivation it was run. */
  function Telltale(info: TxInfo): (Accounts, TxInfo) -> Accounts {
    (s: Accounts, i: TxInfo) => if i == info then s.(nonces := s.nonces[0 := Nonce(s, 0) + 1]) else s
  }

  function Betraying(tx: Tx, info: TxInfo): seq<Event> {
    [Submit(tx, Remote, Permissive(tx.gas)), Deliver(tx, Telltale(info))]
  }

  lemma SubmitReady(e: Crypto, tx: Tx, info: TxInfo)
    requires Plausible(tx) && CheckDerive(e, tx) == Resolved(info)
    ensures var s, ev := Start(ReadyFor(tx, info)), Submit(tx, Remote, Permissive(tx.gas));
            && Legal(e, [ev]) && History(e, s, [ev]) == After(e, s, ev).0
            && History(e, s, [ev]).front.cache == map[HashOf(tx) := info]
            && History(e, s, [ev]).working == s.working
  {
    var s, ev := Start(ReadyFor(tx, info)), Submit(tx, Remote, Permissive(tx.gas));
    assert [ev][..0] == [] && History(e, s, []) == s;
    assert Validate(ev.filter, s.front.check, tx, info).Passed?;
  }

  /** One submission and one delivery of a transaction with two derivations: the cache is not
      faithful and the delivery is not the one of a node without a cache. */
  lemma Betrayal(e: Crypto, tx: Tx, info: TxInfo)
    requires Plausible(tx) && CheckDerive(e, tx) == Resolved(info) && DeliverDerive(e, tx) != Resolved(info)
    ensures var start, evs := ReadyFor(tx, info), Betraying(tx, info);
            && Legal(e, evs[..1])
            && !CacheFaithful(e, History(e, Start(start), evs[..1]).front.cache)
            && Legal(e, evs)
            && History(e, Start(start), evs).working != Executed(e, start, evs)
  {
    var start, evs := ReadyFor(tx, info), Betraying(tx, info);
    SubmitReady(e, tx, info);
    assert evs[..1] == [evs[0]] && evs[..1][..0] == [];
    assert Executed(e, start, evs[..1][..0]) == start && Executed(e, start, evs[..1]) == start;
    assert Executed(e, start, evs) == start;
    assert Nonce(History(e, Start(start), evs).working, 0) == Nonce(start, 0) + 1;
  }

  /** The cache is faithful in every history, and every history executes as the node without a
      cache does, exactly if the derivations are consistent. */
  lemma TransparentExactly(e: Crypto)
    ensures AlwaysFaithful(e) <==> Consistent(e)
    ensures AlwaysCacheless(e) <==> Consistent(e)
  {
    if Consistent(e) {
      forall committed: Accounts, evs: seq<Event> | Legal(e, evs)
        ensures CacheFaithful(e, History(e, Start(committed), evs).front.cache)
        ensures History(e, Start(committed), evs).working == Executed(e, committed, evs)
      {
        HistoryKeeps(e, committed, evs);
        CachelessRefinement(e, committed, evs);
      }
    } else {
      var tx: Tx :| Plausible(tx) && CheckDerive(e, tx).Resolved? && DeliverDerive(e, tx) != CheckDerive(e, tx);
      Betrayal(e, tx, CheckDerive(e, tx).info);
    }
  }

  // ---------------------------------------------------------------- when a recheck brings the node down

  ghost predicate NeverPanics(e: Crypto) {
    forall committed: Accounts, evs: seq<Event> :: Legal(e, evs) && evs != [] ==>
      !After(e, History(e, Start(committed), evs[..|evs| - 1]), evs[|evs| - 1]).1
  }

  ghost predicate AlwaysStocked(e: Crypto) {
    forall committed: Accounts, evs: seq<Event> :: Legal(e, evs) ==>
      var s := History(e, Start(committed), evs); Stocked(s.pool, s.delivered, s.front.cache)
  }

  /** A state in which a transaction is the next one of two senders, and paid for twice. */
  function ReadyTwice(tx: Tx, i: TxInfo, j: TxInfo): Accounts {
    var funds := if tx.cost > 0 then 2 * tx.cost else 0;
    Accounts(map[i.from := tx.nonce, j.from := tx.nonce], map[Payer(i) := funds, Payer(j) := funds])
  }

  /** A filter that lets nothing through. */
  function Closed(): Filter {
    Permissive(0).(intrinsicFails := (t: Tx) => true)
  }

  /** The same transaction by network and from the node's own pool. */
  function ByNetwork(tx: Tx): Event {
    Submit(tx, Remote, Permissive(tx.gas))
  }

  function FromOwnPool(tx: Tx, j: TxInfo): Event {
    Submit(tx, Local(j), Permissive(tx.gas))
  }

  lemma FirstAccepted(e: Crypto, tx: Tx, i: TxInfo, j: TxInfo) returns (s: TxState)
    requires Plausible(tx) && CheckDerive(e, tx) == Resolved(i) && i.from != j.from
    ensures s == After(e, Start(ReadyTwice(tx, i, j)), ByNetwork(tx)).0
    ensures s.pool == [tx] && HashOf(tx) in s.front.cache && s.working == ReadyTwice(tx, i, j) && s.delivered == {}
    ensures Nonce(s.front.check, j.from) == tx.nonce && Balance(s.front.check, Payer(j)) >= tx.cost
  {
    var start := ReadyTwice(tx, i, j);
    s := After(e, Start(start), ByNetwork(tx)).0;
    assert Validate(Permissive(tx.gas), start, tx, i).Passed?;
  }

  lemma SecondAccepted(e: Crypto, s: TxState, tx: Tx, j: TxInfo)
    requires Plausible(tx) && s.pool == [tx] && HashOf(tx) in s.front.cache && s.delivered == {}
    requires Nonce(s.front.check, j.from) == tx.nonce && Balance(s.front.check, Payer(j)) >= tx.cost
    ensures var s' := After(e, s, FromOwnPool(tx, j)).0;
            && s'.pool == [tx, tx] && s'.working == s.working && s'.delivered == {}
            && s'.front.cache == s.front.cache[HashOf(tx) := j]
  {
    assert Validate(Permissive(tx.gas), s.front.check, tx, j).Passed?;
  }

  /** The first copy fails its recheck and takes the cache entry with it; the second one misses it. */
  lemma SecondCopyPanics(e: Crypto, fr: Front, tx: Tx)
    requires tx.size <= MAX_TRANSACTION_SIZE && HashOf(tx) in fr.cache
    ensures RecheckAll(e, Closed(), fr, Without([tx, tx], {})).2
  {
    var two := [tx, tx];
    assert two[..|two| - 1] == [tx] && [tx][..0] == [];
    assert Without(two, {}) == Without(two[..|two| - 1], {}) + [tx];
    assert Without(two, {}) == two;
    RecheckCached(e, Closed(), fr, tx);
    assert RecheckAll(e, Closed(), fr, []) == (fr, [], false);
    assert RecheckAll(e, Closed(), fr, [tx]) == (fr.(cache := fr.cache - {HashOf(tx)}), [], false);
  }

  /** A transaction with two senders is pooled twice, and the next recheck brings the node down. */
  lemma PooledTwice(e: Crypto, tx: Tx, i: TxInfo, j: TxInfo)
    requires Plausible(tx) && CheckDerive(e, tx) == Resolved(i) && i.from != j.from
    ensures var s := After(e, After(e, Start(ReadyTwice(tx, i, j)), ByNetwork(tx)).0, FromOwnPool(tx, j)).0;
            s.pool == [tx, tx] && After(e, s, Commit(Closed())).1
  {
    var s := FirstAccepted(e, tx, i, j);
    SecondAccepted(e, s, tx, j);
    CommitPanics(e, After(e, s, FromOwnPool(tx, j)).0, tx);
  }

  /** Three events of which the last one panics, over a pool with a repeat. */
  lemma Refutes(e: Crypto, start: Accounts, evs: seq<Event>)
    requires |evs| == 3 && Legal(e, evs)
    requires var s := After(e, After(e, Start(start), evs[0]).0, evs[1]).0;
             |s.pool| == 2 && s.pool[0] == s.pool[1] && After(e, s, evs[2]).1
    ensures !NeverPanics(e) && !AlwaysStocked(e)
  {
    assert evs[..|evs| - 1] == evs[..2] && evs[..2][..1] == evs[..1] && evs[..1][..0] == [];
    assert History(e, Start(start), evs[..1]) == After(e, Start(start), evs[0]).0;
    assert Legal(e, evs[..2]);
    var s := History(e, Start(start), evs[..2]);
    assert !Stocked(s.pool, s.delivered, s.front.cache);
  }

  lemma TwoSendersPanic(e: Crypto, tx: Tx, i: TxInfo, j: TxInfo)
    requires Plausible(tx) && CheckDerive(e, tx) == Resolved(i) && DeliverDerive(e, tx) == Resolved(j)
    requires i.from != j.from
    ensures !NeverPanics(e) && !AlwaysStocked(e)
  {
    PooledTwice(e, tx, i, j);
    Refutes(e, ReadyTwice(tx, i, j), [ByNetwork(tx), FromOwnPool(tx, j), Commit(Closed())]);
  }

  lemma CommitPanics(e: Crypto, s: TxState, tx: Tx)
    requires s.pool == [tx, tx] && s.delivered == {}
    requires tx.size <= MAX_TRANSACTION_SIZE && HashOf(tx) in s.front.cache
    ensures After(e, s, Commit(Closed())).1
  {
    SecondCopyPanics(e, Front(s.working, s.front.cache), tx);
  }

  /** No recheck ever brings the node down, and the pool is always stocked, exactly if no plausible
      transaction has two senders. */
  lemma NeverPanicsExactly(e: Crypto)
    ensures NeverPanics(e) <==> OneSender(e)
    ensures AlwaysStocked(e) <==> OneSender(e)
  {
    if OneSender(e) {
      forall committed: Accounts, evs: seq<Event> | Legal(e, evs)
        ensures var s := History(e, Start(committed), evs); Stocked(s.pool, s.delivered, s.front.cache)
        ensures evs != [] ==> !After(e, History(e, Start(committed), evs[..|evs| - 1]), evs[|evs| - 1]).1
      {
        HistoryStocked(e, committed, evs);
      }
    } else {
      var tx: Tx :| && Plausible(tx) && BothResolve(e, tx)
                    && DeliverDerive(e, tx).info.from != CheckDerive(e, tx).info.from;
      TwoSendersPanic(e, tx, CheckDerive(e, tx).info, DeliverDerive(e, tx).info);
    }
  }

  const PLAIN_TX := Tx(0, 0, false, Some(7), 0, 0, 0, 10)

  /** A crypto environment in which account 7 is a relay target of both kinds: the check takes the
      sender of the outer transaction, the delivery that of the inner one. */
  function Overlapping(): Crypto {
    Crypto((p: bool, t: Tx) => if t == PLAIN_TX then Some(1) else Some(2),
           (t: Tx) => Some(PLAIN_TX.(id := 1)),
           (t: Tx, s: Tx) => true,
           (s: Tx, t: Tx) => Some(s),
           (a: Address, s: Tx) => Some(3),
           (a: Address) => a == 7,
           (a: Address) => a == 7)
  }

  /** Such an environment is possible; in it transparency fails and a recheck can panic. */
  lemma OverlapBreaksTransparency()
    ensures !SignatureCarries(Overlapping(), PLAIN_TX)
    ensures !AlwaysFaithful(Overlapping()) && !AlwaysCacheless(Overlapping()) && !NeverPanics(Overlapping())
  {
    var e := Overlapping();
    assert CheckDerive(e, PLAIN_TX) == Resolved(TxInfo(PLAIN_TX, 1, Some(PLAIN_TX.(id := 1)), 3));
    assert DeliverDerive(e, PLAIN_TX) == Resolved(TxInfo(PLAIN_TX, 2, Some(PLAIN_TX.(id := 1)), 3));
    assert Plausible(PLAIN_TX);
    TransparentExactly(e);
    NeverPanicsExactly(e);
  }

  // ---------------------------------------------------------------- solvency

  ghost predicate Solvent(s: Accounts) {
    forall a: Address :: Balance(s, a) >= 0
  }

  /** The derivation a check goes by. */
  function Subject(e: Crypto, fr: Front, tx: Tx, kind: CheckType): Derived {
    match kind
    case Remote => CheckDerive(e, tx)
    case Local(info) => Resolved(info)
    case Recheck => if HashOf(tx) in fr.cache then Resolved(fr.cache[HashOf(tx)]) else Bad(INTERNAL)
  }

  /** It is one that the node made, now or earlier. */
  ghost predicate Genuine(e: Crypto, fr: Front, tx: Tx, kind: CheckType) {
    var d := Subject(e, fr, tx, kind);
    d.Resolved? ==> d == CheckDerive(e, tx) || d == DeliverDerive(e, tx)
  }

  predicate RelayTarget(e: Crypto, a: Address) {
    e.fromClient(a) || e.fromRelayer(a)
  }

  /** The sender cannot bear the cost, not even with the value it sends to itself. */
  ghost predicate CannotBear(f: Filter, s: Accounts, tx: Tx, from: Address) {
    Balance(s, from) + (if tx.to == Some(from) && !f.isMint(from) then tx.value else 0) < tx.cost
  }

  /** A relayed transaction is one to a relay target. */
  lemma RelayedExactly(e: Crypto, tx: Tx, info: TxInfo)
    requires CheckDerive(e, tx) == Resolved(info) || DeliverDerive(e, tx) == Resolved(info)
    ensures info.subTx.Some? <==> tx.to.Some? && RelayTarget(e, tx.to.value)
  {
  }

  lemma ValidateSolvent(f: Filter, s: Accounts, tx: Tx, info: TxInfo)
    requires Solvent(s) && Validate(f, s, tx, info).Passed?
    ensures Solvent(Validate(f, s, tx, info).check) <==>
            !(info.subTx.Some? && (tx.to.None? || f.isAuth(tx.to.value)) && CannotBear(f, s, tx, info.from))
  {
    var after := Validate(f, s, tx, info).check;
    if info.subTx.Some? && (tx.to.None? || f.isAuth(tx.to.value)) && CannotBear(f, s, tx, info.from) {
      assert Balance(after, info.from) < 0;
    } else {
      forall a: Address ensures Balance(after, a) >= 0 {
        assert Balance(s, a) >= 0 && Balance(s, info.from) >= 0 && Balance(s, Payer(info)) >= tx.cost;
      }
    }
  }

  /** An accepted CheckTx of any kind leaves every balance of the check state non-negative, except
      exactly when the target is both a relay target and an authorisation target and the sender
      cannot bear the cost: the relayer's balance is checked, the sender's is debited. */
  lemma SolventExactly(e: Crypto, f: Filter, fr: Front, tx: Tx, kind: CheckType)
    requires Solvent(fr.check) && Genuine(e, fr, tx, kind) && Check(e, f, fr, tx, kind).1 == Accepted
    ensures Subject(e, fr, tx, kind).Resolved?
    ensures Solvent(Check(e, f, fr, tx, kind).0.check) <==>
            !(&& tx.to.Some? && RelayTarget(e, tx.to.value) && f.isAuth(tx.to.value)
              && CannotBear(f, fr.check, tx, Subject(e, fr, tx, kind).info.from))
  {
    var info := Subject(e, fr, tx, kind).info;
    RelayedExactly(e, tx, info);
    ValidateSolvent(f, fr.check, tx, info);
  }

  /** A filter that takes account 7 for an authorisation target. */
  function AuthSeven(): Filter {
    Permissive(0).(isAuth := (a: Address) => a == 7)
  }

  /** It happens: a remote transaction is accepted and its sender goes to -10. */
  lemma OverdrawnSender()
    ensures var f, fr := AuthSeven(), Front(Accounts(map[], map[3 := 10]), map[]);
            && CheckDerive(Overlapping(), PLAIN_TX) == Resolved(TxInfo(PLAIN_TX, 1, Some(PLAIN_TX.(id := 1)), 3))
            && Solvent(fr.check)
            && Check(Overlapping(), f, fr, PLAIN_TX, Remote).1 == Accepted
            && Balance(Check(Overlapping(), f, fr, PLAIN_TX, Remote).0.check, 1) == -10
  {
    var info := TxInfo(PLAIN_TX, 1, Some(PLAIN_TX.(id := 1)), 3);
    assert CheckDerive(Overlapping(), PLAIN_TX) == Resolved(info);
    assert Validate(AuthSeven(), Accounts(map[], map[3 := 10]), PLAIN_TX, info).Passed?;
  }

  // ---------------------------------------------------------------- solvency over histories

  /** No filter of the history takes a relay target for an authorisation target, and executions
      keep balances non-negative. */
  ghost predicate Orderly(e: Crypto, ev: Event) {
    match ev
    case Submit(_, _, f) => KindsApart(e, f)
    case Commit(f) => KindsApart(e, f)
    case Deliver(_, execute) => forall s: Accounts, info: TxInfo :: Solvent(s) ==> Solvent(execute(s, info))
  }

  ghost predicate KindsApart(e: Crypto, f: Filter) {
    forall a: Address :: RelayTarget(e, a) ==> !f.isAuth(a)
  }

  lemma CheckSolvent(e: Crypto, f: Filter, fr: Front, tx: Tx, kind: CheckType)
    requires Solvent(fr.check) && KindsApart(e, f) && Genuine(e, fr, tx, kind)
    ensures Solvent(Check(e, f, fr, tx, kind).0.check)
  {
    if Check(e, f, fr, tx, kind).1 == Accepted {
      SolventExactly(e, f, fr, tx, kind);
    }
  }

  /** Every cached derivation is one of the two the node makes. */
  ghost predicate CacheGenuine(e: Crypto, cache: map<TxHash, TxInfo>) {
    forall h :: h in cache ==>
      CheckDerive(e, h.tx) == Resolved(cache[h]) || DeliverDerive(e, h.tx) == Resolved(cache[h])
  }

  lemma {:induction false} RecheckSolvent(e: Crypto, f: Filter, fr: Front, txs: seq<Tx>)
    requires Solvent(fr.check) && KindsApart(e, f) && CacheGenuine(e, fr.cache)
    ensures var fr' := RecheckAll(e, f, fr, txs).0; Solvent(fr'.check) && CacheGenuine(e, fr'.cache)
  {
    if txs != [] {
      var tx := txs[|txs| - 1];
      RecheckSolvent(e, f, fr, txs[..|txs| - 1]);
      var fr' := RecheckAll(e, f, fr, txs[..|txs| - 1]).0;
      assert Genuine(e, fr', tx, Recheck);
      CheckSolvent(e, f, fr', tx, Recheck);
    }
  }

  /** With the two kinds of targets apart, no interleaving of submissions, deliveries and commits
      ever leaves a negative balance in the check state. */
  lemma {:induction false} HistorySolvent(e: Crypto, committed: Accounts, evs: seq<Event>)
    requires Legal(e, evs) && Solvent(committed)
    requires forall i :: 0 <= i < |evs| ==> Orderly(e, evs[i])
    ensures var s := History(e, Start(committed), evs);
            Solvent(s.front.check) && Solvent(s.working) && CacheGenuine(e, s.front.cache)
  {
    if evs != [] {
      var rest, ev := evs[..|evs| - 1], evs[|evs| - 1];
      var s := History(e, Start(committed), rest);
      HistorySolvent(e, committed, rest);
      match ev
      case Submit(tx, kind, f) => CheckSolvent(e, f, s.front, tx, kind);
      case Deliver(tx, execute) =>
      case Commit(f) => RecheckSolvent(e, f, Front(s.working, s.front.cache), Without(s.pool, s.delivered));
    }
  }
}
