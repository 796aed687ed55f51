/** Transactions on their way into a block: CheckTx, DeliverTx, the cache of derived senders, and
    the mempool that drives them. */
module Mempools {
  import opened Types

  /** A decoded transaction. */
  datatype Tx = Tx(id: nat, size: nat, isProtected: bool, to: Option<Address>, value: int, gas: nat, nonce: nat,
                   cost: int)

  /** Transaction hashes do not collide. */
  datatype TxHash = HashOf(tx: Tx)

  /** What is known of a transaction once its signatures have been checked. */
  datatype TxInfo = TxInfo(tx: Tx, from: Address, subTx: Option<Tx>, relayFrom: Address)

  const MAX_TRANSACTION_SIZE := 32768

  const INTERNAL := 1
  const INVALID_SEQUENCE := 3
  const INSUFFICIENT_FUNDS := 5
  const INVALID_ADDRESS := 7
  const INSUFFICIENT_COINS := 10
  const INVALID_COINS := 11

  /** Signature recovery, decoding and the two kinds of relay targets. */
  datatype Crypto = Crypto(
    sender: (bool, Tx) -> Option<Address>,
    decodeSub: Tx -> Option<Tx>,
    matches: (Tx, Tx) -> bool,
    withSignatureOf: (Tx, Tx) -> Option<Tx>,
    relayer: (Address, Tx) -> Option<Address>,
    fromClient: Address -> bool,
    fromRelayer: Address -> bool)

  datatype Derived = Resolved(info: TxInfo) | Bad(code: nat)

  /** How CheckTx derives the sender of a remote transaction. */
  function CheckDerive(e: Crypto, tx: Tx): Derived {
    if tx.to.Some? && e.fromClient(tx.to.value) then
      match e.sender(tx.isProtected, tx)
      case None => Bad(INTERNAL)
      case Some(from) =>
        match e.decodeSub(tx)
        case None => Bad(INTERNAL)
        case Some(sub) =>
          match e.relayer(from, sub)
          case None => Bad(INTERNAL)
          case Some(relayer) =>
            if !e.matches(tx, sub) then Bad(INVALID_SEQUENCE) else Resolved(TxInfo(tx, from, Some(sub), relayer))
    else if tx.to.Some? && e.fromRelayer(tx.to.value) then
      match e.decodeSub(tx)
      case None => Bad(INTERNAL)
      case Some(sub) =>
        if !e.matches(tx, sub) then Bad(INVALID_SEQUENCE)
        else
          match e.withSignatureOf(sub, tx)
          case None => Bad(INTERNAL)
          case Some(verify) =>
            match e.sender(tx.isProtected, verify)
            case None => Bad(INTERNAL)
            case Some(from) =>
              match e.relayer(from, sub)
              case None => Bad(INTERNAL)
              case Some(relayer) => Resolved(TxInfo(tx, from, Some(sub), relayer))
    else
      match e.sender(tx.isProtected, tx)
      case None => Bad(INTERNAL)
      case Some(from) => Resolved(TxInfo(tx, from, None, 0))
  }

  /** How DeliverTx derives it when the cache has no entry. */
  function DeliverDerive(e: Crypto, tx: Tx): Derived {
    if tx.to.Some? && e.fromRelayer(tx.to.value) then
      match e.decodeSub(tx)
      case None => Bad(INTERNAL)
      case Some(sub) =>
        if !e.matches(tx, sub) then Bad(INVALID_SEQUENCE)
        else
          match e.withSignatureOf(sub, tx)
          case None => Bad(INTERNAL)
          case Some(verify) =>
            match e.sender(tx.isProtected, verify)
            case None => Bad(INTERNAL)
            case Some(from) =>
              match e.relayer(from, sub)
              case None => Bad(INTERNAL)
              case Some(relayer) => Resolved(TxInfo(tx, from, Some(sub), relayer))
    else
      match e.sender(tx.isProtected, tx)
      case None => Bad(INTERNAL)
      case Some(from) =>
        if tx.to.Some? && e.fromClient(tx.to.value) then
          match e.decodeSub(tx)
          case None => Bad(INTERNAL)
          case Some(sub) =>
            if !e.matches(tx, sub) then Bad(INVALID_SEQUENCE)
            else
              match e.relayer(from, sub)
              case None => Bad(INTERNAL)
              case Some(relayer) => Resolved(TxInfo(tx, from, Some(sub), relayer))
        else Resolved(TxInfo(tx, from, None, 0))
  }

  ghost predicate PathsAgree(e: Crypto, tx: Tx) {
    && (CheckDerive(e, tx).Resolved? <==> DeliverDerive(e, tx).Resolved?)
    && (CheckDerive(e, tx).Resolved? ==> CheckDerive(e, tx) == DeliverDerive(e, tx))
  }

  ghost predicate BothKinds(e: Crypto, tx: Tx) {
    tx.to.Some? && e.fromClient(tx.to.value) && e.fromRelayer(tx.to.value)
  }

  /** The two paths accept the same transactions with the same result unless the target is a relay
      target of both kinds, although they look at the kinds in a different order. */
  lemma DisjointPathsAgree(e: Crypto, tx: Tx)
    requires !BothKinds(e, tx)
    ensures PathsAgree(e, tx)
  {
  }

  /** The signature of the outer transaction is also one for the inner transaction, by the same
      sender. */
  ghost predicate SignatureCarries(e: Crypto, tx: Tx) {
    && e.decodeSub(tx).Some?
    && var verify := e.withSignatureOf(e.decodeSub(tx).value, tx);
       verify.Some? && e.sender(tx.isProtected, verify.value) == e.sender(tx.isProtected, tx)
  }

  /** For a target of both kinds the delivery repeats the derivation of the check exactly if the
      signature carries over. */
  lemma OverlapAgreesExactly(e: Crypto, tx: Tx)
    requires BothKinds(e, tx) && CheckDerive(e, tx).Resolved?
    ensures DeliverDerive(e, tx) == CheckDerive(e, tx) <==> SignatureCarries(e, tx)
  {
  }

  /** What the size limit and the sign check let through. */
  predicate Plausible(tx: Tx) {
    tx.size <= MAX_TRANSACTION_SIZE && tx.value >= 0
  }

  /** Whatever CheckTx derives, DeliverTx would derive as well. */
  ghost predicate Consistent(e: Crypto) {
    forall tx: Tx :: Plausible(tx) && CheckDerive(e, tx).Resolved? ==> DeliverDerive(e, tx) == CheckDerive(e, tx)
  }

  ghost predicate BothResolve(e: Crypto, tx: Tx) {
    CheckDerive(e, tx).Resolved? && DeliverDerive(e, tx).Resolved?
  }

  /** No transaction has two senders. */
  ghost predicate OneSender(e: Crypto) {
    forall tx: Tx :: Plausible(tx) && BothResolve(e, tx) ==>
      DeliverDerive(e, tx).info.from == CheckDerive(e, tx).info.from
  }

  /** Where both paths resolve a transaction to a target of both kinds, its senders agree exactly if
      the signature carries over. */
  lemma SendersAgreeExactly(e: Crypto, tx: Tx)
    requires BothKinds(e, tx) && BothResolve(e, tx)
    ensures DeliverDerive(e, tx).info.from == CheckDerive(e, tx).info.from <==> SignatureCarries(e, tx)
  {
  }

  lemma ConsistentHasOneSender(e: Crypto)
    ensures Consistent(e) ==> OneSender(e)
  {
  }

  /** Only targets of both kinds matter for either, and their signatures. */
  lemma ConsistentExactly(e: Crypto)
    ensures Consistent(e) <==>
            forall tx: Tx :: Plausible(tx) && BothKinds(e, tx) && CheckDerive(e, tx).Resolved? ==>
                               SignatureCarries(e, tx)
    ensures OneSender(e) <==>
            forall tx: Tx :: Plausible(tx) && BothKinds(e, tx) && BothResolve(e, tx) ==> SignatureCarries(e, tx)
  {
    forall tx: Tx | CheckDerive(e, tx).Resolved?
      ensures DeliverDerive(e, tx) == CheckDerive(e, tx) <==> BothKinds(e, tx) ==> SignatureCarries(e, tx)
      ensures DeliverDerive(e, tx).Resolved? ==>
              (DeliverDerive(e, tx).info.from == CheckDerive(e, tx).info.from <==>
               BothKinds(e, tx) ==> SignatureCarries(e, tx))
    {
      if BothKinds(e, tx) {
        OverlapAgreesExactly(e, tx);
      } else {
        DisjointPathsAgree(e, tx);
      }
    }
  }

  // ---------------------------------------------------------------- the check state

  datatype Accounts = Accounts(nonces: map<Address, nat>, balances: map<Address, int>)

  function Nonce(s: Accounts, a: Address): nat {
    if a in s.nonces then s.nonces[a] else 0
  }

  function Balance(s: Accounts, a: Address): int {
    if a in s.balances then s.balances[a] else 0
  }

  function AddBalance(s: Accounts, a: Address, amount: int): Accounts {
    s.(balances := s.balances[a := Balance(s, a) + amount])
  }

  /** Everything else a check depends on at the time of the call. */
  datatype Filter = Filter(
    gasLimit: nat,
    intrinsicFails: Tx -> bool,
    betBlocked: (Address, int, Tx) -> bool,
    isAuth: Address -> bool,
    authBlocked: (Address, Tx) -> bool,
    isMint: Address -> bool,
    mintBlocked: Address -> bool)

  datatype Verdict = Passed(check: Accounts) | Failed(code: nat)

  function Payer(info: TxInfo): Address {
    if info.subTx.Some? then info.relayFrom else info.from
  }

  /** The checks of a transaction whose sender is known, and their effect on the check state. A
      plain transfer is credited but not debited. */
  function Validate(f: Filter, s: Accounts, tx: Tx, info: TxInfo): Verdict {
    if tx.value < 0 then Failed(INVALID_COINS)
    else if f.gasLimit < tx.gas then Failed(INTERNAL)
    else if Nonce(s, info.from) != tx.nonce then Failed(INVALID_SEQUENCE)
    else if Balance(s, Payer(info)) < tx.cost then Failed(INSUFFICIENT_FUNDS)
    else if f.intrinsicFails(tx) then Failed(INSUFFICIENT_COINS)
    else if f.betBlocked(info.from, Balance(s, Payer(info)), tx) then Failed(INVALID_ADDRESS)
    else if tx.to.Some? && f.isAuth(tx.to.value) && f.authBlocked(info.from, tx) then Failed(INVALID_SEQUENCE)
    else if && tx.to.Some? && !f.isAuth(tx.to.value) && info.subTx.None?
            && f.isMint(tx.to.value) && f.mintBlocked(info.from)
    then Failed(INVALID_SEQUENCE)
    else
      var debited :=
        if tx.to.None? || f.isAuth(tx.to.value) then AddBalance(s, info.from, -tx.cost)
        else if info.subTx.Some? then AddBalance(s, info.relayFrom, -tx.cost)
        else if f.isMint(tx.to.value) then AddBalance(s, info.from, -tx.cost)
        else s;
      var credited :=
        if tx.to.Some? && !f.isMint(tx.to.value) then AddBalance(debited, tx.to.value, tx.value) else debited;
      Passed(credited.(nonces := credited.nonces[info.from := tx.nonce + 1]))
  }

  /** A transaction that passes carries the next nonce of its sender and uses it up, and no other
      nonce moves. */
  lemma ValidateNonces(f: Filter, s: Accounts, tx: Tx, info: TxInfo, a: Address)
    requires Validate(f, s, tx, info).Passed?
    ensures tx.nonce == Nonce(s, info.from)
    ensures Nonce(Validate(f, s, tx, info).check, a) == Nonce(s, a) + if a == info.from then 1 else 0
  {
  }

  datatype CheckType = Remote | Local(info: TxInfo) | Recheck

  datatype Response = Accepted | Refused(code: nat) | Panic

  /** The part of the node CheckTx works on. */
  datatype Front = Front(check: Accounts, cache: map<TxHash, TxInfo>)

  /** CheckTx. A recheck relies on the cache and gives its entry up when it fails. */
  function Check(e: Crypto, f: Filter, fr: Front, tx: Tx, kind: CheckType): (Front, Response) {
    var h := HashOf(tx);
    if tx.size > MAX_TRANSACTION_SIZE then (fr, Refused(INTERNAL))
    else
      match kind
      case Recheck =>
        if h !in fr.cache then (fr, Panic)
        else
          (match Validate(f, fr.check, tx, fr.cache[h])
           case Passed(s) => (fr.(check := s), Accepted)
           case Failed(code) => (fr.(cache := fr.cache - {h}), Refused(code)))
      case Local(info) =>
        (match Validate(f, fr.check, tx, info)
         case Passed(s) => (Front(s, fr.cache[h := info]), Accepted)
         case Failed(code) => (fr, Refused(code)))
      case Remote =>
        match CheckDerive(e, tx)
        case Bad(code) => (fr, Refused(code))
        case Resolved(info) =>
          match Validate(f, fr.check, tx, info)
          case Passed(s) => (Front(s, fr.cache[h := info]), Accepted)
          case Failed(code) => (fr, Refused(code))
  }

  /** What DeliverTx executes: the cached derivation, or a fresh one. */
  function Lookup(e: Crypto, cache: map<TxHash, TxInfo>, tx: Tx): Derived {
    if HashOf(tx) in cache then Resolved(cache[HashOf(tx)]) else DeliverDerive(e, tx)
  }

  // ---------------------------------------------------------------- the node's methods

  /** The node's side: the state CheckTx checks against, the state being built and the cache. */
  class TxNode {
    const e: Crypto
    var check: Accounts
    var working: Accounts
    var cache: map<TxHash, TxInfo>

    constructor (e: Crypto, committed: Accounts)
      ensures this.e == e && check == committed && working == committed && cache == map[]
    {
      this.e, check, working, cache := e, committed, committed, map[];
    }

    ghost function View(): Front
      reads this
    {
      Front(check, cache)
    }

    method CheckTx(f: Filter, tx: Tx, kind: CheckType) returns (r: Response)
      modifies this`check, this`cache
      ensures (View(), r) == old(Check(e, f, View(), tx, kind))
    {
      if tx.size > MAX_TRANSACTION_SIZE {
        return Refused(INTERNAL);
      }
      var h := HashOf(tx);
      var info: TxInfo;
      match kind {
        case Local(current) =>
          info := current;
        case Recheck =>
          if h !in cache {
            return Panic;
          }
          info := cache[h];
        case Remote =>
          var d := CheckDerive(e, tx);
          if d.Bad? {
            return Refused(d.code);
          }
          info := d.info;
      }
      match Validate(f, check, tx, info) {
        case Passed(s) =>
          check := s;
          if !kind.Recheck? {
            cache := cache[h := info];
          }
          r := Accepted;
        case Failed(code) =>
          if kind.Recheck? {
            cache := cache - {h};
          }
          r := Refused(code);
      }
    }

    /** Executes a transaction of a block; the virtual machine is a parameter. */
    method DeliverTx(tx: Tx, execute: (Accounts, TxInfo) -> Accounts) returns (d: Derived)
      modifies this`cache, this`working
      ensures d == old(Lookup(e, cache, tx))
      ensures cache == old(cache) - {HashOf(tx)}
      ensures working == if d.Resolved? then execute(old(working), d.info) else old(working)
    {
      var h := HashOf(tx);
      if h in cache {
        d := Resolved(cache[h]);
        cache := cache - {h};
      } else {
        d := DeliverDerive(e, tx);
        assert cache - {h} == cache;
      }
      if d.Resolved? {
        working := execute(working, d.info);
      }
    }

    /** Commit resets the check state; the mempool then has every remaining transaction checked
        again, in order, and keeps those that pass. */
    method CommitAndRecheck(f: Filter, remaining: seq<Tx>) returns (kept: seq<Tx>, panicked: bool)
      modifies this`check, this`cache
      ensures (View(), kept, panicked) == RecheckAll(e, f, Front(old(working), old(cache)), remaining)
    {
      check := working;
      kept, panicked := [], false;
      for i := 0 to |remaining|
        invariant RecheckAll(e, f, Front(old(working), old(cache)), remaining[..i]) == (View(), kept, panicked)
      {
        assert remaining[..i + 1][..i] == remaining[..i];
        if !panicked {
          var r := CheckTx(f, remaining[i], Recheck);
          if r.Accepted? {
            kept := kept + [remaining[i]];
          }
          panicked := r.Panic?;
        }
      }
      assert remaining[..|remaining|] == remaining;
    }
  }

  /** Rechecking a list of transactions one after the other. */
  function RecheckAll(e: Crypto, f: Filter, fr: Front, txs: seq<Tx>): (Front, seq<Tx>, bool) {
    if txs == [] then (fr, [], false)
    else
      var tx := txs[|txs| - 1];
      var (fr', kept, panicked) := RecheckAll(e, f, fr, txs[..|txs| - 1]);
      if panicked then (fr', kept, panicked)
      else
        var (fr'', r) := Check(e, f, fr', tx, Recheck);
        (fr'', if r.Accepted? then kept + [tx] else kept, r.Panic?)
  }

  // ---------------------------------------------------------------- the protocol

  /** The node together with the mempool: the state last committed, the one being built, the
      pooled transactions and those already delivered in the block under way. */
  datatype TxState = TxState(front: Front, committed: Accounts, working: Accounts, pool: seq<Tx>, delivered: set<Tx>)

  /** What can happen: a new transaction, by network or from the node's own pool, a delivery, or
      the end of a block with its recheck. */
  datatype Event =
    | Submit(tx: Tx, kind: CheckType, filter: Filter)
    | Deliver(tx: Tx, execute: (Accounts, TxInfo) -> Accounts)
    | Commit(filter: Filter)

  function Without(pool: seq<Tx>, gone: set<Tx>): seq<Tx> {
    if pool == [] then []
    else
      var tx := pool[|pool| - 1];
      Without(pool[..|pool| - 1], gone) + if tx in gone then [] else [tx]
  }

  /** Anything may be submitted, also what the pool holds already; only the node's own pool hands
      over a derivation, and then a correct one. */
  ghost predicate Allowed(e: Crypto, ev: Event) {
    ev.Submit? ==> ev.kind != Recheck && (ev.kind.Local? ==> DeliverDerive(e, ev.tx) == Resolved(ev.kind.info))
  }

  function After(e: Crypto, s: TxState, ev: Event): (TxState, bool) {
    match ev
    case Submit(tx, kind, f) =>
      var (fr, r) := Check(e, f, s.front, tx, kind);
      (s.(front := fr, pool := if r.Accepted? then s.pool + [tx] else s.pool), r.Panic?)
    case Deliver(tx, execute) =>
      var d := Lookup(e, s.front.cache, tx);
      (s.(front := s.front.(cache := s.front.cache - {HashOf(tx)}), delivered := s.delivered + {tx},
       working := if d.Resolved? then execute(s.working, d.info) else s.working), false)
    case Commit(f) =>
      var (fr, kept, panicked) := RecheckAll(e, f, Front(s.working, s.front.cache), Without(s.pool, s.delivered));
      (TxState(fr, s.working, s.working, kept, {}), panicked)
  }

  /** The states after each event of a history. */
  ghost function History(e: Crypto, start: TxState, evs: seq<Event>): TxState {
    if evs == [] then start else After(e, History(e, start, evs[..|evs| - 1]), evs[|evs| - 1]).0
  }

  ghost predicate Legal(e: Crypto, evs: seq<Event>) {
    forall i :: 0 <= i < |evs| ==> Allowed(e, evs[i])
  }

  function Start(committed: Accounts): TxState {
    TxState(Front(committed, map[]), committed, committed, [], {})
  }

  // ---------------------------------------------------------------- what every history keeps

  /** Every cached derivation is the one DeliverTx would make itself. */
  ghost predicate CacheFaithful(e: Crypto, cache: map<TxHash, TxInfo>) {
    forall h :: h in cache ==> DeliverDerive(e, h.tx) == Resolved(cache[h])
  }

  /** Every transaction of a list resolves when it is delivered. */
  ghost predicate Derivable(e: Crypto, txs: seq<Tx>) {
    forall tx :: tx in txs ==> DeliverDerive(e, tx).Resolved?
  }

  /** Transactions a recheck can work through: small enough, without repeats, and in the cache if
      they have not been delivered. */
  ghost predicate Stocked(txs: seq<Tx>, delivered: set<Tx>, cache: map<TxHash, TxInfo>) {
    && (forall i :: 0 <= i < |txs| ==> txs[i].size <= MAX_TRANSACTION_SIZE)
    && (forall i, j :: 0 <= i < j < |txs| ==> txs[i] != txs[j])
    && (forall i :: 0 <= i < |txs| && txs[i] !in delivered ==> HashOf(txs[i]) in cache)
  }

  /** The sender of a transaction on whichever path resolves it. */
  function FromOf(e: Crypto, tx: Tx): Address {
    match DeliverDerive(e, tx)
    case Resolved(info) => info.from
    case Bad(_) =>
      match CheckDerive(e, tx)
      case Resolved(info) => info.from
      case Bad(_) => 0
  }

  ghost predicate CacheSenders(e: Crypto, cache: map<TxHash, TxInfo>) {
    forall h :: h in cache ==> cache[h].from == FromOf(e, h.tx)
  }

  /** How many transactions of a list come from one account. */
  function CountFrom(e: Crypto, txs: seq<Tx>, a: Address): nat {
    if txs == [] then 0
    else CountFrom(e, txs[..|txs| - 1], a) + if FromOf(e, txs[|txs| - 1]) == a then 1 else 0
  }

  /** Each account's pooled transactions carry consecutive nonces from its committed nonce on, and
      the check state expects the one after the last. */
  ghost predicate Contiguous(e: Crypto, committed: Accounts, check: Accounts, pool: seq<Tx>) {
    && (forall i :: 0 <= i < |pool| ==>
          pool[i].nonce == Nonce(committed, FromOf(e, pool[i])) + CountFrom(e, pool[..i], FromOf(e, pool[i])))
    && (forall a: Address :: Nonce(check, a) == Nonce(committed, a) + CountFrom(e, pool, a))
  }

  /** The pool is in order: the recheck will find what it needs, and nonces are contiguous. */
  ghost predicate PoolInv(e: Crypto, s: TxState) {
    && CacheSenders(e, s.front.cache)
    && Stocked(s.pool, s.delivered, s.front.cache)
    && Contiguous(e, s.committed, s.front.check, s.pool)
  }

  lemma ContiguousSnoc(e: Crypto, f: Filter, committed: Accounts, check: Accounts, pool: seq<Tx>, tx: Tx, info: TxInfo)
    requires Contiguous(e, committed, check, pool) && info.from == FromOf(e, tx)
    requires Validate(f, check, tx, info).Passed?
    ensures Contiguous(e, committed, Validate(f, check, tx, info).check, pool + [tx])
  {
    var pool', check' := pool + [tx], Validate(f, check, tx, info).check;
    assert pool'[..|pool|] == pool;
    forall i | 0 <= i < |pool'|
      ensures pool'[i].nonce == Nonce(committed, FromOf(e, pool'[i])) + CountFrom(e, pool'[..i], FromOf(e, pool'[i]))
    {
      assert i < |pool| ==> pool'[..i] == pool[..i];
      ValidateNonces(f, check, tx, info, info.from);
    }
    forall a: Address ensures Nonce(check', a) == Nonce(committed, a) + CountFrom(e, pool', a) {
      ValidateNonces(f, check, tx, info, a);
    }
  }

  // ---------------------------------------------------------------- the recheck finds its entries

  lemma StockedSnoc(txs: seq<Tx>, delivered: set<Tx>, cache: map<TxHash, TxInfo>, tx: Tx)
    requires Stocked(txs, delivered, cache) && tx !in txs && tx.size <= MAX_TRANSACTION_SIZE && HashOf(tx) in cache
    ensures Stocked(txs + [tx], delivered, cache)
  {
  }

  lemma StockedForget(txs: seq<Tx>, delivered: set<Tx>, cache: map<TxHash, TxInfo>, tx: Tx)
    requires Stocked(txs, delivered, cache) && (tx in delivered || tx !in txs)
    ensures Stocked(txs, delivered, cache - {HashOf(tx)})
  {
  }

  /** A recheck that finds its cache entry. */
  lemma RecheckCached(e: Crypto, f: Filter, fr: Front, tx: Tx)
    requires tx.size <= MAX_TRANSACTION_SIZE && HashOf(tx) in fr.cache
    ensures Check(e, f, fr, tx, Recheck) ==
            match Validate(f, fr.check, tx, fr.cache[HashOf(tx)])
            case Passed(s) => (fr.(check := s), Accepted)
            case Failed(code) => (fr.(cache := fr.cache - {HashOf(tx)}), Refused(code))
  {
  }

  ghost function Elements(txs: seq<Tx>): set<Tx> {
    set tx | tx in txs
  }

  /** Rechecking a list never misses the cache: each failure gives up its own entry only, and what
      is kept is still cached. */
  lemma {:induction false} RecheckStocks(e: Crypto, f: Filter, fr: Front, txs: seq<Tx>)
    requires Stocked(txs, {}, fr.cache)
    ensures var r := RecheckAll(e, f, fr, txs);
            && !r.2 && Stocked(r.1, {}, r.0.cache) && Elements(r.1) <= Elements(txs)
            && forall h :: h in fr.cache && h.tx !in Elements(txs) ==> h in r.0.cache && r.0.cache[h] == fr.cache[h]
  {
    if txs != [] {
      var rest, tx := txs[..|txs| - 1], txs[|txs| - 1];
      assert Stocked(rest, {}, fr.cache);
      RecheckStocks(e, f, fr, rest);
      var r := RecheckAll(e, f, fr, rest);
      assert HashOf(tx) in fr.cache && HashOf(tx).tx !in Elements(rest);
      RecheckCached(e, f, r.0, tx);
      assert Elements(txs) == Elements(rest) + {tx};
      assert tx !in r.1 by { assert tx !in Elements(r.1); }
      assert Elements(r.1 + [tx]) == Elements(r.1) + {tx};
      StockedSnoc(r.1, {}, r.0.cache, tx);
      StockedForget(r.1, {}, r.0.cache, tx);
    }
  }

  lemma {:induction false} WithoutFacts(pool: seq<Tx>, gone: set<Tx>)
    ensures forall i :: 0 <= i < |Without(pool, gone)| ==>
              Without(pool, gone)[i] in pool && Without(pool, gone)[i] !in gone
    ensures (forall i, j :: 0 <= i < j < |pool| ==> pool[i] != pool[j]) ==>
            forall i, j :: 0 <= i < j < |Without(pool, gone)| ==> Without(pool, gone)[i] != Without(pool, gone)[j]
  {
    if pool != [] {
      WithoutFacts(pool[..|pool| - 1], gone);
    }
  }

  lemma WithoutStocked(pool: seq<Tx>, gone: set<Tx>, cache: map<TxHash, TxInfo>)
    requires Stocked(pool, gone, cache)
    ensures Stocked(Without(pool, gone), {}, cache)
  {
    var remaining := Without(pool, gone);
    WithoutFacts(pool, gone);
    forall i | 0 <= i < |remaining|
      ensures remaining[i].size <= MAX_TRANSACTION_SIZE && HashOf(remaining[i]) in cache
    {
      var j :| 0 <= j < |pool| && pool[j] == remaining[i];
    }
  }

  /** Rechecking changes no cache entry and adds none. */
  lemma {:induction false} RecheckForgets(e: Crypto, f: Filter, fr: Front, txs: seq<Tx>)
    ensures var cache := RecheckAll(e, f, fr, txs).0.cache;
            forall h :: h in cache ==> h in fr.cache && cache[h] == fr.cache[h]
  {
    if txs != [] {
      RecheckForgets(e, f, fr, txs[..|txs| - 1]);
    }
  }

  // ---------------------------------------------------------------- one sender each: the pool stays in order

  lemma {:induction false} CountGrows(e: Crypto, txs: seq<Tx>, i: nat)
    requires i < |txs|
    ensures CountFrom(e, txs[..i], FromOf(e, txs[i])) < CountFrom(e, txs, FromOf(e, txs[i]))
  {
    var rest := txs[..|txs| - 1];
    if i < |rest| {
      assert rest[..i] == txs[..i];
      CountGrows(e, rest, i);
    }
  }

  /** A transaction the pool holds fails the nonce test when it is submitted again. */
  lemma PooledRefused(e: Crypto, f: Filter, committed: Accounts, check: Accounts, pool: seq<Tx>, tx: Tx, info: TxInfo)
    requires Contiguous(e, committed, check, pool) && tx in pool && info.from == FromOf(e, tx)
    ensures Validate(f, check, tx, info).Failed?
  {
    var i :| 0 <= i < |pool| && pool[i] == tx;
    CountGrows(e, pool, i);
    assert Nonce(check, info.from) > tx.nonce;
  }

  /** An accepted submission enters the cache under the sender of the transaction. */
  lemma SubmitAccepted(e: Crypto, fr: Front, tx: Tx, kind: CheckType, f: Filter) returns (info: TxInfo)
    requires Allowed(e, Submit(tx, kind, f)) && Check(e, f, fr, tx, kind).1.Accepted?
    ensures Plausible(tx) && Validate(f, fr.check, tx, info).Passed?
    ensures Resolved(info) == CheckDerive(e, tx) || Resolved(info) == DeliverDerive(e, tx)
    ensures OneSender(e) ==> info.from == FromOf(e, tx)
    ensures Consistent(e) ==> Resolved(info) == DeliverDerive(e, tx)
    ensures Check(e, f, fr, tx, kind).0 == Front(Validate(f, fr.check, tx, info).check, fr.cache[HashOf(tx) := info])
  {
    info := if kind.Local? then kind.info else CheckDerive(e, tx).info;
    assert Plausible(tx);
  }

  lemma SubmitOrders(e: Crypto, s: TxState, tx: Tx, kind: CheckType, f: Filter)
    requires OneSender(e) && PoolInv(e, s) && Allowed(e, Submit(tx, kind, f))
    ensures var (s', panicked) := After(e, s, Submit(tx, kind, f)); PoolInv(e, s') && !panicked
  {
    if Check(e, f, s.front, tx, kind).1.Accepted? {
      var info := SubmitAccepted(e, s.front, tx, kind, f);
      PoolAlso(e, s, tx, f, info);
    }
  }

  lemma PoolAlso(e: Crypto, s: TxState, tx: Tx, f: Filter, info: TxInfo)
    requires PoolInv(e, s) && tx.size <= MAX_TRANSACTION_SIZE && info.from == FromOf(e, tx)
    requires Validate(f, s.front.check, tx, info).Passed?
    ensures PoolInv(e, s.(front := Front(Validate(f, s.front.check, tx, info).check, s.front.cache[HashOf(tx) := info]),
                          pool := s.pool + [tx]))
  {
    if tx in s.pool {
      PooledRefused(e, f, s.committed, s.front.check, s.pool, tx, info);
    } else {
      CachedSnoc(s.pool, s.delivered, s.front.cache, tx, info);
      ContiguousSnoc(e, f, s.committed, s.front.check, s.pool, tx, info);
    }
  }

  lemma CachedSnoc(txs: seq<Tx>, delivered: set<Tx>, cache: map<TxHash, TxInfo>, tx: Tx, info: TxInfo)
    requires Stocked(txs, delivered, cache) && tx !in txs && tx.size <= MAX_TRANSACTION_SIZE
    ensures Stocked(txs + [tx], delivered, cache[HashOf(tx) := info])
  {
    var cache' := cache[HashOf(tx) := info];
    assert Stocked(txs, delivered, cache');
    StockedSnoc(txs, delivered, cache', tx);
  }

  lemma DeliverOrders(e: Crypto, s: TxState, tx: Tx, execute: (Accounts, TxInfo) -> Accounts)
    requires PoolInv(e, s)
    ensures PoolInv(e, After(e, s, Deliver(tx, execute)).0)
  {
    StockedForget(s.pool, s.delivered + {tx}, s.front.cache, tx);
  }

  /** What a recheck keeps is contiguous from the newly committed nonces. */
  lemma {:induction false} RecheckKeeps(e: Crypto, f: Filter, committed: Accounts, cache: map<TxHash, TxInfo>,
                                        txs: seq<Tx>)
    requires CacheSenders(e, cache) && Stocked(txs, {}, cache)
    ensures var r := RecheckAll(e, f, Front(committed, cache), txs); Contiguous(e, committed, r.0.check, r.1)
  {
    if txs != [] {
      var rest, tx := txs[..|txs| - 1], txs[|txs| - 1];
      assert Stocked(rest, {}, cache);
      RecheckKeeps(e, f, committed, cache, rest);
      RecheckStocks(e, f, Front(committed, cache), rest);
      var r := RecheckAll(e, f, Front(committed, cache), rest);
      assert HashOf(tx) in cache && HashOf(tx).tx !in Elements(rest);
      RecheckCached(e, f, r.0, tx);
      if Validate(f, r.0.check, tx, r.0.cache[HashOf(tx)]).Passed? {
        ContiguousSnoc(e, f, committed, r.0.check, r.1, tx, r.0.cache[HashOf(tx)]);
      }
    }
  }

  lemma CommitOrders(e: Crypto, s: TxState, f: Filter)
    requires PoolInv(e, s)
    ensures var (s', panicked) := After(e, s, Commit(f)); PoolInv(e, s') && !panicked
  {
    var remaining := Without(s.pool, s.delivered);
    WithoutStocked(s.pool, s.delivered, s.front.cache);
    RecheckStocks(e, f, Front(s.working, s.front.cache), remaining);
    RecheckForgets(e, f, Front(s.working, s.front.cache), remaining);
    RecheckKeeps(e, f, s.working, s.front.cache, remaining);
  }

  /** In every interleaving of submissions, deliveries and commits, resubmissions included, when no
      transaction has two senders: the pool has no repeats, every pooled transaction not yet
      delivered is cached, nonces are contiguous, and the node does not come down on a recheck. */
  lemma {:induction false} HistoryStocked(e: Crypto, committed: Accounts, evs: seq<Event>)
    requires OneSender(e) && Legal(e, evs)
    ensures PoolInv(e, History(e, Start(committed), evs))
    ensures evs != [] ==> !After(e, History(e, Start(committed), evs[..|evs| - 1]), evs[|evs| - 1]).1
  {
    if evs != [] {
      var s := History(e, Start(committed), evs[..|evs| - 1]);
      HistoryStocked(e, committed, evs[..|evs| - 1]);
      match evs[|evs| - 1]
      case Submit(tx, kind, f) => SubmitOrders(e, s, tx, kind, f);
      case Deliver(tx, execute) => DeliverOrders(e, s, tx, execute);
      case Commit(f) => CommitOrders(e, s, f);
    }
  }

  // ---------------------------------------------------------------- one derivation each: the cache is faithful

  lemma StepFaithful(e: Crypto, s: TxState, ev: Event)
    requires Consistent(e) && Allowed(e, ev) && CacheFaithful(e, s.front.cache) && Derivable(e, s.pool)
    ensures var s' := After(e, s, ev).0; CacheFaithful(e, s'.front.cache) && Derivable(e, s'.pool)
  {
    match ev
    case Submit(tx, kind, f) =>
      if Check(e, f, s.front, tx, kind).1.Accepted? {
        var info := SubmitAccepted(e, s.front, tx, kind, f);
      }
    case Deliver(tx, execute) =>
    case Commit(f) =>
      var fr, remaining := Front(s.working, s.front.cache), Without(s.pool, s.delivered);
      RecheckForgets(e, f, fr, remaining);
      KeptFromPool(e, f, fr, remaining);
      WithoutFacts(s.pool, s.delivered);
  }

  lemma {:induction false} KeptFromPool(e: Crypto, f: Filter, fr: Front, txs: seq<Tx>)
    ensures forall tx :: tx in RecheckAll(e, f, fr, txs).1 ==> tx in txs
  {
    if txs != [] {
      KeptFromPool(e, f, fr, txs[..|txs| - 1]);
    }
  }

  /** In every interleaving, when CheckTx and DeliverTx derive the same: the cache is faithful and
      every pooled transaction resolves, and all of the above holds as well. */
  lemma {:induction false} HistoryKeeps(e: Crypto, committed: Accounts, evs: seq<Event>)
    requires Consistent(e) && Legal(e, evs)
    ensures var s := History(e, Start(committed), evs);
            CacheFaithful(e, s.front.cache) && Derivable(e, s.pool) && PoolInv(e, s)
    ensures evs != [] ==> !After(e, History(e, Start(committed), evs[..|evs| - 1]), evs[|evs| - 1]).1
  {
    if evs != [] {
      HistoryKeeps(e, committed, evs[..|evs| - 1]);
      StepFaithful(e, History(e, Start(committed), evs[..|evs| - 1]), evs[|evs| - 1]);
    }
    ConsistentHasOneSender(e);
    HistoryStocked(e, committed, evs);
  }
}
