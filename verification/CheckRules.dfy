/** The rules of CheckTx, test by test: whose transaction it is, when it is accepted, with which code it
    is refused, and what an accepted one does to the check state. */
module CheckRules {
  import opened Types
  import opened Mempools
  import opened Transparency

  // ---------------------------------------------------------------- whose transaction it is

  predicate ToClientRelay(e: Crypto, tx: Tx) {
    tx.to.Some? && e.fromClient(tx.to.value)
  }

  predicate ToRelayerRelay(e: Crypto, tx: Tx) {
    tx.to.Some? && e.fromRelayer(tx.to.value)
  }

  /** A plain transaction comes from its signer. */
  ghost predicate PlainInfo(e: Crypto, tx: Tx, info: TxInfo) {
    info.tx == tx && info.subTx == None && info.relayFrom == 0 && e.sender(tx.isProtected, tx) == Some(info.from)
  }

  /** A relayed transaction: the inner one decodes, belongs to the outer one, and its relayer can be
      derived for the sender. */
  ghost predicate RelayInfo(e: Crypto, tx: Tx, info: TxInfo) {
    && info.tx == tx && info.subTx.Some? && e.decodeSub(tx) == info.subTx
    && e.matches(tx, info.subTx.value)
    && e.relayer(info.from, info.subTx.value) == Some(info.relayFrom)
  }

  /** Sent by the client, the outer transaction carries the client's signature; sent by the relayer,
      the signature belongs to the inner one. */
  ghost predicate ClientInfo(e: Crypto, tx: Tx, info: TxInfo) {
    RelayInfo(e, tx, info) && e.sender(tx.isProtected, tx) == Some(info.from)
  }

  ghost predicate RelayerInfo(e: Crypto, tx: Tx, info: TxInfo) {
    && RelayInfo(e, tx, info)
    && var verify := e.withSignatureOf(info.subTx.value, tx);
       verify.Some? && e.sender(tx.isProtected, verify.value) == Some(info.from)
  }

  /** CheckTx asks for a client relay first, DeliverTx for a relayer relay. */
  lemma CheckDerivesExactly(e: Crypto, tx: Tx, info: TxInfo)
    ensures CheckDerive(e, tx) == Resolved(info) <==>
            if ToClientRelay(e, tx) then ClientInfo(e, tx, info)
            else if ToRelayerRelay(e, tx) then RelayerInfo(e, tx, info)
            else PlainInfo(e, tx, info)
  {
  }

  lemma DeliverDerivesExactly(e: Crypto, tx: Tx, info: TxInfo)
    ensures DeliverDerive(e, tx) == Resolved(info) <==>
            if ToRelayerRelay(e, tx) then RelayerInfo(e, tx, info)
            else if ToClientRelay(e, tx) then ClientInfo(e, tx, info)
            else PlainInfo(e, tx, info)
  {
  }

  /** The inner transaction decodes and does not belong to the outer one. */
  ghost predicate Mismatch(e: Crypto, tx: Tx) {
    e.decodeSub(tx).Some? && !e.matches(tx, e.decodeSub(tx).value)
  }

  /** A derivation that fails does so with the code of a bad sequence exactly at a mismatch, which a
      client relay only reaches once sender and relayer are known, and else with the internal one. */
  lemma DerivationCodes(e: Crypto, tx: Tx)
    requires CheckDerive(e, tx).Bad?
    ensures CheckDerive(e, tx).code == INTERNAL || CheckDerive(e, tx).code == INVALID_SEQUENCE
    ensures CheckDerive(e, tx).code == INVALID_SEQUENCE <==>
            && (ToClientRelay(e, tx) || ToRelayerRelay(e, tx)) && Mismatch(e, tx)
            && (ToClientRelay(e, tx) ==>
                  && e.sender(tx.isProtected, tx).Some?
                  && e.relayer(e.sender(tx.isProtected, tx).value, e.decodeSub(tx).value).Some?)
  {
  }

  // ---------------------------------------------------------------- the tests and their codes

  /** A test that a transaction can fail, and the code of its refusal. */
  datatype Test = Test(fails: bool, code: nat)

  predicate ToAuth(f: Filter, tx: Tx) {
    tx.to.Some? && f.isAuth(tx.to.value)
  }

  /** A mint of the sender's own, neither an authorisation nor relayed. */
  predicate OwnMint(f: Filter, tx: Tx, info: TxInfo) {
    tx.to.Some? && f.isMint(tx.to.value) && !f.isAuth(tx.to.value) && info.subTx.None?
  }

  /** The tests of a transaction of a known sender, in the order in which they are made. */
  function Tests(f: Filter, s: Accounts, tx: Tx, info: TxInfo): seq<Test> {
    var funds := Balance(s, if info.subTx.Some? then info.relayFrom else info.from);
    [Test(tx.value < 0, INVALID_COINS),
     Test(tx.gas > f.gasLimit, INTERNAL),
     Test(tx.nonce != Nonce(s, info.from), INVALID_SEQUENCE),
     Test(tx.cost > funds, INSUFFICIENT_FUNDS),
     Test(f.intrinsicFails(tx), INSUFFICIENT_COINS),
     Test(f.betBlocked(info.from, funds, tx), INVALID_ADDRESS),
     Test(ToAuth(f, tx) && f.authBlocked(info.from, tx), INVALID_SEQUENCE),
     Test(OwnMint(f, tx, info) && f.mintBlocked(info.from), INVALID_SEQUENCE)]
  }

  predicate NoneFails(tests: seq<Test>) {
    forall i :: 0 <= i < |tests| ==> !tests[i].fails
  }

  /** Test i is the first one that fails. */
  predicate FirstFailing(tests: seq<Test>, i: int) {
    0 <= i < |tests| && tests[i].fails && forall j :: 0 <= j < i ==> !tests[j].fails
  }

  /** The verdict on a transaction of a known sender: it passes exactly if no test fails, and is
      refused with the code of the first one that does. */
  lemma ValidateExactly(f: Filter, s: Accounts, tx: Tx, info: TxInfo)
    ensures Validate(f, s, tx, info).Passed? <==> NoneFails(Tests(f, s, tx, info))
    ensures forall code :: Validate(f, s, tx, info) == Failed(code) <==>
              exists i :: FirstFailing(Tests(f, s, tx, info), i) && Tests(f, s, tx, info)[i].code == code
  {
    var tests := Tests(f, s, tx, info);
    if NoneFails(tests) {
      assert !tests[0].fails && !tests[1].fails && !tests[2].fails && !tests[3].fails;
      assert !tests[4].fails && !tests[5].fails && !tests[6].fails && !tests[7].fails;
    } else {
      var i := FindFirst(tests);
      assert forall j :: 0 <= j < i ==> !tests[j].fails;
      FailsWith(f, s, tx, info, i);
      assert forall j :: FirstFailing(tests, j) ==> j == i;
    }
  }

  lemma FailsWith(f: Filter, s: Accounts, tx: Tx, info: TxInfo, i: int)
    requires FirstFailing(Tests(f, s, tx, info), i)
    ensures Validate(f, s, tx, info) == Failed(Tests(f, s, tx, info)[i].code)
  {
    var tests := Tests(f, s, tx, info);
    assert i > 0 ==> !tests[0].fails;
    assert i > 1 ==> !tests[1].fails;
    assert i > 2 ==> !tests[2].fails;
    assert i > 3 ==> !tests[3].fails;
    assert i > 4 ==> !tests[4].fails;
    assert i > 5 ==> !tests[5].fails;
    assert i > 6 ==> !tests[6].fails;
  }

  lemma {:induction false} FindFirst(tests: seq<Test>) returns (i: int)
    requires !NoneFails(tests)
    ensures FirstFailing(tests, i)
  {
    var n := |tests| - 1;
    if NoneFails(tests[..n]) {
      i := n;
      assert forall j :: 0 <= j < n ==> tests[..n][j] == tests[j];
    } else {
      i := FindFirst(tests[..n]);
    }
  }

  // ---------------------------------------------------------------- CheckTx

  /** CheckTx of any kind accepts a transaction exactly if it is not too large, its sender is known and
      it passes every test. */
  lemma AcceptsExactly(e: Crypto, f: Filter, fr: Front, tx: Tx, kind: CheckType)
    ensures Check(e, f, fr, tx, kind).1 == Accepted <==>
            && tx.size <= 32768
            && Subject(e, fr, tx, kind).Resolved?
            && NoneFails(Tests(f, fr.check, tx, Subject(e, fr, tx, kind).info))
  {
    if Subject(e, fr, tx, kind).Resolved? {
      ValidateExactly(f, fr.check, tx, Subject(e, fr, tx, kind).info);
    }
  }

  /** Otherwise it panics exactly on a recheck without a cache entry, and refuses with the code of the
      first thing that is wrong: size, derivation, tests. The check state stays as it was, and only a
      recheck that fails gives up its cache entry. */
  lemma RefusesExactly(e: Crypto, f: Filter, fr: Front, tx: Tx, kind: CheckType)
    requires Check(e, f, fr, tx, kind).1 != Accepted
    ensures var (fr', r) := Check(e, f, fr, tx, kind);
            && fr'.check == fr.check
            && (r == Panic <==> tx.size <= 32768 && kind == Recheck && HashOf(tx) !in fr.cache)
            && (tx.size > 32768 ==> r == Refused(INTERNAL))
            && (tx.size <= 32768 && kind == Remote && CheckDerive(e, tx).Bad? ==> r == Refused(CheckDerive(e, tx).code))
            && (tx.size <= 32768 && Subject(e, fr, tx, kind).Resolved? ==>
                  exists i :: RefusedBy(Tests(f, fr.check, tx, Subject(e, fr, tx, kind).info), i, r))
            && fr'.cache == if tx.size <= 32768 && kind == Recheck then fr.cache - {HashOf(tx)} else fr.cache
  {
    if tx.size <= 32768 && Subject(e, fr, tx, kind).Resolved? {
      var info := Subject(e, fr, tx, kind).info;
      ValidateExactly(f, fr.check, tx, info);
      var i :| FirstFailing(Tests(f, fr.check, tx, info), i) &&
               Tests(f, fr.check, tx, info)[i].code == Validate(f, fr.check, tx, info).code;
      assert RefusedBy(Tests(f, fr.check, tx, info), i, Check(e, f, fr, tx, kind).1);
    }
    if kind == Recheck && HashOf(tx) !in fr.cache {
      assert fr.cache - {HashOf(tx)} == fr.cache;
    }
  }

  predicate RefusedBy(tests: seq<Test>, i: int, r: Response) {
    FirstFailing(tests, i) && r == Refused(tests[i].code)
  }

  // ---------------------------------------------------------------- what acceptance does

  /** Who is debited the cost: the sender of a creation, an authorisation or a mint of its own; the
      relayer of a relayed transaction that is no authorisation; nobody for a plain transfer. */
  function Debtor(f: Filter, tx: Tx, info: TxInfo): Option<Address> {
    if tx.to.None? || ToAuth(f, tx) then Some(info.from)
    else if info.subTx.Some? then Some(info.relayFrom)
    else if f.isMint(tx.to.value) then Some(info.from)
    else None
  }

  /** Who is credited the value: the target, unless it is the mint. */
  function Creditor(f: Filter, tx: Tx): Option<Address> {
    if tx.to.Some? && !f.isMint(tx.to.value) then tx.to else None
  }

  lemma PassedBalances(f: Filter, s: Accounts, tx: Tx, info: TxInfo, x: Address)
    requires Validate(f, s, tx, info).Passed?
    ensures Balance(Validate(f, s, tx, info).check, x) ==
            Balance(s, x) - (if Debtor(f, tx, info) == Some(x) then tx.cost else 0)
            + (if Creditor(f, tx) == Some(x) then tx.value else 0)
  {
  }

  /** The check state and the cache after an accepted CheckTx, account by account. */
  lemma AcceptanceEffects(e: Crypto, f: Filter, fr: Front, tx: Tx, kind: CheckType, x: Address)
    requires Check(e, f, fr, tx, kind).1 == Accepted
    ensures Subject(e, fr, tx, kind).Resolved?
    ensures var fr', info := Check(e, f, fr, tx, kind).0, Subject(e, fr, tx, kind).info;
            && Balance(fr'.check, x) == Balance(fr.check, x)
                                        - (if Debtor(f, tx, info) == Some(x) then tx.cost else 0)
                                        + (if Creditor(f, tx) == Some(x) then tx.value else 0)
            && Nonce(fr'.check, x) == Nonce(fr.check, x) + (if x == info.from then 1 else 0)
            && fr'.cache == fr.cache[HashOf(tx) := info]
  {
    var info := Subject(e, fr, tx, kind).info;
    AcceptedFront(e, f, fr, tx, kind);
    ValidateNonces(f, fr.check, tx, info, x);
    PassedBalances(f, fr.check, tx, info, x);
  }

  lemma AcceptedFront(e: Crypto, f: Filter, fr: Front, tx: Tx, kind: CheckType)
    requires Check(e, f, fr, tx, kind).1 == Accepted
    ensures Subject(e, fr, tx, kind).Resolved?
    ensures var info := Subject(e, fr, tx, kind).info;
            && Validate(f, fr.check, tx, info).Passed?
            && Check(e, f, fr, tx, kind).0 ==
               Front(Validate(f, fr.check, tx, info).check, fr.cache[HashOf(tx) := info])
  {
    var info := Subject(e, fr, tx, kind).info;
    assert kind == Recheck ==> fr.cache[HashOf(tx) := info] == fr.cache;
  }

  // ---------------------------------------------------------------- what the mempool keeps

  /** A list holds, in order, what stands at the given places of a pool, and these are all places
      whose transaction was not delivered. */
  ghost predicate Remaining(pool: seq<Tx>, gone: set<Tx>, places: seq<nat>, kept: seq<Tx>) {
    && |places| == |kept|
    && (forall i :: 0 <= i < |places| ==> places[i] < |pool| && pool[places[i]] == kept[i])
    && (forall i, j :: 0 <= i < j < |places| ==> places[i] < places[j])
    && (forall n: nat :: n < |pool| && pool[n] !in gone ==> n in places)
    && (forall i :: 0 <= i < |kept| ==> kept[i] !in gone)
  }

  lemma RemainingKeeps(pool: seq<Tx>, gone: set<Tx>, places: seq<nat>, kept: seq<Tx>, tx: Tx)
    requires Remaining(pool, gone, places, kept) && tx !in gone
    ensures Remaining(pool + [tx], gone, places + [|pool|], kept + [tx])
  {
  }

  lemma RemainingDrops(pool: seq<Tx>, gone: set<Tx>, places: seq<nat>, kept: seq<Tx>, tx: Tx)
    requires Remaining(pool, gone, places, kept) && tx in gone
    ensures Remaining(pool + [tx], gone, places, kept)
  {
  }

  /** What remains of a pool after a block: exactly the transactions that were not delivered, in their
      order. The result names their places. */
  lemma {:induction false} WithoutExactly(pool: seq<Tx>, gone: set<Tx>) returns (places: seq<nat>)
    ensures Remaining(pool, gone, places, Without(pool, gone))
  {
    places := [];
    if pool != [] {
      var rest, tx := pool[..|pool| - 1], pool[|pool| - 1];
      places := WithoutExactly(rest, gone);
      assert rest + [tx] == pool;
      if tx in gone {
        assert Without(pool, gone) == Without(rest, gone);
        RemainingDrops(rest, gone, places, Without(rest, gone), tx);
      } else {
        RemainingKeeps(rest, gone, places, Without(rest, gone), tx);
        places := places + [|rest|];
      }
    }
  }

  /** The last transaction of a recheck. */
  lemma RecheckLast(e: Crypto, f: Filter, fr: Front, txs: seq<Tx>)
    requires txs != [] && Stocked(txs, {}, fr.cache)
    ensures var n := |txs| - 1;
            var before, after := RecheckAll(e, f, fr, txs[..n]), RecheckAll(e, f, fr, txs);
            && txs[n] !in before.1 && (forall tx :: tx in after.1 ==> tx in before.1 || tx == txs[n])
            && (forall tx :: tx in before.1 ==> tx in after.1)
            && (txs[n] in after.1 <==> NoneFails(Tests(f, before.0.check, txs[n], fr.cache[HashOf(txs[n])])))
  {
    var rest, tx := txs[..|txs| - 1], txs[|txs| - 1];
    assert Stocked(rest, {}, fr.cache);
    RecheckStocks(e, f, fr, rest);
    var r := RecheckAll(e, f, fr, rest);
    assert HashOf(tx).tx !in Elements(rest);
    assert tx !in r.1 by { assert tx !in Elements(r.1); }
    RecheckCached(e, f, r.0, tx);
    ValidateExactly(f, r.0.check, tx, fr.cache[HashOf(tx)]);
  }

  /** A recheck of a cached list keeps exactly those that pass their tests in the state that the ones
      before them leave. */
  lemma {:induction false} RecheckExactly(e: Crypto, f: Filter, fr: Front, txs: seq<Tx>, i: nat)
    requires Stocked(txs, {}, fr.cache) && i < |txs|
    ensures txs[i] in RecheckAll(e, f, fr, txs).1 <==>
            NoneFails(Tests(f, RecheckAll(e, f, fr, txs[..i]).0.check, txs[i], fr.cache[HashOf(txs[i])]))
  {
    RecheckLast(e, f, fr, txs);
    var rest := txs[..|txs| - 1];
    if i < |rest| {
      assert rest[..i] == txs[..i] && rest[i] == txs[i] && txs[|rest|] != txs[i];
      assert Stocked(rest, {}, fr.cache);
      RecheckExactly(e, f, fr, rest, i);
    }
  }
}
