/** Which genesis validators InitChain enrols, and as what. */
module Enrolment {
  import opened Types
  import opened Tendermint
  import opened Strategies
  import opened Ledger
  import opened Rewards
  import opened Application
  import opened GenesisProofs

  /** What enrolment depends on beside the list of validators. */
  datatype Terms = Terms(version: nat, balances: Balances, threshold: int, accounts: map<TmAddress, Account>)

  function SignerFor(k: Terms, v: Update): Address {
    if Addr(v) in k.accounts then k.accounts[Addr(v)].signer else 0
  }

  /** Validator i has an account and a stake of at least one slot, and no earlier validator that joined
      has its address or its signer. */
  ghost predicate Joins(k: Terms, vs: seq<Update>, i: nat)
    decreases i
  {
    && i < |vs| && Addr(vs[i]) in k.accounts
    && SlotsFor(k.version, k.balances, k.threshold, SignerFor(k, vs[i])) >= 1
    && forall j: nat :: j < i && Joins(k, vs, j) ==>
         Addr(vs[j]) != Addr(vs[i]) && SignerFor(k, vs[j]) != SignerFor(k, vs[i])
  }

  /** The item of a validator: its key and address, the slots its signer's balance buys, and the
      beneficiary its account names. */
  function ItemFor(k: Terms, v: Update): PosItem
    requires Addr(v) in k.accounts
  {
    var who := k.accounts[Addr(v)];
    PosItem(v.pubKey, Addr(v), SlotsFor(k.version, k.balances, k.threshold, who.signer), who.beneficiary, 1)
  }

  /** Table and record hold a validator with all that its account and its genesis entry say. */
  ghost predicate Placed(k: Terms, t: Table, m: Tracked, v: Update) {
    var a := Addr(v);
    && a in k.accounts
    && a in t.signerOf && t.signerOf[a] == k.accounts[a].signer
    && k.accounts[a].signer in t.items
    && t.items[k.accounts[a].signer] == ItemFor(k, v)
    && a in m && m[a] == Validator(v.pubKey, v.power, k.accounts[a].signer)
  }

  /** Some validator of the list joined with an address, or with a signer. */
  ghost predicate JoinedAddress(k: Terms, vs: seq<Update>, a: TmAddress) {
    exists i: nat :: Joins(k, vs, i) && Addr(vs[i]) == a
  }

  ghost predicate JoinedSigner(k: Terms, vs: seq<Update>, g: Address) {
    exists i: nat :: Joins(k, vs, i) && SignerFor(k, vs[i]) == g
  }

  /** Table and record hold exactly the validators that joined. */
  ghost predicate Holds(k: Terms, vs: seq<Update>, t: Table, m: Tracked) {
    && (forall i: nat :: Joins(k, vs, i) ==> Placed(k, t, m, vs[i]))
    && (forall g :: g in t.items ==> JoinedSigner(k, vs, g))
    && (forall a :: a in t.signerOf ==> JoinedAddress(k, vs, a))
    && (forall a :: a in m ==> JoinedAddress(k, vs, a))
    && t.unbonded == map[]
  }

  /** An account the loop has taken off its map could not join any more. */
  ghost predicate Barred(k: Terms, t: Table, a: TmAddress)
    requires a in k.accounts
  {
    var g := k.accounts[a].signer;
    SlotsFor(k.version, k.balances, k.threshold, g) < 1 || g in t.items || a in t.signerOf
  }

  ghost predicate AccountsLeft(k: Terms, t: Table, accounts: map<TmAddress, Account>) {
    && (forall a :: a in accounts ==> a in k.accounts && accounts[a] == k.accounts[a])
    && (forall a :: a in k.accounts && a !in accounts ==> Barred(k, t, a))
  }

  ghost predicate Enrolling(k: Terms, vs: seq<Update>, g: Genesis) {
    && g.next.threshold == k.threshold && (k.version >= 4 || k.threshold != 0)
    && Holds(k, vs, g.next, g.validators)
    && AccountsLeft(k, g.next, g.accounts)
    && (g.accepted == [] <==> g.validators == map[])
  }

  /** Whether a validator joins is settled by those before it. */
  lemma {:induction false} JoinsPrefix(k: Terms, rest: seq<Update>, v: Update, i: nat)
    requires i < |rest|
    ensures Joins(k, rest, i) <==> Joins(k, rest + [v], i)
    decreases i
  {
    forall j: nat | j < i ensures Joins(k, rest, j) <==> Joins(k, rest + [v], j) {
      JoinsPrefix(k, rest, v, j);
    }
  }

  /** The next validator joins exactly if the table takes it. */
  lemma NextJoins(k: Terms, rest: seq<Update>, v: Update, t: Table, m: Tracked)
    requires Holds(k, rest, t, m)
    ensures Joins(k, rest + [v], |rest|) <==>
            && Addr(v) in k.accounts && SlotsFor(k.version, k.balances, k.threshold, SignerFor(k, v)) >= 1
            && Addr(v) !in t.signerOf && SignerFor(k, v) !in t.items
  {
    var vs := rest + [v];
    forall j: nat | j < |rest| ensures Joins(k, rest, j) <==> Joins(k, vs, j) {
      JoinsPrefix(k, rest, v, j);
    }
    if Addr(v) in t.signerOf {
      var i: nat :| Joins(k, rest, i) && Addr(rest[i]) == Addr(v);
      assert Joins(k, vs, i) && vs[i] == rest[i];
    }
    if SignerFor(k, v) in t.items {
      var i: nat :| Joins(k, rest, i) && SignerFor(k, rest[i]) == SignerFor(k, v);
      assert Joins(k, vs, i) && vs[i] == rest[i];
    }
    if Addr(v) !in t.signerOf && SignerFor(k, v) !in t.items {
      forall j: nat | j < |rest| && Joins(k, vs, j)
        ensures Addr(vs[j]) != Addr(v) && SignerFor(k, vs[j]) != SignerFor(k, v)
      {
        assert Placed(k, t, m, rest[j]);
      }
    }
  }

  lemma HoldsOn(k: Terms, rest: seq<Update>, v: Update, t: Table, m: Tracked)
    requires Holds(k, rest, t, m) && !Joins(k, rest + [v], |rest|)
    ensures Holds(k, rest + [v], t, m)
  {
    forall i: nat ensures Joins(k, rest + [v], i) <==> Joins(k, rest, i) {
      if i < |rest| {
        JoinsPrefix(k, rest, v, i);
      }
    }
    KeptJoined(k, rest, v, t, m);
  }

  lemma KeptJoined(k: Terms, rest: seq<Update>, v: Update, t: Table, m: Tracked)
    requires Holds(k, rest, t, m)
    ensures forall g :: g in t.items ==> JoinedSigner(k, rest + [v], g)
    ensures forall a :: a in t.signerOf || a in m ==> JoinedAddress(k, rest + [v], a)
  {
    forall g | g in t.items ensures JoinedSigner(k, rest + [v], g) {
      var i: nat :| Joins(k, rest, i) && SignerFor(k, rest[i]) == g;
      JoinsPrefix(k, rest, v, i);
      assert (rest + [v])[i] == rest[i];
    }
    forall a | a in t.signerOf || a in m ensures JoinedAddress(k, rest + [v], a) {
      var i: nat :| Joins(k, rest, i) && Addr(rest[i]) == a;
      JoinsPrefix(k, rest, v, i);
      assert (rest + [v])[i] == rest[i];
    }
  }

  /** Table and record with one more validator. */
  function TableWith(k: Terms, t: Table, v: Update): Table
    requires Addr(v) in k.accounts
  {
    t.(items := t.items[SignerFor(k, v) := ItemFor(k, v)], signerOf := t.signerOf[Addr(v) := SignerFor(k, v)])
  }

  function RecordWith(k: Terms, m: Tracked, v: Update): Tracked {
    m[Addr(v) := Validator(v.pubKey, v.power, SignerFor(k, v))]
  }

  lemma PlacedWith(k: Terms, t: Table, m: Tracked, v: Update)
    requires Addr(v) in k.accounts
    ensures Placed(k, TableWith(k, t, v), RecordWith(k, m, v), v)
  {
  }

  lemma StillPlaced(k: Terms, t: Table, m: Tracked, u: Update, v: Update)
    requires Addr(v) in k.accounts && Placed(k, t, m, u)
    requires Addr(v) !in t.signerOf && SignerFor(k, v) !in t.items
    ensures Placed(k, TableWith(k, t, v), RecordWith(k, m, v), u)
  {
  }

  /** Placing one more validator disturbs nobody. */
  lemma HoldsMore(k: Terms, rest: seq<Update>, v: Update, t: Table, m: Tracked)
    requires Holds(k, rest, t, m) && Joins(k, rest + [v], |rest|)
    requires Addr(v) in k.accounts && Addr(v) !in t.signerOf && SignerFor(k, v) !in t.items
    ensures Holds(k, rest + [v], TableWith(k, t, v), RecordWith(k, m, v))
  {
    var vs := rest + [v];
    KeptJoined(k, rest, v, t, m);
    assert vs[|rest|] == v;
    assert JoinedSigner(k, vs, SignerFor(k, v)) && JoinedAddress(k, vs, Addr(v));
    forall i: nat | Joins(k, vs, i) ensures Placed(k, TableWith(k, t, v), RecordWith(k, m, v), vs[i]) {
      if i < |rest| {
        JoinsPrefix(k, rest, v, i);
        StillPlaced(k, t, m, rest[i], v);
      } else {
        PlacedWith(k, t, m, v);
      }
    }
  }

  /** What one turn of the loop does. */
  lemma EnrolExactly(k: Terms, g: Genesis, v: Update)
    requires g.next.threshold == k.threshold && (k.version >= 4 || k.threshold != 0)
    requires g.next.unbonded == map[] && AccountsLeft(k, g.next, g.accounts)
    ensures var taken := && Addr(v) in k.accounts && Addr(v) !in g.next.signerOf && SignerFor(k, v) !in g.next.items
                         && SlotsFor(k.version, k.balances, k.threshold, SignerFor(k, v)) >= 1;
            Enrol(k.version, k.balances, g, v) ==
            if taken then Genesis(TableWith(k, g.next, v), g.accounts, RecordWith(k, g.validators, v), [v])
            else g.(accounts := g.accounts - {Addr(v)})
  {
    if Addr(v) !in g.accounts {
      assert g.accounts - {Addr(v)} == g.accounts;
    }
  }

  lemma AccountsKept(k: Terms, g: Genesis, v: Update)
    requires AccountsLeft(k, g.next, g.accounts)
    ensures Addr(v) in k.accounts ==> AccountsLeft(k, TableWith(k, g.next, v), g.accounts)
    ensures Addr(v) !in k.accounts || Barred(k, g.next, Addr(v)) ==>
              AccountsLeft(k, g.next, g.accounts - {Addr(v)})
  {
  }

  lemma EnrolsNext(k: Terms, rest: seq<Update>, v: Update, g: Genesis)
    requires Enrolling(k, rest, g)
    ensures Enrolling(k, rest + [v], Enrol(k.version, k.balances, g, v))
  {
    NextJoins(k, rest, v, g.next, g.validators);
    EnrolExactly(k, g, v);
    AccountsKept(k, g, v);
    if Joins(k, rest + [v], |rest|) {
      HoldsMore(k, rest, v, g.next, g.validators);
      assert Addr(v) in RecordWith(k, g.validators, v);
    } else {
      HoldsOn(k, rest, v, g.next, g.validators);
    }
  }

  lemma NobodyYet(k: Terms)
    ensures Holds(k, [], EMPTY_TABLE.(threshold := k.threshold), map[])
  {
  }

  lemma {:induction false} EnrolsAll(k: Terms, vs: seq<Update>, g: Genesis)
    requires k.version >= 4 || k.threshold != 0
    requires g == Genesis(EMPTY_TABLE.(threshold := k.threshold), k.accounts, map[], [])
    ensures Enrolling(k, vs, EnrolAll(k.version, k.balances, g, vs))
  {
    if vs == [] {
      NobodyYet(k);
    } else {
      EnrolsAll(k, vs[..|vs| - 1], g);
      EnrolsLast(k, vs, EnrolAll(k.version, k.balances, g, vs[..|vs| - 1]));
    }
  }

  lemma EnrolsLast(k: Terms, vs: seq<Update>, g: Genesis)
    requires vs != [] && Enrolling(k, vs[..|vs| - 1], g)
    ensures Enrolling(k, vs, Enrol(k.version, k.balances, g, vs[|vs| - 1]))
  {
    assert vs[..|vs| - 1] + [vs[|vs| - 1]] == vs;
    EnrolsNext(k, vs[..|vs| - 1], vs[|vs| - 1], g);
  }

  lemma JoinedIsTracked(k: Terms, vs: seq<Update>, t: Table, m: Tracked, a: TmAddress)
    requires Holds(k, vs, t, m)
    ensures a in m <==> JoinedAddress(k, vs, a)
  {
    if JoinedAddress(k, vs, a) {
      var i: nat :| Joins(k, vs, i) && Addr(vs[i]) == a;
      assert Placed(k, t, m, vs[i]);
    }
  }

  lemma SomeoneJoined(k: Terms, vs: seq<Update>, g: Genesis)
    requires Enrolling(k, vs, g)
    ensures g.accepted != [] <==> exists a :: JoinedAddress(k, vs, a)
  {
    forall a ensures a in g.validators <==> JoinedAddress(k, vs, a) {
      JoinedIsTracked(k, vs, g.next, g.validators, a);
    }
    assert g.validators != map[] <==> exists a :: a in g.validators;
  }

  /** The terms InitChain works on. */
  function TermsOf(cfg: Config, n: Node, accounts: map<TmAddress, Account>): Terms
    requires cfg.thresholdUnit >= 1
  {
    Terms(n.strategy.blockVersion, n.balances, n.strategy.totalBalance / cfg.thresholdUnit, accounts)
  }

  /** InitChain on a fresh node succeeds exactly if the genesis balance does not vanish in 64 bits, a
      slot has a price where one is needed, and some validator joins. Then the snapshot, the table
      and the record hold exactly the validators that joined, each under the signer of its account,
      with its own key, the slots its signer's balance buys, the beneficiary of its account and
      height 1, and recorded with its genesis power. */
  lemma InitChainExactly(cfg: Config, n: Node, accounts: map<TmAddress, Account>, vs: seq<Update>)
    requires cfg.thresholdUnit >= 1
    requires n.strategy.next == EMPTY_TABLE && n.strategy.validators == map[]
    ensures var k := TermsOf(cfg, n, accounts);
            Founded(cfg, n, accounts, vs).Some? <==>
            && Int64(n.strategy.totalBalance) != 0
            && (k.threshold != 0 || k.version >= 4)
            && exists a :: JoinedAddress(k, vs, a)
    ensures Founded(cfg, n, accounts, vs).Some? ==>
              var s := Founded(cfg, n, accounts, vs).value;
              && s.curr == s.next && Holds(TermsOf(cfg, n, accounts), vs, s.next, s.validators)
              && forall a :: a in s.validators <==> JoinedAddress(TermsOf(cfg, n, accounts), vs, a)
  {
    var k := TermsOf(cfg, n, accounts);
    if k.threshold != 0 || k.version >= 4 {
      var g := Genesis(EMPTY_TABLE.(threshold := k.threshold), accounts, map[], []);
      EnrolsAll(k, vs, g);
      var g' := EnrolAll(k.version, k.balances, g, vs);
      SomeoneJoined(k, vs, g');
      forall a ensures a in g'.validators <==> JoinedAddress(k, vs, a) {
        JoinedIsTracked(k, vs, g'.next, g'.validators, a);
      }
    }
  }
}
