/** Addresses, keys and the proof-of-stake table shared by every part of the node. */
module Types {

  /** An Ethereum account. */
  type Address = nat

  datatype PubKey = PubKey(id: nat)

  /** A Tendermint address is the hash of a public key. The hash is taken to be free of
      collisions, so the address determines the key. */
  datatype TmAddress = AddressOf(key: PubKey)

  datatype Option<+T> = None | Some(value: T)

  /** One staked validator. A slashed item has zero slots. */
  datatype PosItem = PosItem(pubKey: PubKey, tmAddress: TmAddress, slots: int, beneficiary: Address, height: int)

  /** The table `txfilter.PosTable`: bonded items, items waiting to leave, and the index from
      Tendermint address to signer over both. */
  datatype Table = Table(
    items: map<Address, PosItem>,
    unbonded: map<Address, PosItem>,
    signerOf: map<TmAddress, Address>,
    threshold: int)

  const EMPTY_TABLE := Table(map[], map[], map[], 0)

  ghost predicate Indexed(m: map<Address, PosItem>, signerOf: map<TmAddress, Address>) {
    forall s :: s in m ==>
      && m[s].tmAddress == AddressOf(m[s].pubKey)
      && m[s].tmAddress in signerOf
      && signerOf[m[s].tmAddress] == s
  }

  /** The invariant every caller of the table relies on. */
  ghost predicate TableOk(t: Table) {
    && t.items.Keys !! t.unbonded.Keys
    && Indexed(t.items, t.signerOf)
    && Indexed(t.unbonded, t.signerOf)
    && (forall a :: a in t.signerOf ==>
         || (t.signerOf[a] in t.items && t.items[t.signerOf[a]].tmAddress == a)
         || (t.signerOf[a] in t.unbonded && t.unbonded[t.signerOf[a]].tmAddress == a))
    && (forall s :: s in t.items ==> t.items[s].slots >= 1)
  }

  /** The Tendermint addresses that resolve to some item of the table. */
  ghost function Known(t: Table): set<TmAddress> {
    t.signerOf.Keys
  }

  /** The Tendermint addresses of bonded items. */
  ghost function Bonded(t: Table): set<TmAddress> {
    set s | s in t.items :: t.items[s].tmAddress
  }

  /** What transactions and evidence may do to the table between two epoch boundaries: an
      address that resolves keeps resolving to the same signer. */
  ghost predicate Evolves(t: Table, t': Table) {
    && TableOk(t')
    && forall a :: a in t.signerOf ==> a in t'.signerOf && t'.signerOf[a] == t.signerOf[a]
  }

  /** Bonds a new signer. It is refused for a signer or an address already in the table and for a
      stake below one slot. */
  function InsertPosItem(t: Table, signer: Address, item: PosItem): Option<Table> {
    if signer in t.items || signer in t.unbonded || item.tmAddress in t.signerOf || item.slots < 1 then None
    else Some(t.(items := t.items[signer := item], signerOf := t.signerOf[item.tmAddress := signer]))
  }

  /** Moves a bonded signer to the unbonded items; a slashed one loses its slots. */
  function RemovePosItem(t: Table, signer: Address, height: int, slashed: bool): Table
    requires signer in t.items
  {
    var item := t.items[signer];
    t.(items := t.items - {signer},
    unbonded := t.unbonded[signer := item.(slots := if slashed then 0 else item.slots, height := height)])
  }

  /** Forgets unbonded signers, and their addresses. */
  function DropUnbonded(t: Table, gone: set<Address>): Table {
    t.(unbonded := t.unbonded - gone,
    signerOf := map a | a in t.signerOf && (t.signerOf[a] in gone ==> t.signerOf[a] !in t.unbonded) :: t.signerOf[a])
  }

  lemma InsertEvolves(t: Table, signer: Address, item: PosItem)
    requires TableOk(t) && item.tmAddress == AddressOf(item.pubKey)
    ensures var r := InsertPosItem(t, signer, item);
            && (r.Some? ==> Evolves(t, r.value) && Bonded(r.value) == Bonded(t) + {item.tmAddress})
            && (r.None? <==> signer in t.items || signer in t.unbonded || item.tmAddress in Known(t) || item.slots < 1)
  {
    var r := InsertPosItem(t, signer, item);
    if r.Some? {
      var t' := r.value;
      assert forall s :: s in t.items ==> t'.items[s] == t.items[s];
      forall a | a in Bonded(t) ensures a in Bonded(t') {
        var s :| s in t.items && t.items[s].tmAddress == a;
        assert t'.items[s].tmAddress == a;
      }
      assert t'.items[signer].tmAddress == item.tmAddress;
    }
  }

  lemma RemoveEvolves(t: Table, signer: Address, height: int, slashed: bool)
    requires TableOk(t) && signer in t.items
    ensures Evolves(t, RemovePosItem(t, signer, height, slashed))
    ensures Bonded(RemovePosItem(t, signer, height, slashed)) == Bonded(t) - {t.items[signer].tmAddress}
  {
    var t' := RemovePosItem(t, signer, height, slashed);
    forall a | a in Bonded(t) && a != t.items[signer].tmAddress ensures a in Bonded(t') {
      var s :| s in t.items && t.items[s].tmAddress == a;
      assert s in t'.items && t'.items[s].tmAddress == a;
    }
  }

  /** Dropping expired signers keeps the invariant and never touches a bonded address. */
  lemma DropKeepsBonded(t: Table, gone: set<Address>)
    requires TableOk(t)
    ensures TableOk(DropUnbonded(t, gone))
    ensures DropUnbonded(t, gone).items == t.items
    ensures Bonded(t) <= Known(DropUnbonded(t, gone)) <= Known(t)
    ensures forall a :: a in DropUnbonded(t, gone).signerOf ==> DropUnbonded(t, gone).signerOf[a] == t.signerOf[a]
  {
  }

  /** Exactly the unbonded signers among the given ones are forgotten, and with them their addresses. */
  lemma DropExactly(t: Table, gone: set<Address>)
    requires TableOk(t)
    ensures var d := DropUnbonded(t, gone);
            && d.items == t.items && d.threshold == t.threshold
            && (forall g :: g in d.unbonded <==> g in t.unbonded && g !in gone)
            && (forall g :: g in d.unbonded ==> d.unbonded[g] == t.unbonded[g])
            && (forall a :: a in d.signerOf <==>
                  a in t.signerOf && !(t.signerOf[a] in t.unbonded && t.signerOf[a] in gone))
            && (forall a :: a in d.signerOf ==> d.signerOf[a] == t.signerOf[a])
  {
  }

  lemma BondedKnown(t: Table)
    requires TableOk(t)
    ensures Bonded(t) <= Known(t)
  {
  }

  lemma EvolvesTransitive(t0: Table, t1: Table, t2: Table)
    requires Evolves(t0, t1) && Evolves(t1, t2)
    ensures Evolves(t0, t2)
  {
  }
}
