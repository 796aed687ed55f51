/** Tendermint's side of the validator protocol: the update list returned by EndBlock is applied
    to the set that takes effect two heights later. */
module Tendermint {
  import opened Types

  /** A validator set: voting power by address. */
  type ValSet = map<TmAddress, int>

  /** One entry of an update list; power 0 asks for removal. */
  datatype Update = Update(pubKey: PubKey, power: int)

  datatype Vote = Vote(address: TmAddress, power: int, signed: bool)

  datatype Rejection = NegativePower | DuplicateAddress | RemovesStranger | EmptySet

  datatype Applied = Accepted(vals: ValSet) | Rejected(reason: Rejection)

  function Addr(u: Update): TmAddress {
    AddressOf(u.pubKey)
  }

  ghost function Addrs(ups: seq<Update>): set<TmAddress> {
    set i | 0 <= i < |ups| :: Addr(ups[i])
  }

  predicate NoRepeat(ups: seq<Update>) {
    forall i, j :: 0 <= i < j < |ups| ==> Addr(ups[i]) != Addr(ups[j])
  }

  function ApplyOne(vs: ValSet, u: Update): ValSet {
    if u.power == 0 then vs - {Addr(u)} else vs[Addr(u) := u.power]
  }

  function ApplyAll(vs: ValSet, ups: seq<Update>): ValSet
    decreases |ups|
  {
    if ups == [] then vs else ApplyAll(ApplyOne(vs, ups[0]), ups[1..])
  }

  /** The checks Tendermint makes before it applies a list, in order; an empty list is a no-op. */
  function Apply(vs: ValSet, ups: seq<Update>): Applied {
    if exists i :: 0 <= i < |ups| && ups[i].power < 0 then Rejected(NegativePower)
    else if !NoRepeat(ups) then Rejected(DuplicateAddress)
    else if exists i :: 0 <= i < |ups| && ups[i].power == 0 && Addr(ups[i]) !in vs then Rejected(RemovesStranger)
    else if ups != [] && ApplyAll(vs, ups) == map[] then Rejected(EmptySet)
    else Accepted(ApplyAll(vs, ups))
  }

  lemma AddrsTail(ups: seq<Update>)
    requires ups != []
    ensures Addrs(ups) == {Addr(ups[0])} + Addrs(ups[1..])
  {
    forall a | a in Addrs(ups) ensures a in {Addr(ups[0])} + Addrs(ups[1..]) {
      var i :| 0 <= i < |ups| && Addr(ups[i]) == a;
      if i > 0 { assert Addr(ups[1..][i - 1]) == a; }
    }
    forall a | a in Addrs(ups[1..]) ensures a in Addrs(ups) {
      var i :| 0 <= i < |ups| - 1 && Addr(ups[1..][i]) == a;
      assert Addr(ups[i + 1]) == a;
    }
  }

  /** Addresses a list does not name are left alone. */
  lemma {:induction false} ApplyElsewhere(vs: ValSet, ups: seq<Update>, a: TmAddress)
    requires a !in Addrs(ups)
    ensures a in ApplyAll(vs, ups) <==> a in vs
    ensures a in vs ==> ApplyAll(vs, ups)[a] == vs[a]
    decreases |ups|
  {
    if ups != [] {
      AddrsTail(ups);
      ApplyElsewhere(ApplyOne(vs, ups[0]), ups[1..], a);
    }
  }

  /** A list without repeats does to each address exactly what its own entry says. */
  lemma {:induction false} ApplyAt(vs: ValSet, ups: seq<Update>, i: nat)
    requires NoRepeat(ups) && i < |ups|
    ensures ups[i].power == 0 ==> Addr(ups[i]) !in ApplyAll(vs, ups)
    ensures ups[i].power != 0 ==> Addr(ups[i]) in ApplyAll(vs, ups) && ApplyAll(vs, ups)[Addr(ups[i])] == ups[i].power
    decreases |ups|
  {
    if i == 0 {
      assert Addr(ups[0]) !in Addrs(ups[1..]);
      ApplyElsewhere(ApplyOne(vs, ups[0]), ups[1..], Addr(ups[0]));
    } else {
      assert ups[1..][i - 1] == ups[i];
      ApplyAt(ApplyOne(vs, ups[0]), ups[1..], i - 1);
    }
  }

  /** Three consecutive sets: the one that signed the previous block, the one running the current
      height, and the one already fixed for the next height. Updates returned at height h act on
      the last of these and so take effect at h + 2. */
  datatype Pipeline = Pipeline(last: ValSet, current: ValSet, pending: ValSet) {
    function Advance(vals: ValSet): Pipeline {
      Pipeline(current, pending, vals)
    }
  }

  /** The votes handed to BeginBlock: each validator of the previous height, once, with its power. */
  ghost predicate VotesOf(votes: seq<Vote>, vs: ValSet) {
    && (forall i :: 0 <= i < |votes| ==> votes[i].address in vs && votes[i].power == vs[votes[i].address])
    && (forall i, j :: 0 <= i < j < |votes| ==> votes[i].address != votes[j].address)
    && (forall a :: a in vs ==> exists i :: 0 <= i < |votes| && votes[i].address == a)
  }
}
