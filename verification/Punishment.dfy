/** Slashing at BeginBlock: the balance of a faulty validator is taken and its stake unbonded. */
module Punishments {
  import opened Types
  import opened Ledger
  import opened Strategies
  import opened Rewards

  datatype AmountStrategy = Fixed(amount: int) | Percent100

  datatype SubBalanceStrategy = Burn | Transfer(transferTo: Address)

  datatype Punishment = Punishment(amount: AmountStrategy, sub: SubBalanceStrategy)

  /** What slashing acts on. */
  datatype Stake = Stake(next: Table, changed: bool, balances: Balances)

  function Amount(p: Punishment, b: Balances, byzantine: Address): int {
    match p.amount
    case Fixed(n) => n
    case Percent100 => Get(b, byzantine)
  }

  /** The amount actually taken: nothing for a non-positive amount, at most the balance. */
  function Taken(b: Balances, a: Address, amount: int): int {
    if amount <= 0 then 0 else if Get(b, a) < amount then Get(b, a) else amount
  }

  /** Takes an amount from an account and, under Transfer, hands it to `transferTo`. */
  function Punish(p: Punishment, b: Balances, byzantine: Address): Balances {
    var amount := Amount(p, b, byzantine);
    var taken := Taken(b, byzantine, amount);
    var b' := if amount <= 0 then b else b[byzantine := Get(b, byzantine) - taken];
    if p.sub.Transfer? && taken > 0 then Credit(b', p.sub.transferTo, taken) else b'
  }

  /** One piece of evidence; None is the panic on a table that refuses the removal. */
  function PunishOne(cfg: Config, p: Punishment, k: Stake, a: TmAddress, h: int): Option<Stake> {
    if a !in k.next.signerOf then Some(k)
    else
      var signer := k.next.signerOf[a];
      var b := Punish(p, k.balances, signer);
      if signer in k.next.items then
        if cfg.removable(k.next, signer, h) then Some(Stake(RemovePosItem(k.next, signer, h, true), true, b))
        else if signer in k.next.unbonded then Some(k.(balances := b))
        else None
      else if signer in k.next.unbonded then Some(k.(balances := b))
      else None
  }

  function PunishAll(cfg: Config, p: Punishment, k: Stake, evidence: seq<TmAddress>, h: int): Option<Stake> {
    if evidence == [] then Some(k)
    else
      match PunishAll(cfg, p, k, evidence[..|evidence| - 1], h)
      case None => None
      case Some(k') => PunishOne(cfg, p, k', evidence[|evidence| - 1], h)
  }

  /** Takes from an account in place and reports how much was taken. */
  method SubBalance(work: WorkState, a: Address, amount: int) returns (taken: int)
    modifies work`balances
    ensures taken == old(Taken(work.balances, a, amount))
    ensures work.balances == if amount <= 0 then old(work.balances)
                             else old(work.balances)[a := old(Get(work.balances, a)) - taken]
  {
    if amount <= 0 {
      return 0;
    }
    taken := amount;
    if Get(work.balances, a) < amount {
      taken := Get(work.balances, a);
    }
    work.balances := work.balances[a := Get(work.balances, a) - taken];
  }

  method PunishSigner(work: WorkState, p: Punishment, byzantine: Address)
    modifies work`balances
    ensures work.balances == old(Punish(p, work.balances, byzantine))
  {
    var amount := Amount(p, work.balances, byzantine);
    var taken := SubBalance(work, byzantine, amount);
    if p.sub.Transfer? && taken > 0 {
      work.balances := Credit(work.balances, p.sub.transferTo, taken);
    }
  }

  /** Punishes the validators named by the evidence. The coinbase is only ever assigned to a copy
      of the strategy, so the recipient stays the configured one. */
  method DoPunish(cfg: Config, p: Punishment, strategy: Strategy, work: WorkState, evidence: seq<TmAddress>,
                  coinbase: Address, h: int)
    returns (ok: bool)
    modifies strategy`next, strategy`changed, work`balances
    ensures match old(PunishAll(cfg, p, Stake(strategy.next, strategy.changed, work.balances), evidence, h))
            case Some(k) => ok && Stake(strategy.next, strategy.changed, work.balances) == k
            case None => !ok
  {
    ghost var start := Stake(strategy.next, strategy.changed, work.balances);
    ok := true;
    for i := 0 to |evidence|
      invariant ok
      invariant PunishAll(cfg, p, start, evidence[..i], h) ==
                Some(Stake(strategy.next, strategy.changed, work.balances))
    {
      assert evidence[..i + 1][..i] == evidence[..i];
      var a := evidence[i];
      if a in strategy.next.signerOf {
        var signer := strategy.next.signerOf[a];
        PunishSigner(work, p, signer);
        if signer in strategy.next.items && cfg.removable(strategy.next, signer, h) {
          strategy.next := RemovePosItem(strategy.next, signer, h, true);
          strategy.changed := true;
        } else if signer !in strategy.next.unbonded {
          ok := false;
          PanicStays(cfg, p, start, evidence, i, h);
          return;
        }
      }
    }
    assert evidence[..|evidence|] == evidence;
  }

  lemma {:induction false} PanicStays(cfg: Config, p: Punishment, k: Stake, evidence: seq<TmAddress>, i: nat, h: int)
    requires i < |evidence| && PunishAll(cfg, p, k, evidence[..i + 1], h).None?
    ensures PunishAll(cfg, p, k, evidence, h).None?
  {
    if i + 1 < |evidence| {
      assert evidence[..|evidence| - 1][..i + 1] == evidence[..i + 1];
      PanicStays(cfg, p, k, evidence[..|evidence| - 1], i, h);
    } else {
      assert evidence[..i + 1] == evidence;
    }
  }

  // ---------------------------------------------------------------- what slashing guarantees

  /** The signers an evidence list names in a table. */
  ghost function Found(t: Table, evidence: seq<TmAddress>): set<Address> {
    set a | a in evidence && a in t.signerOf :: t.signerOf[a]
  }

  /** The table after slashing a set of signers: bonded ones are moved and lose their slots. */
  ghost function Slashed(t: Table, found: set<Address>, h: int): Table {
    t.(items := t.items - found,
    unbonded := t.unbonded + map s | s in t.items && s in found :: t.items[s].(slots := 0, height := h))
  }

  /** The table refuses to remove the bonded signer that evidence i names, when its turn comes. */
  ghost predicate Refused(cfg: Config, t: Table, evidence: seq<TmAddress>, h: int, i: nat) {
    && i < |evidence|
    && evidence[i] in t.signerOf
    && var s, before := t.signerOf[evidence[i]], Found(t, evidence[..i]);
       s in t.items && s !in before && !cfg.removable(Slashed(t, before, h), s, h)
  }

  lemma FoundAlso(t: Table, evidence: seq<TmAddress>, a: TmAddress)
    ensures a in t.signerOf ==> Found(t, evidence + [a]) == Found(t, evidence) + {t.signerOf[a]}
    ensures a !in t.signerOf ==> Found(t, evidence + [a]) == Found(t, evidence)
  {
    var all := evidence + [a];
    assert forall x :: x in all <==> x in evidence || x == a;
  }

  lemma SlashMoves(t: Table, found: set<Address>, s: Address, h: int)
    requires s in t.items && s !in found
    ensures RemovePosItem(Slashed(t, found, h), s, h, true) == Slashed(t, found + {s}, h)
  {
    var mid, want := Slashed(t, found, h), Slashed(t, found + {s}, h);
    var got := RemovePosItem(mid, s, h, true);
    assert got.items == want.items;
    assert got.unbonded == want.unbonded;
  }

  lemma SlashAgain(t: Table, found: set<Address>, s: Address, h: int)
    requires s !in t.items || s in found
    ensures Slashed(t, found, h) == Slashed(t, found + {s}, h)
  {
    var got, want := Slashed(t, found, h), Slashed(t, found + {s}, h);
    assert got.items == want.items;
    assert got.unbonded == want.unbonded;
  }

  /** Whatever the evidence repeats, and whomever it names, the table after slashing is the one
      with exactly the named bonded signers moved out; the index does not change. */
  lemma {:induction false} SlashedTable(cfg: Config, p: Punishment, k: Stake, evidence: seq<TmAddress>, h: int)
    requires TableOk(k.next) && PunishAll(cfg, p, k, evidence, h).Some?
    ensures var k' := PunishAll(cfg, p, k, evidence, h).value;
            && k'.next == Slashed(k.next, Found(k.next, evidence), h)
            && Evolves(k.next, k'.next)
  {
    if evidence == [] {
      assert Found(k.next, []) == {};
      assert Slashed(k.next, {}, h) == k.next;
    } else {
      var rest, a := evidence[..|evidence| - 1], evidence[|evidence| - 1];
      SlashedTable(cfg, p, k, rest, h);
      assert evidence == rest + [a];
      FoundAlso(k.next, rest, a);
      var mid := PunishAll(cfg, p, k, rest, h).value;
      SlashOne(cfg, p, k.next, Found(k.next, rest), mid, a, h);
    }
  }

  lemma SlashOne(cfg: Config, p: Punishment, t: Table, found: set<Address>, mid: Stake, a: TmAddress, h: int)
    requires Evolves(t, mid.next) && mid.next == Slashed(t, found, h)
    requires PunishOne(cfg, p, mid, a, h).Some?
    ensures var k := PunishOne(cfg, p, mid, a, h).value;
            && k.next == (if a in t.signerOf then Slashed(t, found + {t.signerOf[a]}, h) else Slashed(t, found, h))
            && Evolves(t, k.next)
  {
    if a in t.signerOf {
      var s := t.signerOf[a];
      if s in mid.next.items {
        SlashMoves(t, found, s, h);
        RemoveEvolves(mid.next, s, h, true);
        EvolvesTransitive(t, mid.next, RemovePosItem(mid.next, s, h, true));
      } else {
        SlashAgain(t, found, s, h);
      }
    }
  }

  /** The dirty flag is raised exactly when the table changed. */
  lemma {:induction false} SlashingRaisesFlag(cfg: Config, p: Punishment, k: Stake, evidence: seq<TmAddress>, h: int)
    requires PunishAll(cfg, p, k, evidence, h).Some?
    ensures var k' := PunishAll(cfg, p, k, evidence, h).value;
            && k'.next.items.Keys <= k.next.items.Keys
            && (k'.changed <==> k.changed || k'.next.items.Keys != k.next.items.Keys)
            && (k'.next.items.Keys == k.next.items.Keys ==> k'.next == k.next)
  {
    if evidence != [] {
      SlashingRaisesFlag(cfg, p, k, evidence[..|evidence| - 1], h);
    }
  }

  lemma RefusalIsPanic(cfg: Config, p: Punishment, k: Stake, evidence: seq<TmAddress>, h: int)
    requires TableOk(k.next) && evidence != []
    requires PunishAll(cfg, p, k, evidence[..|evidence| - 1], h).Some?
    ensures PunishAll(cfg, p, k, evidence, h).None? <==> Refused(cfg, k.next, evidence, h, |evidence| - 1)
  {
    SlashedTable(cfg, p, k, evidence[..|evidence| - 1], h);
  }

  /** Slashing brings the node down exactly when the table refuses to remove a bonded signer:
      repeated, unknown and already unbonded validators are harmless. */
  lemma {:induction false} PunishPanicsExactly(cfg: Config, p: Punishment, k: Stake, evidence: seq<TmAddress>, h: int)
    requires TableOk(k.next)
    ensures PunishAll(cfg, p, k, evidence, h).None? <==> exists i :: Refused(cfg, k.next, evidence, h, i)
  {
    if evidence != [] {
      var n := |evidence| - 1;
      var rest := evidence[..n];
      PunishPanicsExactly(cfg, p, k, rest, h);
      forall i: nat | i < n
        ensures Refused(cfg, k.next, rest, h, i) <==> Refused(cfg, k.next, evidence, h, i)
      {
        assert rest[..i] == evidence[..i];
      }
      if PunishAll(cfg, p, k, rest, h).Some? {
        RefusalIsPanic(cfg, p, k, evidence, h);
      } else {
        var i :| Refused(cfg, k.next, rest, h, i);
        assert Refused(cfg, k.next, evidence, h, i);
      }
    }
  }

  /** What one punishment takes: everything, or a fixed amount as far as the balance goes. */
  function Penalty(p: Punishment, balance: int): int {
    match p.amount
    case Percent100 => balance
    case Fixed(n) => if n <= 0 then 0 else if n <= balance then n else balance
  }

  /** Every account after one punishment: the punished one loses the penalty, and under Transfer the
      recipient gains it. */
  lemma PunishExactly(p: Punishment, b: Balances, byzantine: Address, x: Address)
    requires NonNegative(b)
    ensures var penalty := Penalty(p, Get(b, byzantine));
            && 0 <= penalty <= Get(b, byzantine)
            && Get(Punish(p, b, byzantine), x) ==
               Get(b, x) - (if x == byzantine then penalty else 0) + (if p.sub == Transfer(x) then penalty else 0)
  {
  }

  /** One piece of evidence against an address in the table punishes its signer, bonded or not; a
      bonded one loses its place as well, and the flag goes up. Evidence against any other address
      does nothing. */
  lemma EvidenceExactly(cfg: Config, p: Punishment, k: Stake, a: TmAddress, h: int)
    requires TableOk(k.next) && PunishOne(cfg, p, k, a, h).Some?
    ensures var k' := PunishOne(cfg, p, k, a, h).value;
            && (a !in Known(k.next) ==> k' == k)
            && (a in Known(k.next) ==>
                  var g := k.next.signerOf[a];
                  && k'.balances == Punish(p, k.balances, g)
                  && (g !in k.next.items ==> k'.next == k.next && k'.changed == k.changed)
                  && (g in k.next.items ==>
                        && k'.changed && g !in k'.next.items && g in k'.next.unbonded
                        && k'.next.unbonded[g] == k.next.items[g].(slots := 0, height := h)))
  {
  }

  /** Transfer moves money and never creates or destroys it, a transfer to oneself included. */
  lemma PunishConserves(p: Punishment, b: Balances, byzantine: Address)
    requires NonNegative(b)
    ensures NonNegative(Punish(p, b, byzantine))
    ensures p.sub.Transfer? ==> Total(Punish(p, b, byzantine)) == Total(b)
    ensures p.sub.Burn? ==> Total(Punish(p, b, byzantine)) == Total(b) - Taken(b, byzantine, Amount(p, b, byzantine))
  {
    var taken := Taken(b, byzantine, Amount(p, b, byzantine));
    var b' := if Amount(p, b, byzantine) <= 0 then b else b[byzantine := Get(b, byzantine) - taken];
    TotalSet(b, byzantine, Get(b, byzantine) - taken);
    if p.sub.Transfer? {
      TotalSet(b', p.sub.transferTo, Get(b', p.sub.transferTo) + taken);
    }
  }

  lemma {:induction false} SlashingConserves(cfg: Config, p: Punishment, k: Stake, evidence: seq<TmAddress>, h: int)
    requires NonNegative(k.balances) && PunishAll(cfg, p, k, evidence, h).Some?
    ensures NonNegative(PunishAll(cfg, p, k, evidence, h).value.balances)
    ensures p.sub.Transfer? ==> Total(PunishAll(cfg, p, k, evidence, h).value.balances) == Total(k.balances)
    ensures p.sub.Burn? ==> Total(PunishAll(cfg, p, k, evidence, h).value.balances) <= Total(k.balances)
  {
    if evidence != [] {
      var rest, a := evidence[..|evidence| - 1], evidence[|evidence| - 1];
      SlashingConserves(cfg, p, k, rest, h);
      var mid := PunishAll(cfg, p, k, rest, h).value;
      if a in mid.next.signerOf {
        PunishConserves(p, mid.balances, mid.next.signerOf[a]);
      }
    }
  }

  /** What full slashing does to every account: each named signer except the recipient ends with
      nothing, the recipient gains exactly what they had, and nobody else is touched. */
  ghost predicate Confiscated(b: Balances, b': Balances, found: set<Address>, to: Address) {
    && (forall x :: x in found && x != to ==> Get(b', x) == 0)
    && Get(b', to) == Get(b, to) + Sum(b, found - {to})
    && (forall x: Address :: x !in found && x != to ==> Get(b', x) == Get(b, x))
  }

  lemma ConfiscateAlso(b: Balances, mid: Balances, found: set<Address>, to: Address, s: Address)
    requires NonNegative(b) && NonNegative(mid) && Confiscated(b, mid, found, to)
    ensures Confiscated(b, Punish(Punishment(Percent100, Transfer(to)), mid, s), found + {s}, to)
  {
    if s == to {
      assert found + {s} - {to} == found - {to};
    } else if s in found {
      assert found + {s} == found;
    } else {
      var all := found + {s} - {to};
      SumSplit(b, all, s);
      assert all - {s} == found - {to};
    }
  }

  lemma {:induction false} FullSlashingConfiscates(cfg: Config, to: Address, k: Stake, evidence: seq<TmAddress>, h: int)
    requires TableOk(k.next) && NonNegative(k.balances)
    requires PunishAll(cfg, Punishment(Percent100, Transfer(to)), k, evidence, h).Some?
    ensures Confiscated(k.balances, PunishAll(cfg, Punishment(Percent100, Transfer(to)), k, evidence, h).value.balances,
                        Found(k.next, evidence), to)
  {
    var p := Punishment(Percent100, Transfer(to));
    if evidence == [] {
      assert Found(k.next, []) == {};
    } else {
      var rest, a := evidence[..|evidence| - 1], evidence[|evidence| - 1];
      FullSlashingConfiscates(cfg, to, k, rest, h);
      SlashingConserves(cfg, p, k, rest, h);
      SlashedTable(cfg, p, k, rest, h);
      assert evidence == rest + [a];
      var mid := PunishAll(cfg, p, k, rest, h).value;
      FoundAlso(k.next, rest, a);
      if a in k.next.signerOf {
        ConfiscateAlso(k.balances, mid.balances, Found(k.next, rest), to, k.next.signerOf[a]);
      }
    }
  }
}
