/** Account balances as the state database keeps them: an absent account holds zero. */
module Ledger {
  import opened Types

  type Balances = map<Address, int>

  function Get(b: Balances, a: Address): int {
    if a in b then b[a] else 0
  }

  function Credit(b: Balances, a: Address, amount: int): Balances {
    b[a := Get(b, a) + amount]
  }

  ghost predicate NonNegative(b: Balances) {
    forall a :: a in b ==> b[a] >= 0
  }

  ghost function Total(b: Balances): int {
    if b == map[] then 0
    else
      var a :| a in b;
      b[a] + Total(b - {a})
  }

  lemma {:induction false} TotalSplit(b: Balances, a: Address)
    requires a in b
    ensures Total(b) == b[a] + Total(b - {a})
    decreases |b|
  {
    var c :| c in b && Total(b) == b[c] + Total(b - {c});
    if c != a {
      TotalSplit(b - {c}, a);
      TotalSplit(b - {a}, c);
      assert (b - {c}) - {a} == (b - {a}) - {c};
    }
  }

  lemma TotalSet(b: Balances, a: Address, v: int)
    ensures Total(b[a := v]) == Total(b) - Get(b, a) + v
  {
    var b' := b[a := v];
    TotalSplit(b', a);
    assert b' - {a} == b - {a};
    if a in b {
      TotalSplit(b, a);
    } else {
      assert b - {a} == b;
    }
  }

  lemma {:induction false} TotalNonNegative(b: Balances)
    requires NonNegative(b)
    ensures Total(b) >= 0
    decreases |b|
  {
    if b != map[] {
      var a :| a in b && Total(b) == b[a] + Total(b - {a});
      TotalNonNegative(b - {a});
    }
  }

  /** The joint balance of a set of accounts. */
  ghost function Sum(b: Balances, accounts: set<Address>): int {
    if accounts == {} then 0
    else
      var a :| a in accounts;
      Get(b, a) + Sum(b, accounts - {a})
  }

  lemma {:induction false} SumSplit(b: Balances, accounts: set<Address>, a: Address)
    requires a in accounts
    ensures Sum(b, accounts) == Get(b, a) + Sum(b, accounts - {a})
    decreases |accounts|
  {
    var c :| c in accounts && Sum(b, accounts) == Get(b, c) + Sum(b, accounts - {c});
    if c != a {
      SumSplit(b, accounts - {c}, a);
      SumSplit(b, accounts - {a}, c);
      assert (accounts - {c}) - {a} == (accounts - {a}) - {c};
    }
  }

  lemma {:induction false} SumWithin(b: Balances, accounts: set<Address>)
    requires NonNegative(b)
    ensures 0 <= Sum(b, accounts) <= Total(b)
    decreases |accounts|
  {
    if accounts == {} {
      TotalNonNegative(b);
    } else {
      var a :| a in accounts;
      var b', rest := b - {a}, accounts - {a};
      SumSplit(b, accounts, a);
      SumElsewhere(b, rest, a);
      SumWithin(b', rest);
      assert Sum(b, accounts) == Get(b, a) + Sum(b', rest);
      if a in b {
        TotalSplit(b, a);
      } else {
        assert b' == b;
      }
      assert Total(b) == Get(b, a) + Total(b');
    }
  }

  lemma {:induction false} SumElsewhere(b: Balances, accounts: set<Address>, a: Address)
    requires a !in accounts
    ensures Sum(b - {a}, accounts) == Sum(b, accounts)
    decreases |accounts|
  {
    if accounts != {} {
      var c :| c in accounts && Sum(b, accounts) == Get(b, c) + Sum(b, accounts - {c});
      var b' := b - {a};
      SumElsewhere(b, accounts - {c}, a);
      SumSplit(b', accounts, c);
      assert Get(b', c) == Get(b, c);
    }
  }
}
