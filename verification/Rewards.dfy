/** Reward issuance at Commit: the proposer's share and the voters' shares. */
module Rewards {
  import opened Arithmetic
  import opened Types
  import opened Tendermint
  import opened Strategies
  import opened Ledger

  const SPLIT_HEIGHT := 3588000
  const BLOCKS_PER_YEAR := 365 * 24 * 60 * 60 / 5
  const NO_REWARD_VERSION := 4
  const WEIGHTED_VERSION := 3

  /** The ways in which a Commit can bring the node down. */
  datatype Fault = VotePowerNegative | WeightSumZero | VoterUnknown

  datatype Outcome = Paid(balances: Balances) | Panicked(fault: Fault)

  /** The per-block bonus computed by Info: the halved divisor doubles the yearly rate. */
  function MinorBonusOf(total: int): int {
    total / (100 * (BLOCKS_PER_YEAR / 2))
  }

  /** What the voters of one block share. */
  function VoterPool(s: StrategyState): int {
    if s.height <= SPLIT_HEIGHT then s.totalBalance / (100 * BLOCKS_PER_YEAR) else s.minorBonus
  }

  function Int64(x: int): int {
    (x + 0x8000_0000_0000_0000) % 0x1_0000_0000_0000_0000 - 0x8000_0000_0000_0000
  }

  /** The signed voting power as the node adds it up, in 64-bit arithmetic. */
  function WeightSum(votes: seq<Vote>): int {
    if votes == [] then 0
    else
      var v := votes[|votes| - 1];
      if v.signed then Int64(WeightSum(votes[..|votes| - 1]) + v.power) else WeightSum(votes[..|votes| - 1])
  }

  /** Where a voter's reward goes: its item's beneficiary, bonded or just unbonded. */
  function Beneficiary(t: Table, a: TmAddress): Option<Address> {
    if a !in t.signerOf then None
    else
      var s := t.signerOf[a];
      if s in t.items then Some(t.items[s].beneficiary)
      else if s in t.unbonded then Some(t.unbonded[s].beneficiary)
      else None
  }

  /** Before version 3 every voter gets the average, whatever its power. */
  function Share(s: StrategyState, v: Vote, average: int): int {
    if s.blockVersion >= WEIGHTED_VERSION then v.power * average else average
  }

  function Reward(s: StrategyState, v: Vote, weight: int, balances: Balances): Outcome {
    if !v.signed || v.power == 0 then Paid(balances)
    else if v.power < 0 then Panicked(VotePowerNegative)
    else if weight == 0 then Panicked(WeightSumZero)
    else
      match Beneficiary(s.curr, v.address)
      case None => Panicked(VoterUnknown)
      case Some(b) => Paid(Credit(balances, b, Share(s, v, VoterPool(s) / weight)))
  }

  function RewardAll(s: StrategyState, votes: seq<Vote>, weight: int, balances: Balances): Outcome {
    if votes == [] then Paid(balances)
    else
      match RewardAll(s, votes[..|votes| - 1], weight, balances)
      case Panicked(f) => Panicked(f)
      case Paid(b) => Reward(s, votes[|votes| - 1], weight, b)
  }

  function Accumulate(s: StrategyState, coinbase: Address, balances: Balances): Outcome {
    if s.blockVersion >= NO_REWARD_VERSION then Paid(balances)
    else
      RewardAll(s, s.lastVotes, WeightSum(s.lastVotes),
                if s.height <= SPLIT_HEIGHT then balances else Credit(balances, coinbase, s.minorBonus))
  }

  /** The work in progress on the next block. */
  class WorkState {
    var balances: Balances
    var coinbase: Address

    constructor (balances: Balances, coinbase: Address)
      ensures this.balances == balances && this.coinbase == coinbase
    {
      this.balances, this.coinbase := balances, coinbase;
    }

    /** Pays the block's rewards; a fault stops the node in the middle of the loop. */
    method AccumulateRewards(strategy: Strategy) returns (fault: Option<Fault>)
      modifies this`balances
      ensures match old(Accumulate(strategy.View(), coinbase, balances))
              case Paid(b) => fault == None && balances == b
              case Panicked(f) => fault == Some(f)
    {
      fault := None;
      if strategy.blockVersion >= NO_REWARD_VERSION {
        return;
      }
      var bonus := strategy.minorBonus;
      if strategy.height <= SPLIT_HEIGHT {
        bonus := strategy.totalBalance / (100 * BLOCKS_PER_YEAR);
      } else {
        balances := Credit(balances, coinbase, bonus);
      }
      var votes := strategy.lastVotes;
      var weight := Weigh(votes);
      ghost var start := balances;
      ghost var s := strategy.View();
      for i := 0 to |votes|
        invariant fault == None
        invariant RewardAll(s, votes[..i], weight, start) == Paid(balances)
      {
        assert votes[..i + 1][..i] == votes[..i];
        var v := votes[i];
        if v.signed && v.power != 0 {
          if v.power < 0 {
            fault := Some(VotePowerNegative);
          } else if weight == 0 {
            fault := Some(WeightSumZero);
          } else {
            var average := bonus / weight;
            match Beneficiary(strategy.curr, v.address)
            case None => fault := Some(VoterUnknown);
            case Some(b) =>
              var share := if strategy.blockVersion >= WEIGHTED_VERSION then v.power * average else average;
              balances := Credit(balances, b, share);
          }
          if fault.Some? {
            FaultStays(s, votes, i, weight, start);
            return;
          }
        }
      }
      assert votes[..|votes|] == votes;
    }

    /** Adds up the signed power. */
    static method Weigh(votes: seq<Vote>) returns (weight: int)
      ensures weight == WeightSum(votes)
    {
      weight := 0;
      for i := 0 to |votes|
        invariant weight == WeightSum(votes[..i])
      {
        assert votes[..i + 1][..i] == votes[..i];
        if votes[i].signed {
          weight := Int64(weight + votes[i].power);
        }
      }
      assert votes[..|votes|] == votes;
    }
  }

  /** Once a vote has brought the node down, later votes change nothing. */
  lemma {:induction false} FaultStays(s: StrategyState, votes: seq<Vote>, i: nat, weight: int, balances: Balances)
    requires i < |votes| && RewardAll(s, votes[..i + 1], weight, balances).Panicked?
    ensures RewardAll(s, votes, weight, balances) == RewardAll(s, votes[..i + 1], weight, balances)
  {
    if i + 1 < |votes| {
      var rest := votes[..|votes| - 1];
      assert rest[..i + 1] == votes[..i + 1];
      FaultStays(s, rest, i, weight, balances);
    } else {
      assert votes[..i + 1] == votes;
    }
  }

  // ---------------------------------------------------------------- when it faults

  ghost predicate Faulty(s: StrategyState, v: Vote, weight: int) {
    v.signed && v.power != 0 && (v.power < 0 || weight == 0 || Beneficiary(s.curr, v.address).None?)
  }

  lemma {:induction false} RewardFaultsExactly(s: StrategyState, votes: seq<Vote>, weight: int, balances: Balances)
    ensures RewardAll(s, votes, weight, balances).Panicked? <==>
            exists i :: 0 <= i < |votes| && Faulty(s, votes[i], weight)
    ensures RewardAll(s, votes, weight, balances).Panicked? && weight != 0
            && (forall i :: 0 <= i < |votes| ==> votes[i].power >= 0) ==>
              RewardAll(s, votes, weight, balances).fault == VoterUnknown
  {
    if votes != [] {
      var n := |votes| - 1;
      var rest := votes[..n];
      RewardFaultsExactly(s, rest, weight, balances);
      assert forall i :: 0 <= i < n ==> rest[i] == votes[i];
      if Faulty(s, votes[n], weight) {
        assert RewardAll(s, votes, weight, balances).Panicked?;
      } else if RewardAll(s, votes, weight, balances).Panicked? {
        assert RewardAll(s, rest, weight, balances).Panicked?;
      }
    }
  }

  /** The true voting power behind the signed votes. */
  function SignedPower(votes: seq<Vote>): int {
    if votes == [] then 0
    else SignedPower(votes[..|votes| - 1]) + if votes[|votes| - 1].signed then votes[|votes| - 1].power else 0
  }

  /** The number of votes that earn a reward. */
  function Signers(votes: seq<Vote>): nat {
    if votes == [] then 0
    else
      var v := votes[|votes| - 1];
      Signers(votes[..|votes| - 1]) + if v.signed && v.power > 0 then 1 else 0
  }

  lemma Int64Add(x: int, y: int)
    ensures Int64(Int64(x) + y) == Int64(x + y)
  {
    var k := (x + 0x8000_0000_0000_0000) / 0x1_0000_0000_0000_0000;
    assert Int64(x) == x - k * 0x1_0000_0000_0000_0000;
  }

  /** The 64-bit sum is the true sum modulo 2^64. */
  lemma {:induction false} WeightSumWraps(votes: seq<Vote>)
    ensures WeightSum(votes) == Int64(SignedPower(votes))
  {
    if votes != [] {
      WeightSumWraps(votes[..|votes| - 1]);
      Int64Add(SignedPower(votes[..|votes| - 1]), votes[|votes| - 1].power);
    }
  }

  /** What Tendermint guarantees of a vote list: no negative power, and a total far below 2^63. */
  ghost predicate VotesSane(votes: seq<Vote>) {
    && (forall i :: 0 <= i < |votes| ==> votes[i].power >= 0)
    && SignedPower(votes) < 0x8000_0000_0000_0000
  }

  lemma {:induction false} SignersAtMostPower(votes: seq<Vote>)
    requires forall i :: 0 <= i < |votes| ==> votes[i].power >= 0
    ensures 0 <= Signers(votes) <= SignedPower(votes)
    ensures forall i :: 0 <= i < |votes| && votes[i].signed && votes[i].power > 0 ==> Signers(votes) > 0
    ensures Signers(votes) == 0 ==> SignedPower(votes) == 0
  {
    if votes != [] {
      SignersAtMostPower(votes[..|votes| - 1]);
    }
  }

  lemma SaneWeight(votes: seq<Vote>)
    requires VotesSane(votes)
    ensures WeightSum(votes) == SignedPower(votes) >= Signers(votes)
    ensures WeightSum(votes) == 0 <==> Signers(votes) == 0
  {
    WeightSumWraps(votes);
    SignersAtMostPower(votes);
  }

  /** Some voter with a reward to come is unknown to the table. */
  ghost predicate Unresolved(votes: seq<Vote>, t: Table) {
    exists i :: 0 <= i < |votes| && votes[i].signed && votes[i].power > 0 && votes[i].address !in Known(t)
  }

  /** On a sane vote list a Commit comes down exactly when some rewarded voter does not resolve
      in the snapshot; it never divides by zero. */
  lemma AccumulateFaultsExactly(s: StrategyState, coinbase: Address, balances: Balances)
    requires TableOk(s.curr) && VotesSane(s.lastVotes)
    ensures var r := Accumulate(s, coinbase, balances);
            && (r.Panicked? <==> s.blockVersion < NO_REWARD_VERSION && Unresolved(s.lastVotes, s.curr))
            && (r.Panicked? ==> r.fault == VoterUnknown)
  {
    var votes, weight := s.lastVotes, WeightSum(s.lastVotes);
    var start := if s.height <= SPLIT_HEIGHT then balances else Credit(balances, coinbase, s.minorBonus);
    SaneWeight(votes);
    SignersAtMostPower(votes);
    RewardFaultsExactly(s, votes, weight, start);
    forall i | 0 <= i < |votes|
      ensures Faulty(s, votes[i], weight) <==>
              votes[i].signed && votes[i].power > 0 && votes[i].address !in Known(s.curr)
    {
    }
  }

  /** Vote i is the first one the loop has to pay, and has positive power. */
  ghost predicate PaidFirst(votes: seq<Vote>, i: int) {
    && 0 <= i < |votes| && votes[i].signed && votes[i].power > 0
    && forall j :: 0 <= j < i ==> !votes[j].signed || votes[j].power == 0
  }

  /** With weight 0 the loop either pays nobody or stops at the first vote it has to pay. */
  lemma {:induction false} ZeroWeightStops(s: StrategyState, votes: seq<Vote>, balances: Balances)
    ensures RewardAll(s, votes, 0, balances) == Panicked(WeightSumZero) <==> exists i :: PaidFirst(votes, i)
    ensures RewardAll(s, votes, 0, balances).Paid? <==>
            forall i :: 0 <= i < |votes| ==> !votes[i].signed || votes[i].power == 0
  {
    if votes != [] {
      var n := |votes| - 1;
      var rest := votes[..n];
      ZeroWeightStops(s, rest, balances);
      assert forall i :: 0 <= i < n ==> rest[i] == votes[i];
      assert forall i :: 0 <= i < n ==> (PaidFirst(rest, i) <==> PaidFirst(votes, i));
      assert RewardAll(s, votes, 0, balances) == Panicked(WeightSumZero) && RewardAll(s, rest, 0, balances).Paid? ==>
          PaidFirst(votes, n);
    }
  }

  lemma {:induction false} WeightNeverZero(s: StrategyState, votes: seq<Vote>, weight: int, balances: Balances)
    requires weight != 0
    ensures RewardAll(s, votes, weight, balances) != Panicked(WeightSumZero)
  {
    if votes != [] {
      WeightNeverZero(s, votes[..|votes| - 1], weight, balances);
    }
  }

  /** On any vote list at all: the division fails exactly when, below version 4, the signed power is
      a multiple of 2^64 and the first vote to be paid has positive power. */
  lemma DivisionFailsExactly(s: StrategyState, coinbase: Address, balances: Balances)
    ensures Accumulate(s, coinbase, balances) == Panicked(WeightSumZero) <==>
            && s.blockVersion < NO_REWARD_VERSION
            && SignedPower(s.lastVotes) % 0x1_0000_0000_0000_0000 == 0
            && exists i :: PaidFirst(s.lastVotes, i)
  {
    var votes, weight := s.lastVotes, WeightSum(s.lastVotes);
    var start := if s.height <= SPLIT_HEIGHT then balances else Credit(balances, coinbase, s.minorBonus);
    WeightSumWraps(votes);
    if weight == 0 {
      ZeroWeightStops(s, votes, start);
    } else {
      WeightNeverZero(s, votes, weight, start);
    }
  }

  /** It takes no negative power: four votes of 2^62 weigh nothing. */
  lemma LargeVotesDivideByZero(s: StrategyState, coinbase: Address, balances: Balances)
    requires s.blockVersion < NO_REWARD_VERSION && |s.lastVotes| == 4
    requires forall i :: 0 <= i < 4 ==> s.lastVotes[i].signed && s.lastVotes[i].power == 0x4000_0000_0000_0000
    ensures Accumulate(s, coinbase, balances) == Panicked(WeightSumZero)
  {
    var votes := s.lastVotes;
    EqualPower(votes, 0x4000_0000_0000_0000);
    assert PaidFirst(votes, 0);
    DivisionFailsExactly(s, coinbase, balances);
  }

  lemma {:induction false} EqualPower(votes: seq<Vote>, power: int)
    requires forall i :: 0 <= i < |votes| ==> votes[i].signed && votes[i].power == power
    ensures SignedPower(votes) == |votes| * power
  {
    if votes != [] {
      EqualPower(votes[..|votes| - 1], power);
      MulNext(power, |votes| - 1);
    }
  }

  // ---------------------------------------------------------------- how much it mints

  /** The sum of the shares of a vote list. */
  function Issued(s: StrategyState, votes: seq<Vote>, average: int): int {
    if votes == [] then 0
    else
      var v := votes[|votes| - 1];
      Issued(s, votes[..|votes| - 1], average) + if v.signed && v.power > 0 then Share(s, v, average) else 0
  }

  /** The part of it that goes to one account. */
  function CreditOf(s: StrategyState, votes: seq<Vote>, average: int, x: Address): int {
    if votes == [] then 0
    else
      var v := votes[|votes| - 1];
      CreditOf(s, votes[..|votes| - 1], average, x) +
      if v.signed && v.power > 0 && Beneficiary(s.curr, v.address) == Some(x) then Share(s, v, average) else 0
  }

  /** Each account receives exactly its voters' shares and the total grows by their sum. */
  lemma {:induction false} RewardCredits(s: StrategyState, votes: seq<Vote>, weight: int, balances: Balances,
                                         x: Address)
    requires RewardAll(s, votes, weight, balances).Paid?
    ensures var after := RewardAll(s, votes, weight, balances).balances;
            var average := if weight == 0 then 0 else VoterPool(s) / weight;
            && Get(after, x) == Get(balances, x) + CreditOf(s, votes, average, x)
            && Total(after) == Total(balances) + Issued(s, votes, average)
  {
    if votes != [] {
      var rest, v := votes[..|votes| - 1], votes[|votes| - 1];
      RewardCredits(s, rest, weight, balances, x);
      if v.signed && v.power != 0 {
        var b := Beneficiary(s.curr, v.address).value;
        var now := RewardAll(s, rest, weight, balances).balances;
        TotalSet(now, b, Get(now, b) + Share(s, v, VoterPool(s) / weight));
      }
    }
  }

  /** What one unit of the weight, or before version 3 one signer, is paid. */
  function Average(s: StrategyState): int {
    var weight := WeightSum(s.lastVotes);
    if weight == 0 then 0 else VoterPool(s) / weight
  }

  /** Who gets what from a Commit. Below version 4 every account gains the proposer's bonus, if it is
      the coinbase of a block past the split height, and the shares of the voters it benefits from;
      from version 4 on nothing moves. */
  lemma CommitCredits(s: StrategyState, coinbase: Address, balances: Balances, x: Address)
    requires Accumulate(s, coinbase, balances).Paid?
    ensures var after := Accumulate(s, coinbase, balances).balances;
            if s.blockVersion >= 4 then after == balances
            else Get(after, x) == Get(balances, x)
                                  + (if x == coinbase && s.height > 3588000 then s.minorBonus else 0)
                                  + CreditOf(s, s.lastVotes, Average(s), x)
  {
    if s.blockVersion < NO_REWARD_VERSION {
      var start := if s.height <= SPLIT_HEIGHT then balances else Credit(balances, coinbase, s.minorBonus);
      RewardCredits(s, s.lastVotes, WeightSum(s.lastVotes), start, x);
    }
  }

  /** From version 3 on the shares add up to the whole weight, before that to one average a signer. */
  lemma {:induction false} IssuedExactly(s: StrategyState, votes: seq<Vote>, average: int)
    requires forall i :: 0 <= i < |votes| ==> votes[i].power >= 0
    ensures Issued(s, votes, average) ==
            (if s.blockVersion >= 3 then SignedPower(votes) else Signers(votes)) * average
  {
    if votes != [] {
      IssuedExactly(s, votes[..|votes| - 1], average);
    }
  }

  /** What the voters of a block receive together. */
  function VotersPart(s: StrategyState): int {
    var weight := WeightSum(s.lastVotes);
    if weight == 0 then 0
    else if s.blockVersion >= WEIGHTED_VERSION then VoterPool(s) - VoterPool(s) % weight
    else Signers(s.lastVotes) * (VoterPool(s) / weight)
  }

  /** What one block adds to the total balance. */
  function Minted(s: StrategyState): int {
    if s.blockVersion >= NO_REWARD_VERSION then 0
    else (if s.height <= SPLIT_HEIGHT then 0 else s.minorBonus) + VotersPart(s)
  }

  lemma AverageBounds(pool: int, weight: int, n: int)
    requires pool >= 0 && weight > 0 && 0 <= n <= weight
    ensures 0 <= n * (pool / weight) <= pool - pool % weight <= pool
  {
    var q := pool / weight;
    Division(pool, weight);
    DivAtLeast(pool, weight, 0);
    MulBetween(q, n, weight);
  }

  lemma MulBetween(q: int, n: int, weight: int)
    requires q >= 0 && 0 <= n <= weight
    ensures 0 <= n * q <= weight * q
  {
    assert (weight - n) * q >= 0;
  }

  /** A Commit that goes through adds exactly Minted to the total balance. */
  lemma BlockIssuance(s: StrategyState, coinbase: Address, balances: Balances)
    requires VotesSane(s.lastVotes)
    requires Accumulate(s, coinbase, balances).Paid?
    ensures Total(Accumulate(s, coinbase, balances).balances) == Total(balances) + Minted(s)
  {
    if s.blockVersion < NO_REWARD_VERSION {
      var votes, weight := s.lastVotes, WeightSum(s.lastVotes);
      var start := if s.height <= SPLIT_HEIGHT then balances else Credit(balances, coinbase, s.minorBonus);
      TotalSet(balances, coinbase, Get(balances, coinbase) + s.minorBonus);
      SaneWeight(votes);
      RewardCredits(s, votes, weight, start, coinbase);
      VotersShare(s);
    }
  }

  /** The voters' part of a block: from version 3 on the pool less its remainder, before that one
      average a signer. */
  lemma VotersShare(s: StrategyState)
    requires VotesSane(s.lastVotes)
    ensures var votes, weight := s.lastVotes, WeightSum(s.lastVotes);
            Issued(s, votes, if weight == 0 then 0 else VoterPool(s) / weight) == VotersPart(s)
  {
    var votes, weight, pool := s.lastVotes, WeightSum(s.lastVotes), VoterPool(s);
    SaneWeight(votes);
    var average := if weight == 0 then 0 else pool / weight;
    IssuedExactly(s, votes, average);
    if weight != 0 && s.blockVersion >= WEIGHTED_VERSION {
      Division(pool, weight);
    }
  }

  /** The version < 3 amount never exceeds the version 3 amount, which never exceeds the pool. */
  lemma VotersPartBounds(s: StrategyState)
    requires VotesSane(s.lastVotes) && VoterPool(s) >= 0
    ensures 0 <= VotersPart(s) <= VotersPart(s.(blockVersion := WEIGHTED_VERSION)) <= VoterPool(s)
  {
    SaneWeight(s.lastVotes);
    var weight := WeightSum(s.lastVotes);
    if weight > 0 {
      AverageBounds(VoterPool(s), weight, Signers(s.lastVotes));
    }
  }

  /** No block mints a negative amount and none mints more than its bonus, twice that once the
      proposer has a share of its own, and then it mints at least the proposer's. */
  lemma MintedBounds(s: StrategyState)
    requires VotesSane(s.lastVotes) && s.totalBalance >= 0 && s.minorBonus == MinorBonusOf(s.totalBalance)
    ensures s.blockVersion >= NO_REWARD_VERSION ==> Minted(s) == 0
    ensures s.height <= SPLIT_HEIGHT ==> 0 <= Minted(s) <= s.totalBalance / (100 * BLOCKS_PER_YEAR)
    ensures s.height > SPLIT_HEIGHT ==> 0 <= Minted(s) <= 2 * s.minorBonus
    ensures s.height > SPLIT_HEIGHT && s.blockVersion < NO_REWARD_VERSION ==> s.minorBonus <= Minted(s)
    ensures s.blockVersion < NO_REWARD_VERSION ==> Minted(s) <= Minted(s.(blockVersion := WEIGHTED_VERSION))
  {
    BonusesPositive(s.totalBalance);
    VotersPartBounds(s);
    MintedParts(s, VotersPart(s));
    MintedParts(s.(blockVersion := WEIGHTED_VERSION), VotersPart(s.(blockVersion := WEIGHTED_VERSION)));
  }

  lemma BonusesPositive(total: int)
    requires total >= 0
    ensures 0 <= total / (100 * BLOCKS_PER_YEAR) && 0 <= MinorBonusOf(total)
  {
    DivAtLeast(total, 100 * BLOCKS_PER_YEAR, 0);
    DivAtLeast(total, 100 * (BLOCKS_PER_YEAR / 2), 0);
  }

  lemma MintedParts(s: StrategyState, part: int)
    requires part == VotersPart(s)
    ensures Minted(s) == if s.blockVersion >= NO_REWARD_VERSION then 0
                         else part + if s.height <= SPLIT_HEIGHT then 0 else s.minorBonus
  {
  }

  /** Rewards never take anything from an account. */
  lemma {:induction false} RewardsNonNegative(s: StrategyState, votes: seq<Vote>, weight: int, balances: Balances)
    requires NonNegative(balances) && VoterPool(s) >= 0 && weight >= 0
    requires RewardAll(s, votes, weight, balances).Paid?
    ensures NonNegative(RewardAll(s, votes, weight, balances).balances)
  {
    if votes != [] {
      var v := votes[|votes| - 1];
      RewardsNonNegative(s, votes[..|votes| - 1], weight, balances);
      if v.signed && v.power != 0 {
        DivAtLeast(VoterPool(s), weight, 0);
        MulBetween(VoterPool(s) / weight, 0, v.power);
      }
    }
  }

  lemma AccumulateNonNegative(s: StrategyState, coinbase: Address, balances: Balances)
    requires NonNegative(balances) && VotesSane(s.lastVotes)
    requires s.totalBalance >= 0 && s.minorBonus == MinorBonusOf(s.totalBalance)
    requires Accumulate(s, coinbase, balances).Paid?
    ensures NonNegative(Accumulate(s, coinbase, balances).balances)
  {
    BonusesPositive(s.totalBalance);
    SaneWeight(s.lastVotes);
    if s.blockVersion < NO_REWARD_VERSION {
      var start := if s.height <= SPLIT_HEIGHT then balances else Credit(balances, coinbase, s.minorBonus);
      RewardsNonNegative(s, s.lastVotes, WeightSum(s.lastVotes), start);
    }
  }
}
