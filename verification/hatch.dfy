/**
 The Hatch sale engine: the contribution ledger, `open`, `contribute` and
 `refund`, with the token balances they move kept as plain maps. Every
 operation returns either the new sale together with the record it emits,
 or an error and no new sale, so a failed call changes nothing.
 */
module Hatch {
  import opened MapSums
  import opened HatchConfig
  import opened SaleState
  import opened VestingSchedule

  /** The reasons a call is rejected. */
  datatype Error =
    | InvalidState            // the sale is not in the state the operation needs
    | InvalidContributeValue  // a contribution of zero
    | InsufficientFunds       // the contributor cannot pay the contribution
    | NothingToRefund         // no outstanding contribution to give back
    | IntegrityViolation      // the tokens to return or burn are not there

  datatype Result<T> = Success(value: T) | Failure(error: Error)

  /** The sale together with the balances it moves. */
  datatype Sale = Sale(
    cfg: Config,
    totalRaised: nat,                        // everything ever contributed; refunds do not lower it
    contributions: map<Address, nat>,        // outstanding contribution of each contributor
    reserve: nat,                            // contribution tokens held by the sale
    contributionBalance: map<Address, nat>,  // contribution tokens held by everybody else
    projectBalance: map<Address, nat>,       // project tokens issued by the sale, per holder
    projectSupply: nat,                      // total supply of the project token
    vestings: map<Address, seq<Vesting>>     // the vestings recorded per holder, one per purchase
  )

  /** The record of a successful purchase. */
  datatype Purchase = Purchase(contributor: Address, value: nat, amount: nat, vesting: Vesting)

  /** The `Refund(contributor, value, amount)` event. */
  datatype RefundRecord = RefundRecord(contributor: Address, value: nat, amount: nat)

  /** The vestings recorded for `holder`, in purchase order. */
  function VestingsOf(s: Sale, holder: Address): seq<Vesting>
  {
    if holder in s.vestings then s.vestings[holder] else []
  }

  /** The sale's lifecycle state at time `now`. */
  function State(s: Sale, now: Time): Phase
  {
    StateAt(s.cfg, now, s.totalRaised)
  }

  /** The bookkeeping invariant: the contribution tokens held equal the
      outstanding contributions, every holder's project tokens are exactly the
      conversion of their outstanding contribution, the supply is their sum,
      and every vesting is anchored to the sale's start date. */
  ghost predicate Valid(s: Sale)
  {
    && s.reserve == Sum(s.contributions)
    && s.reserve <= s.totalRaised
    && s.projectSupply == Sum(s.projectBalance)
    && s.projectSupply == Conversion(s.cfg, s.reserve)
    && (forall c :: Get(s.projectBalance, c) == Conversion(s.cfg, Get(s.contributions, c)))
    && (forall c :: c in s.vestings ==> forall v :: v in s.vestings[c] ==> Anchored(s.cfg, v))
    && (s.cfg.startDate == Unset ==> s.vestings == map[])
  }

  /** A freshly initialised sale: nothing raised, nothing issued, the
      contributors holding `balances` of the contribution token. */
  function Init(cfg: Config, balances: map<Address, nat>): (s: Sale)
    ensures Valid(s)
    ensures s.cfg == cfg && s.contributionBalance == balances
    ensures s.totalRaised == 0 && s.projectSupply == 0
    ensures forall c :: Get(s.contributions, c) == 0 && VestingsOf(s, c) == []
  {
    Sale(cfg, 0, map[], 0, balances, map[], 0, map[])
  }

  /** `open`: sets the start date to the current time; needed, and allowed,
      only when no start date was given at initialisation. */
  function Open(s: Sale, now: Time): (r: Result<Sale>)
    ensures r.Failure? <==> s.cfg.startDate != Unset
    ensures r.Failure? ==> r.error == InvalidState
    ensures r.Success? ==> r.value.cfg.startDate == now
    ensures r.Success? ==> r.value == s.(cfg := r.value.cfg)
    ensures r.Success? ==> r.value.cfg == s.cfg.(startDate := r.value.cfg.startDate)
    ensures r.Success? && now != Unset && s.cfg.period > 0 ==> State(r.value, now) == Funding
  {
    if s.cfg.startDate != Unset then Failure(InvalidState)
    else Success(s.(cfg := s.cfg.(startDate := now)))
  }

  /** `contribute`: `c` buys project tokens for `value` contribution tokens
      at time `now`. */
  function Contribute(s: Sale, c: Address, value: nat, now: Time): (r: Result<(Sale, Purchase)>)
    ensures r.Failure? <==> State(s, now) != Funding || value == 0 || Get(s.contributionBalance, c) < value
    ensures r.Failure? ==> r.error == (if State(s, now) != Funding then InvalidState
                                       else if value == 0 then InvalidContributeValue
                                       else InsufficientFunds)
    ensures r.Success? ==>
      var (s', p) := r.value;
      && s'.cfg == s.cfg
      && s'.totalRaised == s.totalRaised + value
      && s'.reserve == s.reserve + value
      && Get(s'.contributionBalance, c) + value == Get(s.contributionBalance, c)
      && Get(s'.contributions, c) == Get(s.contributions, c) + value
      && Get(s'.projectBalance, c) == Get(s.projectBalance, c) + Conversion(s.cfg, value)
      && s'.projectSupply == s.projectSupply + Conversion(s.cfg, value)
      && VestingsOf(s', c) == VestingsOf(s, c) + [p.vesting]
      && p.contributor == c && p.value == value
      && p.amount == Conversion(s.cfg, value) == p.vesting.amount
      && Anchored(s.cfg, p.vesting)
    ensures r.Success? ==>
      var s' := r.value.0;
      forall d :: d != c ==>
        && Get(s'.contributionBalance, d) == Get(s.contributionBalance, d)
        && Get(s'.contributions, d) == Get(s.contributions, d)
        && Get(s'.projectBalance, d) == Get(s.projectBalance, d)
        && VestingsOf(s', d) == VestingsOf(s, d)
  {
    if State(s, now) != Funding then Failure(InvalidState)
    else if value == 0 then Failure(InvalidContributeValue)
    else if Get(s.contributionBalance, c) < value then Failure(InsufficientFunds)
    else
      var amount := Conversion(s.cfg, value);
      var v := Schedule(s.cfg, value);
      var s' := s.(
        totalRaised := s.totalRaised + value,
        contributions := s.contributions[c := Get(s.contributions, c) + value],
        reserve := s.reserve + value,
        contributionBalance := s.contributionBalance[c := Get(s.contributionBalance, c) - value],
        projectBalance := s.projectBalance[c := Get(s.projectBalance, c) + amount],
        projectSupply := s.projectSupply + amount,
        vestings := s.vestings[c := VestingsOf(s, c) + [v]]);
      Success((s', Purchase(c, value, amount, v)))
  }

  /** `refund`: gives `c` back everything they contributed and burns the
      project tokens issued for it. Anyone may call it on behalf of `c`. */
  function Refund(s: Sale, c: Address, now: Time): (r: Result<(Sale, RefundRecord)>)
    ensures r.Failure? && r.error == InvalidState <==> State(s, now) != Refunding
    ensures r.Failure? && r.error == NothingToRefund <==>
              State(s, now) == Refunding && Get(s.contributions, c) == 0
    ensures r.Failure? ==> r.error in {InvalidState, NothingToRefund, IntegrityViolation}
    ensures r.Success? ==>
      var (s', e) := r.value;
      && e.contributor == c
      && e.value == Get(s.contributions, c) > 0
      && e.amount == Conversion(s.cfg, e.value)
      && Get(s'.contributions, c) == 0
      && Get(s'.contributionBalance, c) == Get(s.contributionBalance, c) + e.value
      && s'.reserve + e.value == s.reserve
      && Get(s'.projectBalance, c) + e.amount == Get(s.projectBalance, c)
      && s'.projectSupply + e.amount == s.projectSupply
      && s'.cfg == s.cfg && s'.totalRaised == s.totalRaised && s'.vestings == s.vestings
    ensures r.Success? ==>
      var s' := r.value.0;
      forall d :: d != c ==>
        && Get(s'.contributionBalance, d) == Get(s.contributionBalance, d)
        && Get(s'.contributions, d) == Get(s.contributions, d)
        && Get(s'.projectBalance, d) == Get(s.projectBalance, d)
  {
    if State(s, now) != Refunding then Failure(InvalidState)
    else if Get(s.contributions, c) == 0 then Failure(NothingToRefund)
    else
      var value := Get(s.contributions, c);
      var amount := Conversion(s.cfg, value);
      if s.reserve < value || Get(s.projectBalance, c) < amount || s.projectSupply < amount then
        Failure(IntegrityViolation)
      else
        var s' := s.(
          contributions := s.contributions[c := 0],
          reserve := s.reserve - value,
          contributionBalance := s.contributionBalance[c := Get(s.contributionBalance, c) + value],
          projectBalance := s.projectBalance[c := Get(s.projectBalance, c) - amount],
          projectSupply := s.projectSupply - amount);
        Success((s', RefundRecord(c, value, amount)))
  }

  // ---------------------------------------------------------------------
  // The invariant is kept by every operation.

  lemma OpenPreservesValid(s: Sale, now: Time)
    requires Valid(s) && Open(s, now).Success?
    ensures Valid(Open(s, now).value)
  {
    var s' := Open(s, now).value;
    assert forall c :: Get(s'.projectBalance, c) == Conversion(s'.cfg, Get(s'.contributions, c)) by {
      forall c ensures Get(s'.projectBalance, c) == Conversion(s'.cfg, Get(s'.contributions, c)) {
        assert Get(s.projectBalance, c) == Conversion(s.cfg, Get(s.contributions, c));
      }
    }
  }

  lemma ContributePreservesValid(s: Sale, c: Address, value: nat, now: Time)
    requires Valid(s) && Contribute(s, c, value, now).Success?
    ensures Valid(Contribute(s, c, value, now).value.0)
  {
    var (s', p) := Contribute(s, c, value, now).value;
    SumUpdate(s.contributions, c, Get(s.contributions, c) + value);
    SumUpdate(s.projectBalance, c, Get(s.projectBalance, c) + p.amount);
    ConversionAdditive(s.cfg, s.reserve, value);
    ConversionAdditive(s.cfg, Get(s.contributions, c), value);
    assert s.cfg.startDate != Unset;
    forall d, v | d in s'.vestings && v in s'.vestings[d]
      ensures Anchored(s'.cfg, v)
    {
      if d != c {
        assert v in s.vestings[d];
      } else if v != p.vesting {
        assert v in VestingsOf(s, c);
      }
    }
  }

  lemma RefundPreservesValid(s: Sale, c: Address, now: Time)
    requires Valid(s) && Refund(s, c, now).Success?
    ensures Valid(Refund(s, c, now).value.0)
  {
    var (s', e) := Refund(s, c, now).value;
    SumUpdate(s.contributions, c, 0);
    SumUpdate(s.projectBalance, c, 0);
    assert s'.projectBalance == s.projectBalance[c := 0];
    assert s'.contributions == s.contributions[c := 0];
    ConversionAdditive(s.cfg, s'.reserve, e.value);
  }

  // ---------------------------------------------------------------------
  // Conservation: tokens are moved, issued and burned, never lost.

  /** A purchase moves exactly `value` contribution tokens from the buyer to
      the sale, and mints exactly its conversion. */
  lemma ContributeConserves(s: Sale, c: Address, value: nat, now: Time)
    requires Contribute(s, c, value, now).Success?
    ensures var s' := Contribute(s, c, value, now).value.0;
      && Sum(s'.contributionBalance) + s'.reserve == Sum(s.contributionBalance) + s.reserve
      && Sum(s'.projectBalance) == Sum(s.projectBalance) + Conversion(s.cfg, value)
  {
    var s' := Contribute(s, c, value, now).value.0;
    SumUpdate(s.contributionBalance, c, Get(s.contributionBalance, c) - value);
    SumUpdate(s.projectBalance, c, Get(s.projectBalance, c) + Conversion(s.cfg, value));
  }

  /** A refund moves exactly the refunded value back from the sale to the
      contributor, and burns exactly its conversion. */
  lemma RefundConserves(s: Sale, c: Address, now: Time)
    requires Refund(s, c, now).Success?
    ensures var (s', e) := Refund(s, c, now).value;
      && Sum(s'.contributionBalance) + s'.reserve == Sum(s.contributionBalance) + s.reserve
      && Sum(s'.projectBalance) + e.amount == Sum(s.projectBalance)
  {
    var (s', e) := Refund(s, c, now).value;
    SumUpdate(s.contributionBalance, c, Get(s.contributionBalance, c) + e.value);
    SumUpdate(s.projectBalance, c, Get(s.projectBalance, c) - e.amount);
  }

  // ---------------------------------------------------------------------
  // The refund protocol.

  /** On a consistent sale a refund fails only for the two reasons the sale
      reports to callers: the wrong state, or nothing to give back. */
  lemma RefundSucceedsWhenOwed(s: Sale, c: Address, now: Time)
    requires Valid(s)
    ensures Refund(s, c, now).Success? <==>
              State(s, now) == Refunding && Get(s.contributions, c) > 0
  {
    var value := Get(s.contributions, c);
    SumBound(s.contributions, c);
    ConversionMonotone(s.cfg, value, s.reserve);
  }

  /** A contributor is refunded at most once: a second refund finds nothing
      to give back, whenever it is attempted while the sale is refunding. */
  lemma RefundOnce(s: Sale, c: Address, t1: Time, t2: Time)
    requires Refund(s, c, t1).Success?
    ensures var s' := Refund(s, c, t1).value.0;
      && Refund(s', c, t2).Failure?
      && (State(s', t2) == Refunding ==> Refund(s', c, t2).error == NothingToRefund)
  {
  }

  /** A refund changes neither the configuration nor the amount raised, so
      the state read at any time is what it was before: in particular the
      sale reads as funding again at its start date. */
  lemma RefundKeepsState(s: Sale, c: Address, now: Time, t: Time)
    requires Refund(s, c, now).Success?
    ensures State(Refund(s, c, now).value.0, t) == State(s, t)
  {
  }

  /** The refund test's first buyer: whoever spends part or all of a
      balance in one purchase and is later refunded ends with the balance
      they started from and no project tokens. */
  lemma ContributeThenRefundRestores(s: Sale, c: Address, value: nat, t1: Time, t2: Time)
    requires Valid(s)
    requires Get(s.contributions, c) == 0
    requires Contribute(s, c, value, t1).Success?
    requires State(Contribute(s, c, value, t1).value.0, t2) == Refunding
    ensures var s1 := Contribute(s, c, value, t1).value.0;
      && Refund(s1, c, t2).Success?
      && Refund(s1, c, t2).value.1 == RefundRecord(c, value, Conversion(s.cfg, value))
      && Get(Refund(s1, c, t2).value.0.contributionBalance, c) == Get(s.contributionBalance, c)
      && Get(Refund(s1, c, t2).value.0.projectBalance, c) == 0
  {
    var s1 := Contribute(s, c, value, t1).value.0;
    ContributePreservesValid(s, c, value, t1);
    RefundSucceedsWhenOwed(s1, c, t2);
    assert Get(s1.projectBalance, c) == Conversion(s1.cfg, Get(s1.contributions, c));
  }

  /** Purchases by one contributor accumulate: two purchases record and
      issue what one purchase of their sum would, and a refund then pays
      back and burns the sum. */
  lemma PurchasesAccumulate(s: Sale, c: Address, a: nat, b: nat, t1: Time, t2: Time, t3: Time)
    requires Valid(s)
    requires Get(s.contributions, c) == 0
    requires Contribute(s, c, a, t1).Success?
    requires Contribute(Contribute(s, c, a, t1).value.0, c, b, t2).Success?
    requires State(Contribute(Contribute(s, c, a, t1).value.0, c, b, t2).value.0, t3) == Refunding
    ensures var s2 := Contribute(Contribute(s, c, a, t1).value.0, c, b, t2).value.0;
      && Get(s2.contributions, c) == a + b
      && Get(s2.projectBalance, c) == Get(s.projectBalance, c) + Conversion(s.cfg, a + b)
      && |VestingsOf(s2, c)| == |VestingsOf(s, c)| + 2
      && Refund(s2, c, t3).Success?
      && Refund(s2, c, t3).value.1 == RefundRecord(c, a + b, Conversion(s.cfg, a + b))
  {
    var s1 := Contribute(s, c, a, t1).value.0;
    var s2 := Contribute(s1, c, b, t2).value.0;
    ContributePreservesValid(s, c, a, t1);
    ContributePreservesValid(s1, c, b, t2);
    ConversionAdditive(s.cfg, a, b);
    RefundSucceedsWhenOwed(s2, c, t3);
  }

  // ---------------------------------------------------------------------
  // Vesting and the ACL oracle.

  /** The vesting a purchase records does not depend on when, within the
      funding period, the purchase is made: it is anchored to the sale's
      start date. */
  lemma PurchaseVestingIndependentOfTime(s: Sale, c: Address, value: nat, t1: Time, t2: Time)
    requires Contribute(s, c, value, t1).Success? && Contribute(s, c, value, t2).Success?
    ensures Contribute(s, c, value, t1).value.1 == Contribute(s, c, value, t2).value.1
    ensures Contribute(s, c, value, t1).value.1.vesting.start == s.cfg.startDate
  {
  }

  /** On a consistent sale the ACL oracle opens exactly when every recorded
      vesting is complete. */
  lemma CanPerformWhenVested(s: Sale, holder: Address, i: nat, now: Time,
                             who: Address, where: Address, what: seq<int>, how: seq<int>)
    requires Valid(s) && i < |VestingsOf(s, holder)|
    ensures CanPerform(s.cfg, now, who, where, what, how) <==> VestingsOf(s, holder)[i].complete <= now
  {
    assert VestingsOf(s, holder)[i] in s.vestings[holder];
    CanPerformMatchesVesting(s.cfg, VestingsOf(s, holder)[i], now, who, where, what, how);
  }
}
