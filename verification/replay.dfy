/**
 A sequence of calls to the sale, each carrying the clock reading at which
 it is made, run one after the other as the host serialises them. A
 rejected call leaves the sale as it was and is logged with its error.
 */
module Replay {
  import opened MapSums
  import opened HatchConfig
  import opened SaleState
  import opened Hatch

  datatype Call =
    | OpenCall(now: Time)
    | ContributeCall(contributor: Address, value: nat, now: Time)
    | RefundCall(contributor: Address, now: Time)

  datatype Outcome =
    | Opened
    | Purchased(purchase: Purchase)
    | Refunded(record: RefundRecord)
    | Rejected(error: Error)

  /** The sale after `call`, unchanged when the call is rejected. */
  function Apply(s: Sale, call: Call): Sale
  {
    match call
    case OpenCall(now) =>
      var r := Open(s, now); if r.Success? then r.value else s
    case ContributeCall(c, value, now) =>
      var r := Contribute(s, c, value, now); if r.Success? then r.value.0 else s
    case RefundCall(c, now) =>
      var r := Refund(s, c, now); if r.Success? then r.value.0 else s
  }

  /** What `call` reports: its record, or the error that rejected it. */
  function Report(s: Sale, call: Call): Outcome
  {
    match call
    case OpenCall(now) =>
      var r := Open(s, now); if r.Success? then Opened else Rejected(r.error)
    case ContributeCall(c, value, now) =>
      var r := Contribute(s, c, value, now); if r.Success? then Purchased(r.value.1) else Rejected(r.error)
    case RefundCall(c, now) =>
      var r := Refund(s, c, now); if r.Success? then Refunded(r.value.1) else Rejected(r.error)
  }

  /** The sale after running `calls` in order from `s`. */
  function Run(s: Sale, calls: seq<Call>): Sale
    decreases |calls|
  {
    if calls == [] then s else Apply(Run(s, calls[..|calls| - 1]), calls[|calls| - 1])
  }

  /** What each of `calls` reports when they are run in order from `s`. */
  function Reports(s: Sale, calls: seq<Call>): (log: seq<Outcome>)
    ensures |log| == |calls|
    decreases |calls|
  {
    if calls == [] then []
    else
      var prefix := calls[..|calls| - 1];
      Reports(s, prefix) + [Report(Run(s, prefix), calls[|calls| - 1])]
  }

  /** The `i`-th report is what the `i`-th call reports to the sale left by
      the calls before it. */
  lemma {:induction false} ReportsAt(s: Sale, calls: seq<Call>, i: nat)
    requires i < |calls|
    ensures Reports(s, calls)[i] == Report(Run(s, calls[..i]), calls[i])
    decreases |calls|
  {
    var prefix := calls[..|calls| - 1];
    if i < |prefix| {
      ReportsAt(s, prefix, i);
      assert prefix[..i] == calls[..i];
    } else {
      assert prefix == calls[..i];
    }
  }

  /** One call keeps the invariant, keeps the contribution tokens in
      existence constant, never lowers the amount raised and keeps the
      configuration except for the start date `open` sets. */
  lemma ApplyPreserves(s: Sale, call: Call)
    requires Valid(s)
    ensures var s' := Apply(s, call);
      && Valid(s')
      && Sum(s'.contributionBalance) + s'.reserve == Sum(s.contributionBalance) + s.reserve
      && s.totalRaised <= s'.totalRaised
      && s'.cfg.exchangeRate == s.cfg.exchangeRate
  {
    match call
    case OpenCall(now) =>
      if Open(s, now).Success? { OpenPreservesValid(s, now); }
    case ContributeCall(c, value, now) =>
      if Contribute(s, c, value, now).Success? {
        ContributePreservesValid(s, c, value, now);
        ContributeConserves(s, c, value, now);
      }
    case RefundCall(c, now) =>
      if Refund(s, c, now).Success? {
        RefundPreservesValid(s, c, now);
        RefundConserves(s, c, now);
      }
  }

  /** Any run keeps the invariant: in particular the project-token supply
      always equals the conversion of the contribution tokens the sale
      holds, and no contribution token is created or lost. */
  lemma {:induction false} RunPreserves(s: Sale, calls: seq<Call>)
    requires Valid(s)
    ensures var s' := Run(s, calls);
      && Valid(s')
      && Sum(s'.contributionBalance) + s'.reserve == Sum(s.contributionBalance) + s.reserve
      && s.totalRaised <= s'.totalRaised
      && s'.projectSupply == Conversion(s'.cfg, s'.reserve)
    decreases |calls|
  {
    if calls != [] {
      var prefix := calls[..|calls| - 1];
      RunPreserves(s, prefix);
      ApplyPreserves(Run(s, prefix), calls[|calls| - 1]);
    }
  }

  /** Once the sale has an outcome at time `t`, a call made at or after `t`
      changes neither the configuration nor the amount raised, keeps a zero
      entry at zero, and while refunding a refund of a zero entry reports
      NothingToRefund. */
  lemma ApplyAfterOutcome(s: Sale, call: Call, t: Time, c: Address)
    requires Rank(State(s, t)) == 2 && t <= call.now
    ensures var s' := Apply(s, call);
      && s'.cfg == s.cfg && s'.totalRaised == s.totalRaised
      && (Get(s.contributions, c) == 0 ==> Get(s'.contributions, c) == 0)
    ensures State(s, t) == Refunding && Get(s.contributions, c) == 0 &&
            call.RefundCall? && call.contributor == c ==>
              Report(s, call) == Rejected(NothingToRefund)
  {
    StateMonotoneInTime(s.cfg, t, call.now, s.totalRaised);
  }

  /** An outcome is final: after the sale reaches Refunding or GoalReached at
      time `t`, no run of calls made at or after `t` changes the
      configuration or the amount raised, so the state read at any time from
      `t` on stays what it was, and a contributor with nothing outstanding
      keeps nothing outstanding. */
  lemma {:induction false} OutcomeIsFinal(s: Sale, calls: seq<Call>, t: Time, c: Address)
    requires Rank(State(s, t)) == 2
    requires forall i :: 0 <= i < |calls| ==> t <= calls[i].now
    ensures var s' := Run(s, calls);
      && s'.cfg == s.cfg && s'.totalRaised == s.totalRaised
      && (forall t' :: t <= t' ==> State(s', t') == State(s, t))
      && (Get(s.contributions, c) == 0 ==> Get(s'.contributions, c) == 0)
    decreases |calls|
  {
    if calls != [] {
      var prefix := calls[..|calls| - 1];
      OutcomeIsFinal(s, prefix, t, c);
      ApplyAfterOutcome(Run(s, prefix), calls[|calls| - 1], t, c);
    }
    forall t' | t <= t' ensures State(Run(s, calls), t') == State(s, t) {
      StateMonotoneInTime(s.cfg, t, t', s.totalRaised);
    }
  }

  /** A contributor with nothing outstanding when the sale starts refunding
      is never refunded by any later call: each such refund reports
      NothingToRefund. In particular a contributor is refunded at most once. */
  lemma NeverRefundedAgain(s: Sale, calls: seq<Call>, t: Time, c: Address, i: nat)
    requires State(s, t) == Refunding && Get(s.contributions, c) == 0
    requires forall j :: 0 <= j < |calls| ==> t <= calls[j].now
    requires i < |calls| && calls[i] == RefundCall(c, calls[i].now)
    ensures Reports(s, calls)[i] == Rejected(NothingToRefund)
  {
    ReportsAt(s, calls, i);
    OutcomeIsFinal(s, calls[..i], t, c);
    ApplyAfterOutcome(Run(s, calls[..i]), calls[i], t, c);
  }

  /** Runs the calls one at a time, logging what each one reports. */
  method Execute(s: Sale, calls: seq<Call>) returns (s': Sale, log: seq<Outcome>)
    requires Valid(s)
    ensures s' == Run(s, calls)
    ensures |log| == |calls|
    ensures log == Reports(s, calls)
    ensures Valid(s')
    ensures Sum(s'.contributionBalance) + s'.reserve == Sum(s.contributionBalance) + s.reserve
    ensures s.totalRaised <= s'.totalRaised
  {
    s' := s;
    log := [];
    var i := 0;
    while i < |calls|
      invariant 0 <= i <= |calls|
      invariant s' == Run(s, calls[..i])
      invariant |log| == i
      invariant log == Reports(s, calls[..i])
    {
      assert calls[..i + 1][..i] == calls[..i];
      assert Run(s, calls[..i + 1]) == Apply(Run(s, calls[..i]), calls[i]);
      log := log + [Report(s', calls[i])];
      s' := Apply(s', calls[i]);
      i := i + 1;
    }
    assert calls[..|calls|] == calls;
    RunPreserves(s, calls);
  }
}
