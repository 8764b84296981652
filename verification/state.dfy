/**
 The sale's lifecycle state, derived afresh from the clock, the
 configuration and the amount raised; it is never stored.
 */
module SaleState {
  import opened HatchConfig

  datatype Phase = Pending | Funding | Refunding | GoalReached

  /** True once the start date is set and reached. */
  predicate Started(cfg: Config, now: Time)
  {
    cfg.startDate != Unset && cfg.startDate <= now
  }

  /** True once the funding period has elapsed. */
  predicate PeriodOver(cfg: Config, now: Time)
  {
    Started(cfg, now) && cfg.startDate + cfg.period <= now
  }

  /** The state of the sale at time `now` after `totalRaised` was raised. */
  function StateAt(cfg: Config, now: Time, totalRaised: nat): (p: Phase)
    ensures p == Pending <==> !Started(cfg, now)
    ensures p == Funding <==> Started(cfg, now) && !PeriodOver(cfg, now)
    ensures p == Refunding <==> PeriodOver(cfg, now) && totalRaised < cfg.minGoal
    ensures p == GoalReached <==> PeriodOver(cfg, now) && cfg.minGoal <= totalRaised
  {
    if cfg.startDate == Unset || now < cfg.startDate then Pending
    else if now < cfg.startDate + cfg.period then Funding
    else if totalRaised >= cfg.minGoal then GoalReached
    else Refunding
  }

  /** Position of a state in the lifecycle order Pending, Funding, outcome. */
  function Rank(p: Phase): nat
  {
    match p
    case Pending => 0
    case Funding => 1
    case Refunding => 2
    case GoalReached => 2
  }

  /** The sale is funding from its start through the period whatever has
      been raised, so reaching the minimum goal early does not end it. */
  lemma FundingIgnoresRaised(cfg: Config, now: Time, raised1: nat, raised2: nat)
    ensures StateAt(cfg, now, raised1) == Funding <==> StateAt(cfg, now, raised2) == Funding
  {
  }

  /** At the start date itself the sale is funding, whatever an earlier or
      later reading of the clock showed (a positive period assumed). */
  lemma FundingAtStart(cfg: Config, raised: nat)
    requires cfg.startDate != Unset && cfg.period > 0
    ensures StateAt(cfg, cfg.startDate, raised) == Funding
  {
  }

  /** After the period the outcome is decided by the minimum goal alone. */
  lemma OutcomeAfterPeriod(cfg: Config, now: Time, raised: nat)
    requires PeriodOver(cfg, now)
    ensures StateAt(cfg, now, raised) == Refunding <==> raised < cfg.minGoal
    ensures StateAt(cfg, now, raised) == GoalReached <==> cfg.minGoal <= raised
  {
  }

  /** With the amount raised fixed, time only moves the sale forward through
      the lifecycle, and an outcome once reached stays. */
  lemma StateMonotoneInTime(cfg: Config, t1: Time, t2: Time, raised: nat)
    requires t1 <= t2
    ensures Rank(StateAt(cfg, t1, raised)) <= Rank(StateAt(cfg, t2, raised))
    ensures Rank(StateAt(cfg, t1, raised)) == 2 ==> StateAt(cfg, t2, raised) == StateAt(cfg, t1, raised)
  {
  }

  /** Raising more can turn a refunding outcome into a reached goal but
      never the other way round. */
  lemma GoalReachedMonotoneInRaised(cfg: Config, now: Time, raised1: nat, raised2: nat)
    requires raised1 <= raised2
    requires StateAt(cfg, now, raised1) == GoalReached
    ensures StateAt(cfg, now, raised2) == GoalReached
  {
  }
}
