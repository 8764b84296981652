/**
 The vesting schedule attached to every purchase, and the time-gated ACL
 oracle the sale exposes to the permission system.
 */
module VestingSchedule {
  import opened HatchConfig

  /** One vesting as the token manager records it for a purchase. */
  datatype Vesting = Vesting(amount: nat, start: Time, cliff: Time, complete: Time, revocable: bool)

  /** The completion date every vesting of the sale shares. */
  function VestingCompleteDate(cfg: Config): Time
  {
    cfg.startDate + cfg.completePeriod
  }

  /** A vesting whose dates are anchored to the sale's start date; the sale
      grants only revocable vestings. */
  predicate Anchored(cfg: Config, v: Vesting)
  {
    && v.start == cfg.startDate
    && v.cliff == cfg.startDate + cfg.cliffPeriod
    && v.complete == VestingCompleteDate(cfg)
    && v.revocable
  }

  /** The vesting granted for a purchase of `value` contribution tokens. */
  function Schedule(cfg: Config, value: nat): (v: Vesting)
    ensures Anchored(cfg, v)
    ensures v.amount == Conversion(cfg, value)
  {
    Vesting(Conversion(cfg, value), cfg.startDate, cfg.startDate + cfg.cliffPeriod,
            cfg.startDate + cfg.completePeriod, true)
  }

  /** The ACL oracle: the arguments of the permission query are ignored and
      the answer is whether the vesting completion date has been reached. */
  function CanPerform(cfg: Config, now: Time, who: Address, where: Address, what: seq<int>, how: seq<int>): bool
  {
    now >= VestingCompleteDate(cfg)
  }

  /** The oracle's answer does not depend on who asks or for what. */
  lemma CanPerformIgnoresArguments(cfg: Config, now: Time,
                                   who1: Address, where1: Address, what1: seq<int>, how1: seq<int>,
                                   who2: Address, where2: Address, what2: seq<int>, how2: seq<int>)
    ensures CanPerform(cfg, now, who1, where1, what1, how1) == CanPerform(cfg, now, who2, where2, what2, how2)
  {
  }

  /** The gate is closed one second before the completion date and open at
      that instant. */
  lemma CanPerformEdge(cfg: Config, who: Address, where: Address, what: seq<int>, how: seq<int>)
    ensures VestingCompleteDate(cfg) > 0 ==> !CanPerform(cfg, VestingCompleteDate(cfg) - 1, who, where, what, how)
    ensures CanPerform(cfg, VestingCompleteDate(cfg), who, where, what, how)
  {
  }

  /** Once open, the gate stays open. */
  lemma CanPerformMonotone(cfg: Config, t1: Time, t2: Time, who: Address, where: Address, what: seq<int>, how: seq<int>)
    requires t1 <= t2
    requires CanPerform(cfg, t1, who, where, what, how)
    ensures CanPerform(cfg, t2, who, where, what, how)
  {
  }

  /** The oracle opens exactly when an anchored vesting completes. */
  lemma CanPerformMatchesVesting(cfg: Config, v: Vesting, now: Time, who: Address, where: Address, what: seq<int>, how: seq<int>)
    requires Anchored(cfg, v)
    ensures CanPerform(cfg, now, who, where, what, how) <==> v.complete <= now
  {
  }
}
