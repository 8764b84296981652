/**
 The sale parameters fixed at initialisation, and the conversion from
 contribution-token amounts to project-token amounts.
 */
module HatchConfig {

  /** Seconds on the sale's clock. */
  type Time = nat

  /** Contributors, the sale and every other token holder. */
  type Address = nat

  /** `startDate` zero means "not set yet": the sale then waits for `open`. */
  const Unset: Time := 0

  datatype Config = Config(
    startDate: Time,        // start of the funding period, `Unset` until opened
    period: nat,            // length of the funding period
    minGoal: nat,           // total to raise for the sale to succeed
    exchangeRate: nat,      // project tokens issued per contribution token
    cliffPeriod: nat,       // vesting cliff, counted from `startDate`
    completePeriod: nat     // vesting completion, counted from `startDate`
  )

  /** The project tokens issued for `value` contribution tokens; used both to
      mint on a purchase and to size the burn on a refund. */
  function Conversion(cfg: Config, value: nat): nat
  {
    value * cfg.exchangeRate
  }

  /** Two purchases issue what one purchase of their sum would. */
  lemma ConversionAdditive(cfg: Config, a: nat, b: nat)
    ensures Conversion(cfg, a + b) == Conversion(cfg, a) + Conversion(cfg, b)
  {
  }

  /** A larger contribution never yields fewer project tokens. */
  lemma ConversionMonotone(cfg: Config, a: nat, b: nat)
    requires a <= b
    ensures Conversion(cfg, a) <= Conversion(cfg, b)
  {
  }
}
