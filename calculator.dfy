/**
 * The fee and conversion arithmetic of `WorkHoursCalculator`
 * (Grinvo/WorkHoursCalculator.swift). The calculator is a stub: it assumes a
 * fixed 160-hour month, converts at the override rate or a default one, and
 * deducts one combined withdraw fee.
 */
module Calculator {
  import opened Wrappers
  import opened Models

  /** Hours assumed for every month by the stub. */
  const StubMonthHours: real := 160.0
  /** BRL per USD used when no override rate is given. */
  const DefaultFxRate: real := 5.40

  /** The `(fees:, net:)` tuple returned by `calculateWithdraw`. */
  datatype WithdrawBreakdown = WithdrawBreakdown(fees: real, net: real)

  /**
   * `calculateWithdraw`: a percentage fee (withdraw % plus IOF %) on the
   * converted amount plus a fixed BRL fee; the net is what remains.
   */
  function CalculateWithdraw(conversionNet: real, withdrawFeePct: real, iofPct: real, withdrawFeeBrl: real)
    : (w: WithdrawBreakdown)
    // the combined percentage is the withdraw part and the IOF part charged separately
    ensures w.fees == conversionNet * withdrawFeePct / 100.0 + conversionNet * iofPct / 100.0 + withdrawFeeBrl
    // nothing is lost or created: the fees and the net split the converted amount
    ensures w.fees + w.net == conversionNet
  {
    var pctTotal := (withdrawFeePct + iofPct) / 100.0;
    var withdrawFees := conversionNet * pctTotal + withdrawFeeBrl;
    WithdrawBreakdown(withdrawFees, conversionNet - withdrawFees)
  }

  /** With every fee input at zero nothing is deducted. */
  lemma WithdrawWithoutFees(conversionNet: real)
    ensures CalculateWithdraw(conversionNet, 0.0, 0.0, 0.0) == WithdrawBreakdown(0.0, conversionNet)
  {
  }

  /**
   * For a non-negative converted amount the fees never decrease when any of
   * the three fee inputs increases, and the net never increases.
   */
  lemma WithdrawFeesMonotone(conversionNet: real, pct: real, iof: real, fixed: real,
                             pct': real, iof': real, fixed': real)
    requires conversionNet >= 0.0
    requires pct <= pct' && iof <= iof' && fixed <= fixed'
    ensures CalculateWithdraw(conversionNet, pct, iof, fixed).fees <= CalculateWithdraw(conversionNet, pct', iof', fixed').fees
    ensures CalculateWithdraw(conversionNet, pct, iof, fixed).net >= CalculateWithdraw(conversionNet, pct', iof', fixed').net
  {
    var d := (pct' + iof') / 100.0 - (pct + iof) / 100.0;
    assert d >= 0.0;
    assert conversionNet * d >= 0.0;
    assert conversionNet * ((pct' + iof') / 100.0) == conversionNet * ((pct + iof) / 100.0) + conversionNet * d;
  }

  /** The record `calculate` builds (without its formatted summary text). */
  datatype CalculatorResult = CalculatorResult(
    grossUsd: real,
    netUsd: real,
    convertedBrl: real,
    withdrawFeesBrl: real,
    withdrawNetBrl: real)

  /** The rate `calculate` converts at: the override when present, otherwise 5.40. */
  function EffectiveFxRate(options: WorkHoursOptions): (rate: real)
    ensures options.fxRate.Some? ==> rate == options.fxRate.value
    ensures options.fxRate.None? ==> rate == DefaultFxRate
  {
    options.fxRate.GetOr(DefaultFxRate)
  }

  /**
   * `calculate`: gross USD for 160 hours, no USD deduction, conversion to BRL,
   * then the withdraw fees on the converted amount. The three withdraw inputs
   * are parameters because `WorkHoursOptions` does not carry them.
   */
  function Calculate(options: WorkHoursOptions, withdrawFeePct: real, iofPct: real, withdrawFeeBrl: real)
    : (r: CalculatorResult)
    ensures r.netUsd == r.grossUsd == StubMonthHours * options.hourlyRate
    ensures r.convertedBrl == StubMonthHours * options.hourlyRate * EffectiveFxRate(options)
    ensures WithdrawBreakdown(r.withdrawFeesBrl, r.withdrawNetBrl)
            == CalculateWithdraw(r.convertedBrl, withdrawFeePct, iofPct, withdrawFeeBrl)
  {
    var grossUsd := StubMonthHours * options.hourlyRate;
    var netUsd := grossUsd;
    var fxRate := options.fxRate.GetOr(DefaultFxRate);
    var convertedBrl := netUsd * fxRate;
    var withdraw := CalculateWithdraw(convertedBrl, withdrawFeePct, iofPct, withdrawFeeBrl);
    CalculatorResult(grossUsd, netUsd, convertedBrl, withdraw.fees, withdraw.net)
  }

  /** Without an override, 160 hours at 5.40 BRL/USD: 864 BRL per USD of hourly rate. */
  lemma CalculateDefaultRate(options: WorkHoursOptions, withdrawFeePct: real, iofPct: real, withdrawFeeBrl: real)
    requires options.fxRate == None
    ensures Calculate(options, withdrawFeePct, iofPct, withdrawFeeBrl).convertedBrl == 864.0 * options.hourlyRate
  {
  }

  /**
   * The stub reads only the hourly rate and the FX override: the month, the
   * provider percentages, the label, the mode and the Christmas Eve flag do
   * not change the result.
   */
  lemma CalculateReadsOnlyRateAndOverride(a: WorkHoursOptions, b: WorkHoursOptions,
                                       withdrawFeePct: real, iofPct: real, withdrawFeeBrl: real)
    requires a.hourlyRate == b.hourlyRate && a.fxRate == b.fxRate
    ensures Calculate(a, withdrawFeePct, iofPct, withdrawFeeBrl) == Calculate(b, withdrawFeePct, iofPct, withdrawFeeBrl)
  {
  }
}
