/**
 * The value records shared by the calculator and the view model
 * (Grinvo/WorkHoursModels.swift).
 */
module Models {
  import opened Wrappers

  /** A calendar date; the model never needs a time of day. */
  datatype Date = Date(year: int, month: int, day: int)

  /** `WorkHoursOptions.Mode`: what the invoice should show. */
  datatype Mode = Conversion | Withdraw | Both

  /** `WorkHoursOptions`: the request handed to the calculator. Money is `real`. */
  datatype WorkHoursOptions = WorkHoursOptions(
    month: Date,
    hourlyRate: real,
    nomadFeePct: real,
    higlobeFeePct: real,
    fxRate: Option<real>,
    fxLabel: Option<string>,
    mode: Mode,
    includeXmasEve: bool)

  /**
   * `WorkHoursOptions.init`: the four leading arguments are mandatory, the
   * rest default to no FX override, no label, mode `.both` and Christmas Eve
   * included.
   */
  function NewWorkHoursOptions(
    month: Date,
    hourlyRate: real,
    nomadFeePct: real,
    higlobeFeePct: real,
    fxRate: Option<real> := None,
    fxLabel: Option<string> := None,
    mode: Mode := Both,
    includeXmasEve: bool := true): (o: WorkHoursOptions)
    ensures o.month == month && o.hourlyRate == hourlyRate
    ensures o.nomadFeePct == nomadFeePct && o.higlobeFeePct == higlobeFeePct
    ensures o.fxRate == fxRate && o.fxLabel == fxLabel
    ensures o.mode == mode && o.includeXmasEve == includeXmasEve
  {
    WorkHoursOptions(month, hourlyRate, nomadFeePct, higlobeFeePct, fxRate, fxLabel, mode, includeXmasEve)
  }

  /** Leaving out the optional arguments yields the documented defaults. */
  lemma WorkHoursOptionsDefaults(month: Date, hourlyRate: real, nomadFeePct: real, higlobeFeePct: real)
    ensures var o := NewWorkHoursOptions(month, hourlyRate, nomadFeePct, higlobeFeePct);
      o.fxRate == None && o.fxLabel == None && o.mode == Both && o.includeXmasEve
  {
  }

  /** `Mode` has exactly the three cases conversion, withdraw and both. */
  lemma ModeCases(m: Mode)
    ensures m == Conversion || m == Withdraw || m == Both
    ensures Conversion != Withdraw && Withdraw != Both && Conversion != Both
  {
  }

  /**
   * `WorkHoursResult`: the calculator's output as the view model stores it.
   * Per-provider amounts and the FX fields are optional; the fee percentages,
   * hour counts and `conversionGrossBrl` are always present.
   */
  datatype WorkHoursResult = WorkHoursResult(
    summaryText: string,
    grossUsd: real,
    netUsd: real,
    convertedBrl: real,
    nomadFeePct: real,
    nomadFeesBrl: Option<real>,
    nomadNetBrl: Option<real>,
    higlobeFeePct: real,
    higlobeFeesBrl: Option<real>,
    higlobeNetBrl: Option<real>,
    workDays: int,
    workHours: int,
    paidHolidays: int,
    holidayHours: int,
    totalHours: int,
    paidHolidayDates: seq<Date>,
    fxRate: Option<real>,
    fxSource: Option<string>,
    fxAsOf: Option<string>,
    conversionGrossBrl: real)

  /** The synthesised `Equatable` conformance: equal exactly when every field is equal. */
  lemma WorkHoursResultEquality(a: WorkHoursResult, b: WorkHoursResult)
    ensures a == b <==>
      && a.summaryText == b.summaryText && a.grossUsd == b.grossUsd
      && a.netUsd == b.netUsd && a.convertedBrl == b.convertedBrl
      && a.nomadFeePct == b.nomadFeePct && a.nomadFeesBrl == b.nomadFeesBrl
      && a.nomadNetBrl == b.nomadNetBrl && a.higlobeFeePct == b.higlobeFeePct
      && a.higlobeFeesBrl == b.higlobeFeesBrl && a.higlobeNetBrl == b.higlobeNetBrl
      && a.workDays == b.workDays && a.workHours == b.workHours
      && a.paidHolidays == b.paidHolidays && a.holidayHours == b.holidayHours
      && a.totalHours == b.totalHours && a.paidHolidayDates == b.paidHolidayDates
      && a.fxRate == b.fxRate && a.fxSource == b.fxSource
      && a.fxAsOf == b.fxAsOf && a.conversionGrossBrl == b.conversionGrossBrl
  {
  }
}
