/**
 * The deterministic state logic of `InvoiceViewModel`
 * (Grinvo/InvoiceViewModel.swift): the month/year picker options, the
 * bounds-checked selection accessors, the mapping from the form's text to a
 * calculation request, and the latest-request-wins gate that decides which
 * calculation may commit its result.
 */
module ViewModel {
  import opened Wrappers
  import opened Models
  import Calculator

  // ---------------------------------------------------------------------------
  // Month/year options
  // ---------------------------------------------------------------------------

  /** The `pt_BR` month symbols, January first. */
  const MonthSymbols: seq<string> := [
    "janeiro", "fevereiro", "março", "abril", "maio", "junho",
    "julho", "agosto", "setembro", "outubro", "novembro", "dezembro"]

  /** Label shown when the selected index is out of range. */
  const UnselectedLabel: string := "Período selecionado"

  /** Number of picker entries: three years of twelve months. */
  const OptionCount: nat := 36

  /** Decimal digits of a natural number, as string interpolation prints it. */
  function NatToString(n: nat): (s: string)
    ensures |s| > 0
    decreases n
  {
    var digit := "0123456789"[n % 10];
    if n < 10 then [digit] else NatToString(n / 10) + [digit]
  }

  /** An `Int` as string interpolation prints it: a minus sign for negatives. */
  function IntToString(i: int): string
  {
    if i < 0 then "-" + NatToString(-i) else NatToString(i)
  }

  /** One picker entry: its label and the first day of its month. */
  datatype MonthYearOption = MonthYearOption(labelText: string, date: Date)

  /** `"<month name> - <year>"`. */
  function MonthLabel(month: int, year: int): string
    requires 1 <= month <= 12
  {
    MonthSymbols[month - 1] + " - " + IntToString(year)
  }

  /** An entry whose label names its own date's month and year. */
  predicate Labelled(o: MonthYearOption)
  {
    1 <= o.date.month <= 12 && o.labelText == MonthLabel(o.date.month, o.date.year)
  }

  /** Strictly later in the calendar. */
  predicate DateAfter(a: Date, b: Date)
  {
    a.year > b.year || (a.year == b.year && (a.month > b.month || (a.month == b.month && a.day > b.day)))
  }

  /**
   * The date at position `k` of the list built around year `y`: positions
   * 0..11 are December..January of y+1, 12..23 of y, 24..35 of y-1.
   */
  function DateAt(y: int, k: int): Date
    requires 0 <= k < OptionCount
  {
    Date(y + 1 - k / 12, 12 - k % 12, 1)
  }

  /** The list built around year `y`: the dates above, each with its own label. */
  ghost predicate OptionsAround(options: seq<MonthYearOption>, y: int)
  {
    |options| == OptionCount &&
    forall k :: 0 <= k < OptionCount ==> options[k].date == DateAt(y, k) && Labelled(options[k])
  }

  lemma DivModTwelve(q: int, r: int)
    requires 0 <= r < 12
    ensures (12 * q + r) / 12 == q && (12 * q + r) % 12 == r
  {
  }

  /** Later positions hold strictly earlier months. */
  lemma DateAtDescending(y: int, i: int, j: int)
    requires 0 <= i < j < OptionCount
    ensures DateAfter(DateAt(y, i), DateAt(y, j))
  {
    DivModTwelve(i / 12, i % 12);
    DivModTwelve(j / 12, j % 12);
  }

  /** The date at position `j` of the list as appended: years ascending, January first. */
  function AppendedDate(y: int, j: int): Date
    requires 0 <= j < OptionCount
  {
    Date(y - 1 + j / 12, j % 12 + 1, 1)
  }

  /** Position `j` of `appended` holds its appended-order date, correctly labelled. */
  predicate WellPlaced(appended: seq<MonthYearOption>, y: int, j: int)
    requires 0 <= j < |appended| && j < OptionCount
  {
    appended[j].date == AppendedDate(y, j) && Labelled(appended[j])
  }

  /** Appending the entry that belongs at the next position keeps every position well placed. */
  lemma AppendWellPlaced(appended: seq<MonthYearOption>, y: int, entry: MonthYearOption)
    requires |appended| < OptionCount
    requires forall j :: 0 <= j < |appended| ==> WellPlaced(appended, y, j)
    requires entry.date == AppendedDate(y, |appended|) && Labelled(entry)
    ensures forall j :: 0 <= j < |appended| + 1 ==> WellPlaced(appended + [entry], y, j)
  {
    forall j | 0 <= j < |appended| + 1
      ensures WellPlaced(appended + [entry], y, j)
    {
      if j < |appended| {
        assert WellPlaced(appended, y, j);
      }
    }
  }

  /** Appending month `month` of the `n`-th year lands at position `12 * n + month - 1`. */
  lemma AppendedPosition(y: int, n: int, month: int)
    requires 0 <= n < 3 && 1 <= month <= 12
    ensures AppendedDate(y, 12 * n + month - 1) == Date(y - 1 + n, month, 1)
  {
    DivModTwelve(n, month - 1);
  }

  /** Position `i` of the reversed list is position `35 - i` of the appended one. */
  lemma ReversedPosition(y: int, i: int)
    requires 0 <= i < OptionCount
    ensures AppendedDate(y, OptionCount - 1 - i) == DateAt(y, i)
  {
    DivModTwelve(2 - i / 12, 11 - i % 12);
  }

  /** Reversing the appended list yields the list built around `y`. */
  lemma ReversalIsNewestFirst(y: int, appended: seq<MonthYearOption>, options: seq<MonthYearOption>)
    requires |appended| == OptionCount && |options| == OptionCount
    requires forall j :: 0 <= j < OptionCount ==> WellPlaced(appended, y, j)
    requires forall i :: 0 <= i < OptionCount ==> options[i] == appended[OptionCount - 1 - i]
    ensures OptionsAround(options, y)
  {
    forall i | 0 <= i < OptionCount
      ensures options[i].date == DateAt(y, i) && Labelled(options[i])
    {
      ReversedPosition(y, i);
      assert WellPlaced(appended, y, OptionCount - 1 - i);
    }
  }

  /** The list built around `y` is strictly newest first. */
  lemma OptionsDescending(y: int, options: seq<MonthYearOption>)
    requires OptionsAround(options, y)
    ensures forall i, j :: 0 <= i < j < |options| ==> DateAfter(options[i].date, options[j].date)
  {
    forall i, j | 0 <= i < j < |options|
      ensures DateAfter(options[i].date, options[j].date)
    {
      DateAtDescending(y, i, j);
    }
  }

  /**
   * `buildMonthYearOptions`: one entry per month of the years before, of and
   * after `around`'s year, appended year by year and month by month, then
   * sorted newest first. The appended list is strictly ascending, so that
   * sort is its reversal, which is what the second loop performs.
   */
  method BuildMonthYearOptions(around: Date) returns (options: seq<MonthYearOption>)
    ensures OptionsAround(options, around.year)
    ensures forall i, j :: 0 <= i < j < |options| ==> DateAfter(options[i].date, options[j].date)
  {
    var currentYear := around.year;
    var appended: seq<MonthYearOption> := [];
    // the years y-1, y and y+1
    for year := currentYear - 1 to currentYear + 2
      invariant |appended| == 12 * (year - currentYear + 1)
      invariant forall j :: 0 <= j < |appended| ==> WellPlaced(appended, currentYear, j)
    {
      for month := 1 to 13
        invariant |appended| == 12 * (year - currentYear + 1) + month - 1
        invariant forall j :: 0 <= j < |appended| ==> WellPlaced(appended, currentYear, j)
      {
        var entry := MonthYearOption(MonthLabel(month, year), Date(year, month, 1));
        AppendedPosition(currentYear, year - currentYear + 1, month);
        AppendWellPlaced(appended, currentYear, entry);
        appended := appended + [entry];
      }
    }

    options := [];
    var k := |appended|;
    while k > 0
      invariant 0 <= k <= |appended| && |options| == |appended| - k
      invariant forall i :: 0 <= i < |options| ==> options[i] == appended[|appended| - 1 - i]
    {
      options := options + [appended[k - 1]];
      k := k - 1;
    }
    ReversalIsNewestFirst(currentYear, appended, options);
    OptionsDescending(currentYear, options);
  }

  /**
   * The list covers each month of years y-1..y+1 (at position
   * `(y + 1 - year) * 12 + 12 - month`), starts with December of y+1 and
   * ends with January of y-1.
   */
  lemma OptionsCoverThreeYears(options: seq<MonthYearOption>, y: int, year: int, month: int)
    requires OptionsAround(options, y)
    requires y - 1 <= year <= y + 1 && 1 <= month <= 12
    ensures var k := (y + 1 - year) * 12 + 12 - month;
      && 0 <= k < OptionCount && options[k].date == Date(year, month, 1)
      && options[k].labelText == MonthLabel(month, year)
    ensures options[0].date == Date(y + 1, 12, 1) && options[OptionCount - 1].date == Date(y - 1, 1, 1)
  {
    var k := (y + 1 - year) * 12 + 12 - month;
    DivModTwelve(y + 1 - year, 12 - month);
    assert options[k].date == DateAt(y, k) && Labelled(options[k]);
  }

  // ---------------------------------------------------------------------------
  // Selection
  // ---------------------------------------------------------------------------

  /** `Calendar.isDate(_:equalTo:toGranularity: .month)`. */
  predicate SameMonth(a: Date, b: Date)
  {
    a.year == b.year && a.month == b.month
  }

  /** `firstIndex` of an entry in the same month as `date`, searching from `from`. */
  function FirstIndexSameMonth(options: seq<MonthYearOption>, date: Date, from: nat): (r: Option<nat>)
    requires from <= |options|
    decreases |options| - from
    ensures r.Some? ==>
      && from <= r.value < |options| && SameMonth(options[r.value].date, date)
      && forall j :: from <= j < r.value ==> !SameMonth(options[j].date, date)
    ensures r.None? ==> forall j :: from <= j < |options| ==> !SameMonth(options[j].date, date)
  {
    if from == |options| then None
    else if SameMonth(options[from].date, date) then Some(from)
    else FirstIndexSameMonth(options, date, from + 1)
  }

  /** The index `init` selects: the first entry in `date`'s month, or 0 when there is none. */
  function DefaultIndex(options: seq<MonthYearOption>, date: Date): (i: nat)
    ensures (exists k :: 0 <= k < |options| && SameMonth(options[k].date, date)) ==>
      && i < |options| && SameMonth(options[i].date, date)
      && forall j :: 0 <= j < i ==> !SameMonth(options[j].date, date)
    ensures (forall k :: 0 <= k < |options| ==> !SameMonth(options[k].date, date)) ==> i == 0
  {
    FirstIndexSameMonth(options, date, 0).GetOr(0)
  }

  /** For the list built around `date`, the default selection is `date`'s own month, at index `24 - month`. */
  lemma DefaultIndexAround(options: seq<MonthYearOption>, date: Date)
    requires OptionsAround(options, date.year) && 1 <= date.month <= 12
    ensures DefaultIndex(options, date) == 24 - date.month
    ensures options[DefaultIndex(options, date)].date == Date(date.year, date.month, 1)
  {
    var y, m := date.year, date.month;
    var k := 24 - m;
    OptionsCoverThreeYears(options, y, y, m);
    assert SameMonth(options[k].date, date);
    forall j | 0 <= j < k
      ensures !SameMonth(options[j].date, date)
    {
      assert options[j].date == DateAt(y, j);
      if j < 12 {
        DivModTwelve(0, j);
      } else {
        DivModTwelve(1, j - 12);
      }
    }
  }

  /** `selectedMonthYearLabel`: the selected entry's label, or a placeholder when out of range. */
  function SelectedMonthYearLabel(options: seq<MonthYearOption>, index: int): (s: string)
    ensures 0 <= index < |options| ==> s == options[index].labelText
    ensures !(0 <= index < |options|) ==> s == UnselectedLabel
  {
    if 0 <= index < |options| then options[index].labelText else UnselectedLabel
  }

  /** `selectedMonthDate`: the selected entry's date, or the current date `now` when out of range. */
  function SelectedMonthDate(options: seq<MonthYearOption>, index: int, now: Date): (date: Date)
    ensures 0 <= index < |options| ==> date == options[index].date
    ensures !(0 <= index < |options|) ==> date == now
  {
    if 0 <= index < |options| then options[index].date else now
  }

  /**
   * On the built list the two accessors agree: an in-range selection's label
   * names the month and year of its date, and the default selection is the
   * first day of the current month.
   */
  lemma SelectionConsistent(options: seq<MonthYearOption>, date: Date, index: int, now: Date)
    requires OptionsAround(options, date.year) && 1 <= date.month <= 12
    ensures 0 <= index < |options| ==>
      var d := SelectedMonthDate(options, index, now);
      1 <= d.month <= 12 && d.day == 1 && SelectedMonthYearLabel(options, index) == MonthLabel(d.month, d.year)
    ensures SelectedMonthDate(options, DefaultIndex(options, date), now) == Date(date.year, date.month, 1)
    ensures SelectedMonthYearLabel(options, DefaultIndex(options, date)) == MonthLabel(date.month, date.year)
  {
    DefaultIndexAround(options, date);
    if 0 <= index < |options| {
      assert options[index].date == DateAt(date.year, index) && Labelled(options[index]);
    }
  }

  // ---------------------------------------------------------------------------
  // From form text to a calculation request
  // ---------------------------------------------------------------------------

  /**
   * What `generateInvoice` hands to the calculator: the options plus the two
   * provider switches, which it passes as extra arguments that
   * `WorkHoursOptions.init` does not declare.
   */
  datatype CalculationRequest = CalculationRequest(options: WorkHoursOptions, includeNomad: bool, includeHiglobe: bool)

  /**
   * The validation and mapping in `generateInvoice`. `parse` is `Double(String)`.
   * The hourly rate must parse, and so must each enabled fee; a disabled fee
   * counts as 0; an empty override means no override (a non-empty one that
   * does not parse also means none).
   */
  function InputsToRequest(parse: string -> Option<real>, month: Date, hourlyRate: string,
                           nomadFeePct: string, higlobeFeePct: string, fxRateOverride: string,
                           isNomadEnabled: bool, isHiglobeEnabled: bool): (r: Option<CalculationRequest>)
    ensures r.None? <==>
      parse(hourlyRate).None? || (isNomadEnabled && parse(nomadFeePct).None?)
      || (isHiglobeEnabled && parse(higlobeFeePct).None?)
    ensures r.Some? ==>
      var o := r.value.options;
      && o.month == month && o.hourlyRate == parse(hourlyRate).value
      && o.nomadFeePct == (if isNomadEnabled then parse(nomadFeePct).value else 0.0)
      && o.higlobeFeePct == (if isHiglobeEnabled then parse(higlobeFeePct).value else 0.0)
      && o.fxRate == (if fxRateOverride == "" then None else parse(fxRateOverride))
      && o.fxLabel == None && o.mode == Both && o.includeXmasEve
      && r.value.includeNomad == isNomadEnabled && r.value.includeHiglobe == isHiglobeEnabled
  {
    if parse(hourlyRate).None?
       || !(!isNomadEnabled || parse(nomadFeePct).Some?)
       || !(!isHiglobeEnabled || parse(higlobeFeePct).Some?)
    then None
    else
      var nomad := if isNomadEnabled then parse(nomadFeePct).GetOr(0.0) else 0.0;
      var higlobe := if isHiglobeEnabled then parse(higlobeFeePct).GetOr(0.0) else 0.0;
      var fxOverride := if fxRateOverride == "" then None else parse(fxRateOverride);
      Some(CalculationRequest(
        NewWorkHoursOptions(month, parse(hourlyRate).value, nomad, higlobe, fxOverride, None, Both, true),
        isNomadEnabled, isHiglobeEnabled))
  }

  /**
   * A disabled fee's text is never read: changing it changes neither whether
   * the inputs are accepted nor the request they map to; and an empty
   * override makes the calculator convert at its default rate.
   */
  lemma DisabledFeeIgnored(parse: string -> Option<real>, month: Date, hourlyRate: string,
                           nomadFeePct: string, otherNomadFeePct: string, higlobeFeePct: string,
                           otherHiglobeFeePct: string, fxRateOverride: string,
                           isNomadEnabled: bool, isHiglobeEnabled: bool)
    ensures !isNomadEnabled ==>
      InputsToRequest(parse, month, hourlyRate, nomadFeePct, higlobeFeePct, fxRateOverride, false, isHiglobeEnabled)
      == InputsToRequest(parse, month, hourlyRate, otherNomadFeePct, higlobeFeePct, fxRateOverride, false, isHiglobeEnabled)
    ensures !isHiglobeEnabled ==>
      InputsToRequest(parse, month, hourlyRate, nomadFeePct, higlobeFeePct, fxRateOverride, isNomadEnabled, false)
      == InputsToRequest(parse, month, hourlyRate, nomadFeePct, otherHiglobeFeePct, fxRateOverride, isNomadEnabled, false)
  {
  }

  /** With an empty override field an accepted request is converted at the calculator's default rate. */
  lemma EmptyOverrideUsesDefaultRate(parse: string -> Option<real>, month: Date, hourlyRate: string,
                                     nomadFeePct: string, higlobeFeePct: string,
                                     isNomadEnabled: bool, isHiglobeEnabled: bool)
    ensures var r := InputsToRequest(parse, month, hourlyRate, nomadFeePct, higlobeFeePct, "", isNomadEnabled, isHiglobeEnabled);
      r.Some? ==> Calculator.EffectiveFxRate(r.value.options) == Calculator.DefaultFxRate
  {
  }

  // ---------------------------------------------------------------------------
  // The view model and its request gate
  // ---------------------------------------------------------------------------

  /**
   * `InvoiceViewModel`. Every edit of an input field schedules a calculation
   * under a fresh request ID (`calculationSequence` + 1). A calculation runs in
   * two steps around the calculator's `await`: `BeginGeneration` validates
   * the inputs and raises the loading flag, `CompleteGeneration` commits the
   * calculator's result. Both touch the published state only when their ID is
   * still the latest one, so the result of the most recent request wins.
   */
  class InvoiceViewModel {
    var selectedMonthYearIndex: int
    var hourlyRate: string
    var nomadFeePct: string
    var higlobeFeePct: string
    var fxRateOverride: string
    var isNomadEnabled: bool
    var isHiglobeEnabled: bool

    var result: Option<WorkHoursResult>
    var isLoading: bool
    var hasCalculatedOnce: bool

    const monthYearOptions: seq<MonthYearOption>
    var calculationSequence: nat
    /** `Double(String)`, which the model does not define. */
    const parseDouble: string -> Option<real>

    /** `init`: the picker is built around `date` and preselects `date`'s month; both providers start enabled. */
    constructor (date: Date, parseDouble: string -> Option<real>, hourlyRate: string := "15",
                 nomadFeePct: string := "1.0", higlobeFeePct: string := "0.3", fxRateOverride: string := "")
      ensures this.hourlyRate == hourlyRate && this.nomadFeePct == nomadFeePct
      ensures this.higlobeFeePct == higlobeFeePct && this.fxRateOverride == fxRateOverride
      ensures isNomadEnabled && isHiglobeEnabled && this.parseDouble == parseDouble
      ensures OptionsAround(monthYearOptions, date.year)
      ensures selectedMonthYearIndex == DefaultIndex(monthYearOptions, date)
      ensures result == None && !isLoading && !hasCalculatedOnce && calculationSequence == 0
    {
      this.hourlyRate := hourlyRate;
      this.nomadFeePct := nomadFeePct;
      this.higlobeFeePct := higlobeFeePct;
      this.fxRateOverride := fxRateOverride;
      isNomadEnabled := true;
      isHiglobeEnabled := true;
      this.parseDouble := parseDouble;
      var options := BuildMonthYearOptions(date);
      monthYearOptions := options;
      selectedMonthYearIndex := DefaultIndex(options, date);
      result := None;
      isLoading := false;
      hasCalculatedOnce := false;
      calculationSequence := 0;
    }

    /**
     * `scheduleAutoCalculation`: bump the sequence and use the new value as
     * the request ID, so IDs strictly increase and the newest is always the
     * current one.
     */
    method ScheduleAutoCalculation() returns (requestID: nat)
      modifies this`calculationSequence
      ensures calculationSequence == old(calculationSequence) + 1 && requestID == calculationSequence
    {
      calculationSequence := calculationSequence + 1;
      requestID := calculationSequence;
    }

    /** `handleResultTabAppear`: schedule a calculation only if none has ever committed. */
    method HandleResultTabAppear() returns (requestID: Option<nat>)
      modifies this`calculationSequence
      ensures old(hasCalculatedOnce) ==> requestID == None && calculationSequence == old(calculationSequence)
      ensures !old(hasCalculatedOnce) ==>
        calculationSequence == old(calculationSequence) + 1 && requestID == Some(calculationSequence)
    {
      if hasCalculatedOnce {
        return None;
      }
      var id := ScheduleAutoCalculation();
      requestID := Some(id);
    }

    /** The `didSet` of `selectedMonthYearIndex`. */
    method SetSelectedMonthYearIndex(value: int) returns (requestID: nat)
      modifies this`selectedMonthYearIndex, this`calculationSequence
      ensures selectedMonthYearIndex == value
      ensures calculationSequence == old(calculationSequence) + 1 && requestID == calculationSequence
    {
      selectedMonthYearIndex := value;
      requestID := ScheduleAutoCalculation();
    }

    /** The `didSet` of `hourlyRate`. */
    method SetHourlyRate(value: string) returns (requestID: nat)
      modifies this`hourlyRate, this`calculationSequence
      ensures hourlyRate == value
      ensures calculationSequence == old(calculationSequence) + 1 && requestID == calculationSequence
    {
      hourlyRate := value;
      requestID := ScheduleAutoCalculation();
    }

    /** The `didSet` of `nomadFeePct`. */
    method SetNomadFeePct(value: string) returns (requestID: nat)
      modifies this`nomadFeePct, this`calculationSequence
      ensures nomadFeePct == value
      ensures calculationSequence == old(calculationSequence) + 1 && requestID == calculationSequence
    {
      nomadFeePct := value;
      requestID := ScheduleAutoCalculation();
    }

    /** The `didSet` of `higlobeFeePct`. */
    method SetHiglobeFeePct(value: string) returns (requestID: nat)
      modifies this`higlobeFeePct, this`calculationSequence
      ensures higlobeFeePct == value
      ensures calculationSequence == old(calculationSequence) + 1 && requestID == calculationSequence
    {
      higlobeFeePct := value;
      requestID := ScheduleAutoCalculation();
    }

    /** The `didSet` of `fxRateOverride`. */
    method SetFxRateOverride(value: string) returns (requestID: nat)
      modifies this`fxRateOverride, this`calculationSequence
      ensures fxRateOverride == value
      ensures calculationSequence == old(calculationSequence) + 1 && requestID == calculationSequence
    {
      fxRateOverride := value;
      requestID := ScheduleAutoCalculation();
    }

    /** The `didSet` of `isNomadEnabled`. */
    method SetNomadEnabled(value: bool) returns (requestID: nat)
      modifies this`isNomadEnabled, this`calculationSequence
      ensures isNomadEnabled == value
      ensures calculationSequence == old(calculationSequence) + 1 && requestID == calculationSequence
    {
      isNomadEnabled := value;
      requestID := ScheduleAutoCalculation();
    }

    /** The `didSet` of `isHiglobeEnabled`. */
    method SetHiglobeEnabled(value: bool) returns (requestID: nat)
      modifies this`isHiglobeEnabled, this`calculationSequence
      ensures isHiglobeEnabled == value
      ensures calculationSequence == old(calculationSequence) + 1 && requestID == calculationSequence
    {
      isHiglobeEnabled := value;
      requestID := ScheduleAutoCalculation();
    }

    /**
     * `generateInvoice` up to the calculator call: map the inputs; if they do
     * not validate, a current request clears the result and the loading
     * flag; otherwise a current request raises the loading flag. A stale
     * request changes nothing. The returned request is what goes to the
     * calculator (None: nothing is calculated).
     */
    method BeginGeneration(calculationID: nat, now: Date) returns (request: Option<CalculationRequest>)
      modifies this`result, this`isLoading
      ensures request == InputsToRequest(parseDouble, SelectedMonthDate(monthYearOptions, selectedMonthYearIndex, now),
                                         hourlyRate, nomadFeePct, higlobeFeePct, fxRateOverride,
                                         isNomadEnabled, isHiglobeEnabled)
      ensures calculationID != calculationSequence ==> result == old(result) && isLoading == old(isLoading)
      ensures calculationID == calculationSequence && request.None? ==> result == None && !isLoading
      ensures calculationID == calculationSequence && request.Some? ==> result == old(result) && isLoading
    {
      request := InputsToRequest(parseDouble, SelectedMonthDate(monthYearOptions, selectedMonthYearIndex, now),
                                 hourlyRate, nomadFeePct, higlobeFeePct, fxRateOverride,
                                 isNomadEnabled, isHiglobeEnabled);
      if request.None? {
        if calculationID == calculationSequence {
          result := None;
          isLoading := false;
        }
        return;
      }
      if calculationID == calculationSequence {
        isLoading := true;
      }
    }

    /**
     * `generateInvoice` after the calculator returns: only the current
     * request commits its result, clears the loading flag and records that a
     * calculation has completed.
     */
    method CompleteGeneration(calculationID: nat, calculated: WorkHoursResult)
      modifies this`result, this`isLoading, this`hasCalculatedOnce
      ensures calculationID == calculationSequence ==> result == Some(calculated) && !isLoading && hasCalculatedOnce
      ensures calculationID != calculationSequence ==>
        result == old(result) && isLoading == old(isLoading) && hasCalculatedOnce == old(hasCalculatedOnce)
    {
      if calculationID == calculationSequence {
        result := Some(calculated);
        isLoading := false;
        hasCalculatedOnce := true;
      }
    }
  }

  /**
   * Two overlapping calculations: an edit arrives while the first is still
   * running. Whatever order they finish in, the published result is the
   * second one's.
   */
  method LatestRequestWins(vm: InvoiceViewModel, value: string, first: WorkHoursResult, second: WorkHoursResult,
                           secondFinishesFirst: bool)
    modifies vm
    ensures vm.result == Some(second) && !vm.isLoading && vm.hasCalculatedOnce
  {
    var id1 := vm.ScheduleAutoCalculation();
    var id2 := vm.SetHourlyRate(value);
    assert id1 < id2;
    if secondFinishesFirst {
      vm.CompleteGeneration(id2, second);
      vm.CompleteGeneration(id1, first);
    } else {
      vm.CompleteGeneration(id1, first);
      vm.CompleteGeneration(id2, second);
    }
  }
}
