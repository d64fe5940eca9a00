# Grinvo invoice core, modelled in Dafny

Grinvo is an iOS app that prepares a monthly freelance invoice. It takes an
hourly USD rate, converts the USD total to BRL at a fetched or overridden
exchange rate, and shows what remains after the payout fees. This project
models the parts of the app that hold logic and proves properties about
them:

- **`Calculator`** (`calculator.dfy`): the fee and conversion arithmetic of
  `WorkHoursCalculator`. `calculateWithdraw` charges a combined percentage
  (withdraw % + IOF %) plus a fixed BRL fee on the converted amount.
  `calculate` is still a stub in the app. It assumes 160 hours, uses no USD
  deduction, converts at the override rate or 5.40 BRL/USD, and then
  applies the withdraw fee.
- **`FXRateService`** (`fx_rate_service.dfy`): how the USD→BRL rate is chosen.
  `FetchBCBPtax` walks back over 8 days of BCB/PTAX closing quotes and
  takes the first usable day. It prefers the sell quote to the buy quote.
  It swallows every error for a single day. `FetchAwesomeAPI` wraps every
  failure in `networkError`. `FetchRate` asks AwesomeAPI only when the BCB
  walk found nothing.
- **`ViewModel`** (`invoice_view_model.dfy`): the deterministic state logic
  of `InvoiceViewModel`. This covers the 36-entry month/year picker, the
  bounds-checked selection accessors, and the mapping from form text to a
  calculation request. It also covers the latest-request-wins gate: every
  edit bumps `calculationSequence`, and a calculation commits its result
  only while its request ID is still the current one.
- **`Models`** (`models.dfy`): the `WorkHoursOptions` and `WorkHoursResult`
  records and the defaults of `WorkHoursOptions.init`.
- `Wrappers` (`wrappers.dfy`): `Option` for Swift optionals and `Result`
  for `throws`.

Money is `real`. Calendar dates are `(year, month, day)` triples in the
view model and day ordinals in the rate service.

Inputs the model treats as parameters:
- `Double(String)` parsing is a function parameter `parse: string -> Option<real>`.
- Every network response is an input value, already reduced to the fields
  the code reads. A PTAX day is a failure or a status plus a body. An
  AwesomeAPI response has the same shape.
- The date descriptions, the timestamp formatter and the current date
  (`Date()`) are parameters too.

Where the source files disagree with each other, the model follows each
file's own code:
- `calculate` reads `withdrawFeePct`, `iofPct` and `withdrawFeeBrl`, which
  `WorkHoursOptions` does not declare. `Calculator.Calculate` takes them as
  explicit parameters.
- `calculate` builds a result with fields that `WorkHoursResult` does not
  have. The calculator therefore returns its own `CalculatorResult`
  record, and the view model stores a `WorkHoursResult` handed to it.
- The view model passes `includeNomad`/`includeHiglobe`, which
  `WorkHoursOptions.init` does not accept. They travel beside the options
  in `ViewModel.CalculationRequest`.

Where the code differs from what its comments and names suggest, the model
follows the code:
- The PTAX walk covers the given day and the 7 days before it (`0...7`,
  8 requests). Its doc comment speaks of the last 7 days.
- An AwesomeAPI failure surfaces as `networkError` wrapping the inner
  error. `noData` is declared but can never be thrown
  (`FXRateService.FetchRatePolicy`).
- A non-empty FX override that does not parse is silently treated as no
  override. The calculator then converts at 5.40, with no validation error.
- The calculator is a stub. It hard-codes 160 hours, and no holiday
  calendar or workday counting exists in these files.
- The only fee the calculator applies is one withdraw fee: two
  percentages plus a fixed amount. There are no per-provider fee
  schedules. The Nomad and Higlobe percentages reach `WorkHoursOptions`,
  but the calculator never reads them (`Calculator.CalculateReadsOnlyRateAndOverride`).

## Model

| member | source | states |
|---|---|---|
| `Models.NewWorkHoursOptions` | Grinvo/WorkHoursModels.swift:26-44 | `init` stores every argument unchanged in the field of the same name |
| `Models.WorkHoursOptionsDefaults` | Grinvo/WorkHoursModels.swift:31-34 | omitted arguments default to no FX rate, no label, mode `.both` and Christmas Eve included |
| `Models.ModeCases` | Grinvo/WorkHoursModels.swift:20-24 | `Mode` has exactly three distinct cases: conversion, withdraw, both |
| `Models.WorkHoursResultEquality` | Grinvo/WorkHoursModels.swift:47-70 | two results are equal exactly when all twenty fields are equal |
| `Calculator.CalculateWithdraw` | Grinvo/WorkHoursCalculator.swift:51-61 | the fee is the withdraw share plus the IOF share of the converted amount plus the fixed BRL fee; fee + net is exactly the converted amount |
| `Calculator.WithdrawWithoutFees` | Grinvo/WorkHoursCalculator.swift:57-60 | with both percentages and the fixed fee at zero, the fee is 0 and the net is the converted amount |
| `Calculator.WithdrawFeesMonotone` | Grinvo/WorkHoursCalculator.swift:57-59 | for a non-negative converted amount, raising any fee input never lowers the fee and never raises the net |
| `Calculator.EffectiveFxRate` | Grinvo/WorkHoursCalculator.swift:18 | the conversion rate is the override when one is given, otherwise 5.40 |
| `Calculator.Calculate` | Grinvo/WorkHoursCalculator.swift:12-49 | gross USD = net USD = 160 × hourly rate; converted BRL = 160 × hourly rate × effective rate; the withdraw fields are `calculateWithdraw` of the converted amount |
| `Calculator.CalculateDefaultRate` | Grinvo/WorkHoursCalculator.swift:16-19 | without an override the converted amount is 864 × hourly rate |
| `Calculator.CalculateReadsOnlyRateAndOverride` | Grinvo/WorkHoursCalculator.swift:12-26 | the stub's result depends only on the hourly rate, the FX override and the withdraw inputs; month, provider percentages, mode and Christmas Eve flag do not change it |
| `FXRateService.PtaxDayRate` | Grinvo/FXRateService.swift:53-91 | a day yields a rate exactly when it answered 200 with a non-empty `value` list whose first entry has a sell or buy quote; the sell quote wins; source is "BCB/PTAX"; asOf is `dataHoraCotacao` or the target date's description |
| `FXRateService.FirstUsableOffset` | Grinvo/FXRateService.swift:36-94 | the offset found is the smallest of 0..7 whose day yields a rate; none is found only when all eight days fail |
| `FXRateService.FetchBCBPtax` | Grinvo/FXRateService.swift:33-95 | returns the rate of the newest usable day among `date`, `date-1`, …, `date-7`; requests exactly those days up to and including that one, newest first, and no older day; returns nil after eight failed days |
| `FXRateService.FetchAwesomeAPI` | Grinvo/FXRateService.swift:98-135 | succeeds exactly on status 200 with a numeric ask and timestamp, then with rate = ask and source "AwesomeAPI"; every failure is a `networkError`, wrapping the session's error, `invalidResponse` for a non-200 status, the decoder's error for a body that is not JSON, or `parsingError` for JSON of the wrong shape; success always carries a rate |
| `FXRateService.FetchRate` | Grinvo/FXRateService.swift:138-150 | the result is the BCB rate when the walk found one, otherwise AwesomeAPI's rate or error; AwesomeAPI is consulted exactly when all eight BCB days fail |
| `FXRateService.FetchRatePolicy` | Grinvo/FXRateService.swift:138-150 | the source is BCB/PTAX exactly when some day of the walk is usable, and then it is the newest such day's rate; any error is a `networkError`; `noData` never occurs |
| `ViewModel.BuildMonthYearOptions` | Grinvo/InvoiceViewModel.swift:175-196 | exactly 36 entries, the months of y+1, y and y-1, strictly newest first; entry k is the first day of month 12 − k mod 12 of year y + 1 − k div 12, and its label is "<pt_BR month name> - <year>" of that date |
| `ViewModel.DateAtDescending` | Grinvo/InvoiceViewModel.swift:195 | a later position in the picker always holds a strictly earlier month |
| `ViewModel.OptionsCoverThreeYears` | Grinvo/InvoiceViewModel.swift:179-195 | every month of the years y-1..y+1 appears in the list; the first entry is December of y+1 and the last is January of y-1 |
| `ViewModel.FirstIndexSameMonth` | Grinvo/InvoiceViewModel.swift:71-73 | finds the first entry in the same year and month as the date, or reports that there is none |
| `ViewModel.DefaultIndex` | Grinvo/InvoiceViewModel.swift:71-74 | the default selection is the first entry in the init date's month, or 0 if no entry matches |
| `ViewModel.DefaultIndexAround` | Grinvo/InvoiceViewModel.swift:68-74 | on the list built around the init date, the default selection is that date's own month, at index 24 − month |
| `ViewModel.SelectedMonthYearLabel` | Grinvo/InvoiceViewModel.swift:86-91 | an in-range index gives that entry's label; any other index gives "Período selecionado" |
| `ViewModel.SelectedMonthDate` | Grinvo/InvoiceViewModel.swift:168-173 | an in-range index gives that entry's date; any other index gives the current date |
| `ViewModel.SelectionConsistent` | Grinvo/InvoiceViewModel.swift:68-91 | on the built list, each selected label names its date's month and year, and the default selection is the first day of the init date's month |
| `ViewModel.InputsToRequest` | Grinvo/InvoiceViewModel.swift:124-156 | inputs are rejected exactly when the hourly rate or an enabled fee does not parse; otherwise the request has a disabled fee as 0, an empty override as none, no label, mode `.both` and Christmas Eve included |
| `ViewModel.DisabledFeeIgnored` | Grinvo/InvoiceViewModel.swift:125-138 | the text of a disabled fee never affects acceptance or the request |
| `ViewModel.EmptyOverrideUsesDefaultRate` | Grinvo/InvoiceViewModel.swift:139 | an empty override field makes the calculator convert at the default rate |
| `ViewModel.InvoiceViewModel.constructor` | Grinvo/InvoiceViewModel.swift:54-75 | stores the field texts, enables both providers, builds the picker around the date and preselects the default index; no result, not loading, sequence 0 |
| `ViewModel.InvoiceViewModel.ScheduleAutoCalculation` | Grinvo/InvoiceViewModel.swift:109-122 | the sequence grows by exactly 1 and the new value is the request ID, so IDs strictly increase |
| `ViewModel.InvoiceViewModel.HandleResultTabAppear` | Grinvo/InvoiceViewModel.swift:103-106 | schedules a calculation only when none has committed yet; otherwise changes nothing |
| `ViewModel.InvoiceViewModel.SetSelectedMonthYearIndex` | Grinvo/InvoiceViewModel.swift:14-16 | stores the index and schedules a new request |
| `ViewModel.InvoiceViewModel.SetHourlyRate` | Grinvo/InvoiceViewModel.swift:18-20 | stores the text and schedules a new request |
| `ViewModel.InvoiceViewModel.SetNomadFeePct` | Grinvo/InvoiceViewModel.swift:22-24 | stores the text and schedules a new request |
| `ViewModel.InvoiceViewModel.SetHiglobeFeePct` | Grinvo/InvoiceViewModel.swift:26-28 | stores the text and schedules a new request |
| `ViewModel.InvoiceViewModel.SetFxRateOverride` | Grinvo/InvoiceViewModel.swift:30-32 | stores the text and schedules a new request |
| `ViewModel.InvoiceViewModel.SetNomadEnabled` | Grinvo/InvoiceViewModel.swift:34-36 | stores the switch and schedules a new request |
| `ViewModel.InvoiceViewModel.SetHiglobeEnabled` | Grinvo/InvoiceViewModel.swift:38-40 | stores the switch and schedules a new request |
| `ViewModel.InvoiceViewModel.BeginGeneration` | Grinvo/InvoiceViewModel.swift:124-143 | the request is the mapping of the current inputs; for the current ID, rejected inputs clear the result and the loading flag and accepted ones raise the loading flag; a stale ID changes nothing |
| `ViewModel.InvoiceViewModel.CompleteGeneration` | Grinvo/InvoiceViewModel.swift:158-164 | the current ID commits the result, clears loading and sets `hasCalculatedOnce`; a stale ID leaves all three unchanged |
| `ViewModel.LatestRequestWins` | Grinvo/InvoiceViewModel.swift:109-164 | after an edit supersedes a running calculation, the published result is the newer one's in either completion order |

## Left out

- Summary text and display formatting are not modelled: the
  `[INVOICE PREVIEW]` text of `calculate`, `formattedMonth`,
  `formattedHourlyRate`, and the `DateFormatter`/`NumberFormatter` output.
  Date descriptions and the AwesomeAPI timestamp rendering are parameters.
  The pt_BR month names are a fixed table.
- Networking and JSON are not modelled: `URLSession`, URL construction,
  `JSONSerialization` and the 10-second timeout. Responses are inputs.
  The AwesomeAPI URL is a constant, well-formed string, so `invalidURL` is
  never raised.
- `FXRateService.FetchBCBPtax` does not throw. The Swift function is
  declared `throws` but catches every error itself.
- `FXRateService.FetchBCBPtax` assumes that every day's PTAX URL, built
  from the formatted date, is well-formed. The `continue` of its nil guard
  skips a day without making a request; the model leaves that branch out,
  so every walked day appears in `consulted` as requested.
- Calendar arithmetic is assumed to succeed: `calendar.date(byAdding:)`
  and `calendar.date(from:)` are taken never to return nil, and their
  `continue` branches are absent.
- Concurrency is not modelled: `Task`, the 350 ms debounce sleep and its
  `immediate` switch, task cancellation, `@MainActor` and `deinit`. A
  cancelled task never starts its calculation. The model lets any scheduled
  ID begin and complete, which covers every interleaving the gate must
  handle.
- `ViewModel.InvoiceViewModel.BeginGeneration` and
  `ViewModel.InvoiceViewModel.CompleteGeneration` split `generateInvoice`
  at its `await` on the calculator. `calculate` is synchronous, so on the
  main actor `generateInvoice` runs without suspending, and no other
  request can be scheduled in between. The split over-approximates the
  source: it allows the interleavings that the ID checks guard against,
  and the gate's properties hold for all of them. The calculator's value
  reaches the view model as an input, because its result type does not
  match `WorkHoursResult`.
- Floating-point rounding of `Double` is not modelled: money is `real`.
- Holiday calendar and workday counting are absent from these files. The
  calculator is a 160-hour stub.
- `Grinvo/ContentView.swift` is not part of this model. It is a form
  layout with no logic.
- The `monthYearOptions` accessor is not modelled. It returns the stored
  list unchanged.
