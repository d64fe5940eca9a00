/**
 * The source-selection policy of `FXRateService` (Grinvo/FXRateService.swift):
 * the backward day walk over BCB/PTAX, its quote preference, the fallback to
 * AwesomeAPI and the error wrapping. HTTP and JSON are abstracted: what a
 * request yields is an input, already reduced to the fields the code reads.
 * Calendar days are day ordinals (`date - i` is `i` days earlier).
 */
module FXRateService {
  import opened Wrappers

  /** `FXRate`: BRL per USD, where it came from and when it was quoted. */
  datatype FXRate = FXRate(rate: real, source: string, asOf: string)

  /**
   * The error `networkError` wraps: the URL session's own failure (transport,
   * timeout), the JSON decoder's failure on a body that is not JSON, or an
   * `FXRateError` raised inside the request.
   */
  datatype Underlying = SessionFailure | DecodingFailure | Raised(error: FXRateError)

  /** `FXRateError`. */
  datatype FXRateError =
    | InvalidURL
    | NetworkError(underlying: Underlying)
    | InvalidResponse
    | NoData
    | ParsingError

  /** The first entry of a PTAX `value` list; `None` is a field that is absent or not a JSON number. */
  datatype PtaxQuote = PtaxQuote(cotacaoVenda: Option<real>, cotacaoCompra: Option<real>, dataHoraCotacao: Option<string>)

  /** A PTAX body: not a JSON object with a `value` array, or that array's first entry (None when empty). */
  datatype PtaxPayload = PtaxMalformed | PtaxValue(first: Option<PtaxQuote>)

  /** The outcome of one day's PTAX request. */
  datatype DayOutcome = DayFailed | DayResponse(status: int, payload: PtaxPayload)

  const BcbSource: string := "BCB/PTAX"
  const AwesomeSource: string := "AwesomeAPI"
  /** Days consulted: the given date and the 7 before it. */
  const PtaxDays: nat := 8

  /**
   * What one day of the walk yields: a rate when the response is a 200 with
   * a non-empty `value` list whose first entry has a numeric quote. The sell
   * quote wins over the buy quote; the quote time falls back to the target
   * date's description.
   */
  function PtaxDayRate(outcome: DayOutcome, targetDescription: string): (r: Option<FXRate>)
    ensures r.Some? <==>
      && outcome.DayResponse? && outcome.status == 200
      && outcome.payload.PtaxValue? && outcome.payload.first.Some?
      && (outcome.payload.first.value.cotacaoVenda.Some? || outcome.payload.first.value.cotacaoCompra.Some?)
    ensures r.Some? ==>
      var q := outcome.payload.first.value;
      && r.value.source == BcbSource
      && r.value.rate == (if q.cotacaoVenda.Some? then q.cotacaoVenda.value else q.cotacaoCompra.value)
      && r.value.asOf == q.dataHoraCotacao.GetOr(targetDescription)
  {
    match outcome
    case DayFailed => None
    case DayResponse(status, payload) =>
      if status != 200 then None
      else match payload
        case PtaxMalformed => None
        case PtaxValue(None) => None
        case PtaxValue(Some(first)) =>
          var rate :=
            if first.cotacaoVenda.Some? then Some(first.cotacaoVenda.value)
            else if first.cotacaoCompra.Some? then Some(first.cotacaoCompra.value)
            else None;
          if rate.None? then None
          else Some(FXRate(rate.value, BcbSource, first.dataHoraCotacao.GetOr(targetDescription)))
  }

  /** The rate day `date - i` yields, for responses `fetch` and date descriptions `describe`. */
  function DayRate(fetch: int -> DayOutcome, describe: int -> string, date: int, i: int): Option<FXRate>
  {
    PtaxDayRate(fetch(date - i), describe(date - i))
  }

  /** The first offset in `from..7` whose day yields a rate, if any. */
  function FirstUsableOffset(fetch: int -> DayOutcome, describe: int -> string, date: int, from: nat)
    : (k: Option<nat>)
    requires from <= PtaxDays
    decreases PtaxDays - from
    ensures k.Some? ==>
      && from <= k.value < PtaxDays && DayRate(fetch, describe, date, k.value).Some?
      && forall j :: from <= j < k.value ==> DayRate(fetch, describe, date, j).None?
    ensures k.None? ==> forall j :: from <= j < PtaxDays ==> DayRate(fetch, describe, date, j).None?
  {
    if from == PtaxDays then None
    else if DayRate(fetch, describe, date, from).Some? then Some(from)
    else FirstUsableOffset(fetch, describe, date, from + 1)
  }

  /** The days `date, date - 1, …, date - (n - 1)`, newest first. */
  function DaysBack(date: int, n: nat): (days: seq<int>)
    ensures |days| == n && forall i :: 0 <= i < n ==> days[i] == date - i
  {
    if n == 0 then [] else DaysBack(date, n - 1) + [date - (n - 1)]
  }

  /**
   * `fetchBCBPtax`: walk back from `date` one day at a time, at most 8 days,
   * and return the first usable day's rate. Every per-day failure is
   * swallowed. `consulted` lists the days requested, in order.
   */
  method FetchBCBPtax(fetch: int -> DayOutcome, describe: int -> string, date: int)
    returns (rate: Option<FXRate>, consulted: seq<int>)
    ensures match FirstUsableOffset(fetch, describe, date, 0)
      case Some(k) => rate == DayRate(fetch, describe, date, k) && consulted == DaysBack(date, k + 1)
      case None => rate == None && consulted == DaysBack(date, PtaxDays)
    ensures 1 <= |consulted| <= PtaxDays
  {
    consulted := [];
    for i := 0 to PtaxDays
      invariant consulted == DaysBack(date, i)
      invariant FirstUsableOffset(fetch, describe, date, 0) == FirstUsableOffset(fetch, describe, date, i)
    {
      var targetDate := date - i;
      consulted := consulted + [targetDate];
      var dayRate := PtaxDayRate(fetch(targetDate), describe(targetDate));
      if dayRate.Some? {
        return dayRate, consulted;
      }
    }
    rate := None;
  }

  /**
   * An AwesomeAPI body: not JSON at all, JSON without a `USDBRL` object, or
   * that object's fields (None when absent or not numeric text).
   */
  datatype AwesomePayload = AwesomeNotJson | AwesomeMalformed | UsdBrl(ask: Option<real>, timestamp: Option<real>)

  /** The outcome of the single AwesomeAPI request. */
  datatype AwesomeOutcome = AwesomeFailed | AwesomeResponse(status: int, payload: AwesomePayload)

  /**
   * `fetchAwesomeAPI`: one request; a non-200 status or an unusable body is an
   * error, and every inner error (the session's own included) is rethrown
   * wrapped in `networkError`. `formatTimestamp` renders the quote time.
   */
  function FetchAwesomeAPI(outcome: AwesomeOutcome, formatTimestamp: real -> string)
    : (r: Result<Option<FXRate>, FXRateError>)
    ensures r.Success? <==>
      && outcome.AwesomeResponse? && outcome.status == 200 && outcome.payload.UsdBrl?
      && outcome.payload.ask.Some? && outcome.payload.timestamp.Some?
    ensures r.Success? ==>
      r.value == Some(FXRate(outcome.payload.ask.value, AwesomeSource, formatTimestamp(outcome.payload.timestamp.value)))
    ensures r.Failure? ==> r.error.NetworkError?
    ensures r.Failure? && outcome.AwesomeResponse? && outcome.status != 200 ==>
      r.error == NetworkError(Raised(InvalidResponse))
    ensures r.Failure? && outcome.AwesomeResponse? && outcome.status == 200 ==>
      r.error == NetworkError(if outcome.payload.AwesomeNotJson? then DecodingFailure else Raised(ParsingError))
    ensures outcome.AwesomeFailed? ==> r == Failure(NetworkError(SessionFailure))
  {
    match outcome
    case AwesomeFailed => Failure(NetworkError(SessionFailure))
    case AwesomeResponse(status, payload) =>
      if status != 200 then Failure(NetworkError(Raised(InvalidResponse)))
      else match payload
        case AwesomeNotJson => Failure(NetworkError(DecodingFailure))
        case AwesomeMalformed => Failure(NetworkError(Raised(ParsingError)))
        case UsdBrl(ask, timestamp) =>
          if ask.None? || timestamp.None? then Failure(NetworkError(Raised(ParsingError)))
          else Success(Some(FXRate(ask.value, AwesomeSource, formatTimestamp(timestamp.value))))
  }

  /** The rate `fetchRate` settles on for the given inputs (the method below is proved to compute it). */
  function SelectedRate(fetch: int -> DayOutcome, describe: int -> string, date: int,
                        awesome: AwesomeOutcome, formatTimestamp: real -> string)
    : Result<FXRate, FXRateError>
  {
    match FirstUsableOffset(fetch, describe, date, 0)
    case Some(k) => Success(DayRate(fetch, describe, date, k).value)
    case None =>
      match FetchAwesomeAPI(awesome, formatTimestamp)
      case Success(Some(v)) => Success(v)
      case Success(None) => Failure(NoData)
      case Failure(e) => Failure(e)
  }

  /**
   * `fetchRate`: BCB first; AwesomeAPI only when the walk found nothing, with
   * its errors propagated; `noData` when AwesomeAPI returns no rate.
   */
  method FetchRate(fetch: int -> DayOutcome, describe: int -> string, date: int,
                   awesome: AwesomeOutcome, formatTimestamp: real -> string)
    returns (r: Result<FXRate, FXRateError>, awesomeConsulted: bool)
    ensures r == SelectedRate(fetch, describe, date, awesome, formatTimestamp)
    ensures awesomeConsulted <==> forall i :: 0 <= i < PtaxDays ==> DayRate(fetch, describe, date, i).None?
  {
    var bcbRate, _ := FetchBCBPtax(fetch, describe, date);
    if bcbRate.Some? {
      return Success(bcbRate.value), false;
    }
    awesomeConsulted := true;
    var awesomeRate := FetchAwesomeAPI(awesome, formatTimestamp);
    match awesomeRate
    case Failure(e) =>
      r := Failure(e);
    case Success(opt) =>
      if opt.Some? {
        r := Success(opt.value);
      } else {
        r := Failure(NoData);
      }
  }

  /**
   * The policy as one statement: the result comes from BCB/PTAX exactly when
   * some day of the walk has a usable quote, and is then the newest such
   * day's; otherwise it is AwesomeAPI's rate or a `networkError`. `noData`
   * never surfaces, because AwesomeAPI never succeeds without a rate.
   */
  lemma FetchRatePolicy(fetch: int -> DayOutcome, describe: int -> string, date: int,
                        awesome: AwesomeOutcome, formatTimestamp: real -> string)
    ensures var r := SelectedRate(fetch, describe, date, awesome, formatTimestamp);
      && (r.Success? && r.value.source == BcbSource
          <==> exists i :: 0 <= i < PtaxDays && DayRate(fetch, describe, date, i).Some?)
      && (forall k :: 0 <= k < PtaxDays && DayRate(fetch, describe, date, k).Some?
            && (forall j :: 0 <= j < k ==> DayRate(fetch, describe, date, j).None?)
            ==> r == Success(DayRate(fetch, describe, date, k).value))
      && (r.Failure? ==> r.error.NetworkError?)
      && r != Failure(NoData)
  {
  }
}
