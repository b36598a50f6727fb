/** The POST /predict handler of the accident-forecast service: validate a
    requested year and month, turn it into a forecast horizon counted in
    months after the last training month, ask the pre-trained forecaster for
    that many periods and answer with the last forecast value.

    Two collaborators are outside the model and enter as parameters:
    - `buildable` says whether pandas can build the timestamp
      "YYYY-MM-01" for a year and month; when it can, the timestamp is the
      first of that month.
    - `model` is the pre-trained forecaster's predict call for a number of
      periods: it raises with a message, or returns a sequence of forecast
      values and a sequence of (lower, upper) confidence pairs. */
module App {
  import opened Calendar

  /** The JSON body of a request. */
  datatype PredictionRequest = PredictionRequest(year: int, month: int)

  /** The last month the forecaster was trained on. */
  const LastTrainingDate: Date := Date(2020, 12, 1)

  /** The largest number of months ahead that is forecast. */
  const MaxForecastHorizon: int := 12

  /** The validation failures, each answered with status 400. */
  datatype Rejection = InvalidMonth | InvalidDate | NotAfterCutoff | HorizonTooLarge

  datatype Validated = Accepted(horizon: int) | Rejected(reason: Rejection)

  datatype Option<T> = None | Some(value: T)

  datatype ModelOutcome =
    | Raised(message: string)
    | Returned(forecast: seq<real>, confInt: seq<(real, real)>)

  type DateBuilder = (int, int) -> bool

  type Forecaster = int -> ModelOutcome

  datatype Response =
    | Prediction(value: real)        // 200
    | BadRequest(reason: Rejection)  // 400, raised by a validation check
    | ServerError(detail: string)    // 500, raised by the handler around the model call
    | InternalError                  // 500, an exception no handler code catches

  function StatusCode(r: Response): int {
    match r
    case Prediction(_) => 200
    case BadRequest(_) => 400
    case ServerError(_) => 500
    case InternalError => 500
  }

  /** The `detail` text sent with each validation failure. */
  function RejectionDetail(reason: Rejection): string {
    match reason
    case InvalidMonth => "Month must be between 1 and 12."
    case InvalidDate => "Invalid year or month."
    case NotAfterCutoff => "Requested date must be after the last training date (2020-12)."
    case HorizonTooLarge => "Please request a forecast within 12 months ahead."
  }

  const PredictionErrorPrefix: string := "Error during prediction: "

  /** The `detail` field of an error answer. An exception the handler does
      not catch gets the framework's plain "Internal Server Error" body,
      which has no `detail`. */
  function Detail(r: Response): Option<string> {
    match r
    case BadRequest(reason) => Some(RejectionDetail(reason))
    case ServerError(detail) => Some(detail)
    case _ => None
  }

  /** Months between January of year 0 and the month of `d`. */
  function MonthIndex(d: Date): int {
    12 * d.year + d.month - 1
  }

  /** The timestamp built from a year and a month between 1 and 12, if
      pandas can build it. */
  function RequestedDate(year: int, month: int, buildable: DateBuilder): (r: Option<Date>)
    requires 1 <= month <= 12
    ensures r.Some? <==> buildable(year, month)
    ensures r.Some? ==> r.value == Date(year, month, 1) && ValidDate(r.value)
  {
    if buildable(year, month) then Some(Date(year, month, 1)) else None
  }

  /** The number of months from the last training month to `requested`,
      counted on year and month alone. */
  function MonthsAhead(requested: Date): (n: int)
    ensures n == MonthIndex(requested) - MonthIndex(LastTrainingDate)
  {
    (requested.year - LastTrainingDate.year) * 12 + (requested.month - LastTrainingDate.month)
  }

  /** The validation chain: month range, timestamp construction, cutoff,
      horizon cap, in this order; the first check that fails decides. */
  function Horizon(year: int, month: int, buildable: DateBuilder): (v: Validated)
    ensures v.Accepted? ==> 1 <= v.horizon <= MaxForecastHorizon
  {
    if !(1 <= month <= 12) then Rejected(InvalidMonth)
    else
      match RequestedDate(year, month, buildable)
      case None => Rejected(InvalidDate)
      case Some(requested) =>
        if AtOrBefore(requested, LastTrainingDate) then Rejected(NotAfterCutoff)
        else
          var monthsAhead := MonthsAhead(requested);
          if monthsAhead > MaxForecastHorizon then Rejected(HorizonTooLarge)
          else Accepted(monthsAhead)
  }

  /** The handler: validation, then the model call for `horizon` periods,
      then the last forecast value. */
  function Predict(req: PredictionRequest, buildable: DateBuilder, model: Forecaster): (r: Response)
    ensures r.BadRequest? <==> Horizon(req.year, req.month, buildable).Rejected?
    ensures r.Prediction? ==> req.year == 2021 && 1 <= req.month <= 12
    ensures r.ServerError? ==> var v := Horizon(req.year, req.month, buildable);
      v.Accepted? && model(v.horizon).Raised?
  {
    match Horizon(req.year, req.month, buildable)
    case Rejected(reason) => BadRequest(reason)
    case Accepted(monthsAhead) =>
      match model(monthsAhead)
      case Raised(message) => ServerError(PredictionErrorPrefix + message)
      case Returned(forecast, confInt) =>
        // forecast[-1] and conf_int[-1, _] raise IndexError on empty results
        if |forecast| == 0 || |confInt| == 0 then InternalError
        else Prediction(forecast[|forecast| - 1])
  }

  // Properties of the handler

  /** A month outside 1..12 is rejected whatever pandas and the forecaster
      would do: neither is consulted. */
  lemma MonthCheckedFirst(req: PredictionRequest, buildable: DateBuilder, model: Forecaster)
    requires !(1 <= req.month <= 12)
    ensures Predict(req, buildable, model) == BadRequest(InvalidMonth)
  {
  }

  /** Since both timestamps are firsts of months, "on or before the last
      training date" is the test (year, month) <= (2020, 12). */
  lemma CutoffIsMonthOrder(year: int, month: int)
    requires 1 <= month <= 12
    ensures AtOrBefore(Date(year, month, 1), LastTrainingDate)
        <==> (year < 2020 || (year == 2020 && month <= 12))
  {
  }

  /** Each outcome of the validation chain, stated on the request alone: the
      reported failure is that of the first failing check, and an accepted
      request gets the exact month count. */
  lemma FirstFailingCheck(year: int, month: int, buildable: DateBuilder)
    ensures Horizon(year, month, buildable) == Rejected(InvalidMonth)
        <==> !(1 <= month <= 12)
    ensures Horizon(year, month, buildable) == Rejected(InvalidDate)
        <==> 1 <= month <= 12 && !buildable(year, month)
    ensures Horizon(year, month, buildable) == Rejected(NotAfterCutoff)
        <==> 1 <= month <= 12 && buildable(year, month) && year <= 2020
    ensures Horizon(year, month, buildable) == Rejected(HorizonTooLarge)
        <==> 1 <= month <= 12 && buildable(year, month) && year >= 2022
    ensures Horizon(year, month, buildable).Accepted?
        <==> 1 <= month <= 12 && buildable(year, month) && year == 2021
    ensures Horizon(year, month, buildable).Accepted?
        ==> Horizon(year, month, buildable).horizon == (year - 2020) * 12 + (month - 12)
  {
  }

  /** When pandas can build every month of 2021, the requests that pass
      validation are exactly the twelve months of 2021, and the horizon is
      the month itself. */
  lemma AcceptedRequests(year: int, month: int, buildable: DateBuilder)
    requires forall m :: 1 <= m <= 12 ==> buildable(2021, m)
    ensures Horizon(year, month, buildable).Accepted? <==> year == 2021 && 1 <= month <= 12
    ensures Horizon(year, month, buildable).Accepted? ==> Horizon(year, month, buildable).horizon == month
  {
  }

  /** The horizon counts months, not days: January 2021 is one month out,
      December 2021 twelve, and January 2022 thirteen, which is over the cap. */
  lemma HorizonExamples(buildable: DateBuilder)
    requires buildable(2021, 1) && buildable(2021, 12) && buildable(2022, 1)
    ensures MonthsAhead(Date(2021, 1, 1)) == 1 && Horizon(2021, 1, buildable) == Accepted(1)
    ensures MonthsAhead(Date(2021, 12, 1)) == 12 && Horizon(2021, 12, buildable) == Accepted(12)
    ensures MonthsAhead(Date(2022, 1, 1)) == 13 && Horizon(2022, 1, buildable) == Rejected(HorizonTooLarge)
  {
  }

  /** A rejected request is answered with status 400 and its reason, and the
      forecaster is never consulted. */
  lemma RejectionIgnoresModel(req: PredictionRequest, buildable: DateBuilder, model1: Forecaster, model2: Forecaster)
    requires Horizon(req.year, req.month, buildable).Rejected?
    ensures Predict(req, buildable, model1) == Predict(req, buildable, model2)
        == BadRequest(Horizon(req.year, req.month, buildable).reason)
    ensures StatusCode(Predict(req, buildable, model1)) == 400
  {
  }

  /** The forecaster is asked for exactly `horizon` periods: two forecasters
      that agree there give the same answer. */
  lemma ModelAskedForHorizon(req: PredictionRequest, buildable: DateBuilder, model1: Forecaster, model2: Forecaster)
    requires Horizon(req.year, req.month, buildable).Accepted?
    requires model1(Horizon(req.year, req.month, buildable).horizon)
          == model2(Horizon(req.year, req.month, buildable).horizon)
    ensures Predict(req, buildable, model1) == Predict(req, buildable, model2)
  {
  }

  /** A forecaster failure is a server error carrying its message, never a
      validation error. */
  lemma ModelFailureIsServerError(req: PredictionRequest, buildable: DateBuilder, model: Forecaster, message: string)
    requires Horizon(req.year, req.month, buildable).Accepted?
    requires model(Horizon(req.year, req.month, buildable).horizon) == Raised(message)
    ensures Predict(req, buildable, model) == ServerError(PredictionErrorPrefix + message)
    ensures StatusCode(Predict(req, buildable, model)) == 500
  {
  }

  /** A rejected request is answered with status 400 and the detail text
      of the check that failed. */
  lemma RejectedRequestDetail(req: PredictionRequest, buildable: DateBuilder, model: Forecaster)
    requires Horizon(req.year, req.month, buildable).Rejected?
    ensures StatusCode(Predict(req, buildable, model)) == 400
    ensures Detail(Predict(req, buildable, model))
        == Some(RejectionDetail(Horizon(req.year, req.month, buildable).reason))
  {
  }

  /** The four validation failures are told apart by their detail texts. */
  lemma RejectionDetailsDistinct(reason1: Rejection, reason2: Rejection)
    ensures RejectionDetail(reason1) == RejectionDetail(reason2) <==> reason1 == reason2
  {
  }

  /** What an accepted request is answered with, for each thing the
      forecaster can do: a raised message is a 500 carrying it; an empty
      forecast or an empty interval array makes the last-element reads fail
      outside the handler, a bare 500; otherwise the answer is the last
      forecast value, with status 200. */
  lemma AcceptedRequestAnswer(req: PredictionRequest, buildable: DateBuilder, model: Forecaster)
    requires Horizon(req.year, req.month, buildable).Accepted?
    ensures var out := model(Horizon(req.year, req.month, buildable).horizon);
      match out
      case Raised(message) =>
        Predict(req, buildable, model) == ServerError(PredictionErrorPrefix + message)
        && StatusCode(Predict(req, buildable, model)) == 500
        && Detail(Predict(req, buildable, model)) == Some(PredictionErrorPrefix + message)
      case Returned(forecast, confInt) =>
        (Predict(req, buildable, model) == InternalError <==> |forecast| == 0 || |confInt| == 0)
        && (|forecast| > 0 && |confInt| > 0 ==>
              Predict(req, buildable, model) == Prediction(forecast[|forecast| - 1])
              && StatusCode(Predict(req, buildable, model)) == 200)
  {
  }

  /** With a forecaster that returns one value and one interval per period,
      the answer is the value for the requested month, at index
      `horizon - 1`, which is the request's month. */
  lemma PredictionIsRequestedMonth(req: PredictionRequest, buildable: DateBuilder, model: Forecaster)
    requires Horizon(req.year, req.month, buildable).Accepted?
    requires model(Horizon(req.year, req.month, buildable).horizon).Returned?
    requires |model(Horizon(req.year, req.month, buildable).horizon).forecast|
          == |model(Horizon(req.year, req.month, buildable).horizon).confInt|
          == Horizon(req.year, req.month, buildable).horizon
    ensures Predict(req, buildable, model)
        == Prediction(model(Horizon(req.year, req.month, buildable).horizon).forecast[req.month - 1])
    ensures StatusCode(Predict(req, buildable, model)) == 200
  {
  }

  /** Four requests and their answers. */
  lemma Scenarios(buildable: DateBuilder, model: Forecaster, message: string)
    requires buildable(2021, 1) && buildable(2020, 12) && buildable(2022, 1)
    requires model(1) == Raised(message)
    ensures Predict(PredictionRequest(2020, 12), buildable, model) == BadRequest(NotAfterCutoff)
    ensures Predict(PredictionRequest(2021, 13), buildable, model) == BadRequest(InvalidMonth)
    ensures Predict(PredictionRequest(2022, 1), buildable, model) == BadRequest(HorizonTooLarge)
    ensures Predict(PredictionRequest(2021, 1), buildable, model) == ServerError(PredictionErrorPrefix + message)
  {
  }
}
