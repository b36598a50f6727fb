# Accident Prediction API: the `/predict` handler

This project models the one piece of logic in the accident-forecast service:
the `POST /predict` handler in `app.py`. A request names a year and a month.
The handler checks, in order, that the month is in 1..12, that pandas can
build the timestamp for the first of that month, that this timestamp is after
the last training date 2020-12-01, and that the number of months ahead is at
most `MAX_FORECAST_HORIZON = 12`. It then asks the pre-trained ARIMA model for
that many periods and answers with the last forecast value.

Two modules:

- `Calendar` (`calendar.dfy`) gives pandas timestamps built from a
  `"YYYY-MM-DD"` string their meaning: proleptic Gregorian dates compared by
  the day they denote. `DayNumberOrder` proves that this comparison is
  calendar order (year, then month, then day).
- `App` (`app.dfy`) holds the handler. `Horizon` is the validation chain and
  the horizon arithmetic. `Predict` adds the model call and the extraction of
  the last forecast value. The outcomes are tagged: `BadRequest(reason)`
  (status 400), `ServerError(detail)` (status 500 set by the handler),
  `InternalError` (a status 500 from an exception the handler does not catch)
  and `Prediction(value)` (status 200). `InternalError` is the answer when the
  model returns an empty forecast or an empty interval array: `forecast[-1]`
  or `conf_int[-1, 0]` then raises `IndexError` outside the handler's `try`,
  and the framework answers with a bare 500 without the
  `"Error during prediction"` detail. `StatusCode` and `Detail` give the
  status and the `detail` text of each answer.

The parts of the program that are not integer logic are parameters:

- `buildable: (int, int) -> bool` says whether pandas can build the timestamp
  for a year and month. When it can, the timestamp is the first of that month.
  pandas' timestamp range begins and ends partway through a year (1677-09-21
  and 2262-04-11), so `buildable` takes the year and the month.
  `AcceptedRequests` needs it to hold only for the months of 2021.
- `model: int -> ModelOutcome` is the model's `predict(n_periods=…)` call. It
  either raises with a message or returns a sequence of forecast values and a
  sequence of (lower, upper) confidence pairs.

`Predict` is a function, so identical requests against the same model give
identical answers by construction.

`Calendar.DayNumberOrder` is the general statement that timestamp comparison
is calendar order. The `App` lemmas about the cutoff (`CutoffIsMonthOrder`,
`FirstFailingCheck`) are proved directly from the day-number definitions and
do not call it.

## Model

| member | source | states |
|---|---|---|
| `Calendar.DayNumberOrder` | app.py:42 | comparing two valid timestamps (`<=` on the day they denote) is the same as comparing them in calendar order: year, then month, then day |
| `App.RequestedDate` | app.py:36-39 | a date is built exactly when pandas can build it; it is the first of the requested month and a valid calendar date |
| `App.MonthsAhead` | app.py:46 | the horizon is the difference of absolute month indices (12·year + month − 1) between the requested month and the last training month; the day plays no part |
| `App.Horizon` | app.py:31-51 | every horizon that passes validation lies in 1..`MaxForecastHorizon` (12) |
| `App.Predict` | app.py:24-68 | the answer is a 400 exactly when validation rejects the request; a successful prediction is only given for a month of 2021; a handler-set 500 only comes from a model call that raised |
| `App.MonthCheckedFirst` | app.py:32-33 | a month outside 1..12 gives `InvalidMonth` for every date builder and every model, so neither is consulted |
| `App.CutoffIsMonthOrder` | app.py:42-43 | for a first-of-month date, "on or before 2020-12-01" holds exactly when (year, month) ≤ (2020, 12) lexicographically |
| `App.FirstFailingCheck` | app.py:32-51 | each result of validation, in both directions: `InvalidMonth` iff the month is outside 1..12; `InvalidDate` iff the month is valid and the date cannot be built; `NotAfterCutoff` iff it can and the year is at most 2020; `HorizonTooLarge` iff the year is 2022 or later; accepted iff the year is 2021, with horizon (year − 2020)·12 + (month − 12) |
| `App.AcceptedRequests` | app.py:32-51 | if every month of 2021 can be built, the accepted requests are exactly (2021, m) for 1 ≤ m ≤ 12, and the horizon equals m |
| `App.HorizonExamples` | app.py:46-51 | (2021, 1) has horizon 1 and is accepted; (2021, 12) has horizon 12 and is accepted; (2022, 1) has horizon 13 and is rejected as too far ahead |
| `App.RejectionIgnoresModel` | app.py:32-57 | a rejected request is answered with status 400 and its reason, whatever the model would return |
| `App.ModelAskedForHorizon` | app.py:55 | on an accepted request the answer depends on the model only through its result for `n_periods` = the horizon |
| `App.ModelFailureIsServerError` | app.py:54-57 | a model call that raises with message m is answered with status 500 and detail "Error during prediction: " + m, never a validation error |
| `App.RejectedRequestDetail` | app.py:32-51 | a rejected request is answered with status 400 and the detail text of the failing check: "Month must be between 1 and 12.", "Invalid year or month.", "Requested date must be after the last training date (2020-12)." or "Please request a forecast within 12 months ahead." |
| `App.RejectionDetailsDistinct` | app.py:33-51 | the four detail texts differ, so each names the constraint that was violated |
| `App.AcceptedRequestAnswer` | app.py:54-66 | on an accepted request: a raising model gives status 500 with detail "Error during prediction: " + message; a returned result gives the bare 500 exactly when the forecast or the interval array is empty, and otherwise status 200 with the last forecast value |
| `App.PredictionIsRequestedMonth` | app.py:59-66 | when the model returns one value and one interval per period, the answer is status 200 with the value at index horizon − 1, the one for the requested month |
| `App.Scenarios` | app.py:24-68 | 2020-12 is not after the cutoff, 2021-13 has an invalid month, 2022-01 is too far ahead, and a model failure on 2021-01 is a server error with its message |

## Left out

- The FastAPI application, the route decorator, the pydantic request class and the `uvicorn.run` entry point (app.py:3-15, 23, 70-71): HTTP plumbing. Status codes appear only as the tags of `Response` and `StatusCode`.
- Loading the pickled model at start-up (app.py:17-18): file I/O with a foreign object. A failed load stops the process before any request; there is nothing to model per request.
- The internals of the ARIMA model's `predict` (app.py:55): an opaque floating-point forecaster, represented by the `model` parameter.
- App.Predict: the successful value is the last forecast value itself; `round(float(…), 2)` (app.py:65) is floating-point rounding and is not modelled.
- The values of `lower_ci` and `upper_ci` (app.py:61-62) are never used. Only the `IndexError` from reading them on an empty interval array is modelled.
- pandas' parsing of the date string and its year bounds (app.py:37) are represented by the `buildable` parameter. The model assumes that a built timestamp has the requested year and month. For years written with fewer than four digits or with a sign, the string may be read differently; that is not modelled.
- Indexing `forecast[-1]` is taken to mean the last element, as for a NumPy array or a pandas Series read by position.
