# MedTracker views, modelled in Dafny

MedTracker is a Django REST Framework service that records medications,
dose logs (a dose taken or missed at a time) and notes. This project models
the request-handling decisions written in `medtrackerapp/views.py`: the
custom actions of `MedicationViewSet` (external drug information, expected
dose count), the date-range filter of `DoseLogViewSet`, and the refusal of
note updates by `NoteViewSet`. Each handler is a pure function from the
request's inputs to a `Response` (status code and body).

Modules, one file each:

- `wrappers.dfy` (`Wrappers`): `Option` and `Result`.
- `py_values.dfy` (`PyValues`): the Python values the views pass around, their truth value, and `DictGet`, which stands for `dict.get`.
- `int_parse.dfy` (`IntParsing`): `int(s)` on a query value, with the decimal rendering it inverts.
- `http.dfy` (`Http`): requests, responses, status codes, `QueryParam` for `QueryDict.get`, and `ErrorBody`, which stands for the `{"error": ...}` response literal.
- `records.dfy` (`Records`): `Medication`, `DoseLog`, timestamps and dates, and `Medication.expected_doses`.
- `medication_views.dfy` (`MedicationViews`): `get_external_info` and `expected_doses`, with `DosesPayload` standing for the three-key success literal.
- `dose_log_views.dfy` (`DoseLogViews`): `filter_by_date`.
- `note_views.dfy` (`NoteViews`): `update` and `partial_update`.

`Medication.expected_doses` lives in `models.py`, which is not part of this
model. Its definition here is taken from what the tests assert: a failure
when `prescribed_per_day <= 0`, otherwise `prescribed_per_day * days`.

Two behaviours of the code worth noting:

- The external-info view answers 502 when the fetched result is a dictionary
  whose `error` value is truthy, not whenever an `error` field is present. A
  result `{"error": ""}` is answered 200 (`EmptyErrorMessageIsOk`).
- The date filter has no check that the start date comes before the end
  date; an inverted range is answered 200 with no logs (`InvertedRangeIsEmpty`).

## Model

| member | source | states |
|---|---|---|
| `PyValues.FalsyValues` | medtrackerapp/views.py:51 | a value is falsy exactly when it is `None`, `False`, `0`, `""`, `[]` or `{}` |
| `IntParsing.ParseInt` | medtrackerapp/views.py:80-81 | parsing succeeds exactly for an optional sign followed by one or more digits; the value is that of the digits, negated after a leading `-` (so `"007"` is 7 and `"+5"` is 5) |
| `IntParsing.ParseShowInt` | medtrackerapp/views.py:81 | parsing the decimal rendering of any integer gives that integer back |
| `IntParsing.ParseIntRejectsWord` | medtrackerapp/tests/test_views.py:186-188 | `"ten"` is not an integer |
| `Http.QueryParam` | medtrackerapp/views.py:72 | `query_params.get(name)` is absent exactly when no pair with that name was sent, and otherwise is the value of the last pair with that name |
| `Records.DateOf` | medtrackerapp/views.py:154-155 | the date of a timestamp is the day whose 86400 seconds contain it |
| `Records.DateOfShift` | medtrackerapp/tests/test_views.py:94-96 | moving a timestamp by k whole days moves its date by k |
| `Records.ExpectedDoses` | medtrackerapp/tests/test_models.py:24-28 | fails exactly when `prescribed_per_day <= 0`, with the medication's error message |
| `Records.ExpectedDosesCountsEachDay` | medtrackerapp/tests/test_models.py:30-35 | for a positive prescription, the count equals `prescribed_per_day` doses added up over each of the days |
| `MedicationViews.GetExternalInfo` | medtrackerapp/views.py:48-53 | the fetched payload is passed through unchanged; the status is 502 exactly when it is a dictionary with a truthy `error` value, otherwise 200 |
| `MedicationViews.ErrorMessageIsBadGateway` | medtrackerapp/tests/test_views.py:65-72 | a dictionary whose `error` is a non-empty message is answered 502 |
| `MedicationViews.EmptyErrorMessageIsOk` | medtrackerapp/views.py:51-53 | `{"error": ""}` is answered 200, because the view tests truth, not presence |
| `MedicationViews.NonDictIsOk` | medtrackerapp/views.py:51-53 | a result that is not a dictionary is always answered 200 with that result |
| `MedicationViews.ExpectedDosesView` | medtrackerapp/views.py:72-104 | missing `days` gives 400 "The 'days' parameter is required."; a non-integer or non-positive `days` gives 400 "Days must be a positive integer."; a failing medication gives 400 with its message; the answer is 200 exactly when `days` is a positive integer and `prescribed_per_day > 0`, and then carries the medication's id, `days` unchanged and `prescribed_per_day * days`; no other status occurs |
| `MedicationViews.ExpectedDosesViewForRenderedDays` | medtrackerapp/views.py:80-98 | any positive integer sent in decimal is accepted and answered 200 with that number of days and `prescribed_per_day * days` doses |
| `MedicationViews.ExpectedDosesViewRejectsNonPositive` | medtrackerapp/views.py:80-88 | any zero or negative integer sent in decimal is answered 400 "Days must be a positive integer." |
| `MedicationViews.ExpectedDosesViewRejectsWord` | medtrackerapp/tests/test_views.py:186-188 | `days=ten` is answered 400 "Days must be a positive integer." |
| `MedicationViews.ExpectedDosesViewThreeADayForTenDays` | medtrackerapp/tests/test_views.py:167-180 | three a day over ten days is answered 200 with 30 expected doses and the medication's id |
| `MedicationViews.ExpectedDosesViewZeroPrescription` | medtrackerapp/tests/test_views.py:194-204 | `prescribed_per_day = 0` with `days=5` is answered 400 carrying the medication's error |
| `DoseLogViews.SelectInRange` | medtrackerapp/views.py:153-155 | holds each stored log whose date lies in `[start, end]` as often as it is stored, and no other log |
| `DoseLogViews.InsertByTakenAt` | medtrackerapp/views.py:156 | inserting into a sequence ordered by `taken_at` keeps it ordered and adds exactly that log |
| `DoseLogViews.OrderByTakenAt` | medtrackerapp/views.py:156 | the result is ordered by `taken_at` and is a permutation of the input |
| `DoseLogViews.FilterByDate` | medtrackerapp/views.py:144-159 | a start or end that `parse_date` returned `None` for gives 400 with the fixed message; otherwise 200 with logs ordered by `taken_at` that are exactly the stored logs whose date lies in `[start, end]`, with their multiplicity |
| `DoseLogViews.FilterByDateMembership` | medtrackerapp/views.py:153-155 | a log is in the answer if and only if it is stored and `start <= date(taken_at) <= end` |
| `DoseLogViews.InvertedRangeIsEmpty` | medtrackerapp/views.py:147-156 | a start after the end is not an error: the answer is 200 with no logs |
| `DoseLogViews.FilterByDateOrderedByDate` | medtrackerapp/views.py:153-156 | the answer is ordered by calendar date as well |
| `DoseLogViews.FilterYesterdayToToday` | medtrackerapp/tests/test_views.py:121-133 | with logs yesterday, today and tomorrow, the range yesterday..today gives yesterday's and today's log and not tomorrow's |
| `NoteViews.Update` | medtrackerapp/views.py:166-168 | every full update is answered 405 with no body |
| `NoteViews.PartialUpdate` | medtrackerapp/views.py:170-172 | every partial update is answered 405 with no body |
| `NoteViews.UpdatesIgnoreRequest` | medtrackerapp/views.py:166-172 | both update verbs give the same answer whatever the request |

## Left out

- `IntParsing.ParseInt`: accepts only an optional sign and ASCII digits. Python's `int()` also strips surrounding whitespace, accepts underscores between digits and non-ASCII decimal digits, and refuses strings over 4300 digits. The model answers 400 to the first three kinds and 200 to the last.
- `Records.ExpectedDoses`: models.py is not part of this model. The definition comes from the tests, and the error text `NonPositivePrescriptionMessage` stands in for the real message.
- `Medication.adherence_rate`, `adherence_rate_over_period` and `fetch_external_info` / `DrugInfoService.get_drug_info`: their source (models.py, services.py) is not part of this model, and the rates are floating point. `get_external_info` takes the fetched result as a parameter.
- The outbound OpenFDA request and its network errors are I/O.
- `parse_date` is not part of this model. `FilterByDate` takes the two parsed dates, `None` standing for a failed parse. A missing `start` or `end`, and a well-formed but impossible date, make `parse_date` raise rather than return `None`. Those cases are not modelled.
- `self.get_object()` and its 404 for an unknown id are not modelled. The views take the resolved medication.
- The ORM queryset is a sequence of every stored dose log. `order_by("taken_at")` leaves the order of equal timestamps to the database; the model uses a stable insertion sort, and its contracts state only the ordering and the contents.
- Time zones (`make_aware`, `localtime`) are not modelled: timestamps are seconds on the local wall clock, and a date is the day that contains them.
- Serializers, the inherited `ModelViewSet` CRUD actions, routing and `__str__` formatting are framework machinery. A filter answer carries the dose logs themselves rather than their serialized form.
- Python floats are not among the modelled values.
