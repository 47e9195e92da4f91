/** The two custom actions of `MedicationViewSet`: the external-info lookup
    and the expected-doses calculation. The medication is the one
    `self.get_object()` resolved. */
module MedicationViews {
  import opened Wrappers
  import opened PyValues
  import opened IntParsing
  import opened Http
  import opened Records

  const DaysRequiredMessage: string := "The 'days' parameter is required."
  const DaysNotPositiveMessage: string := "Days must be a positive integer."

  /** `isinstance(data, dict) and data.get("error")`: the fetched result
      reports a failure of the upstream drug-information service. */
  predicate IsUpstreamFailure(data: PyValue)
  {
    data.PyDict? && Truthy(DictGet(data.fields, "error"))
  }

  /** `get_external_info`, given what `fetch_external_info()` returned. */
  function GetExternalInfo(data: PyValue): (r: Response)
    ensures r.body == Data(data)
    ensures r.status == HTTP_502_BAD_GATEWAY <==>
      data.PyDict? && "error" in data.fields && Truthy(data.fields["error"])
    ensures r.status != HTTP_502_BAD_GATEWAY ==> r.status == HTTP_200_OK
  {
    if IsUpstreamFailure(data) then Response(HTTP_502_BAD_GATEWAY, Data(data))
    else Response(HTTP_200_OK, Data(data))
  }

  /** A failure reported with a non-empty message is a bad gateway. */
  lemma ErrorMessageIsBadGateway(message: string, others: map<string, PyValue>)
    requires |message| > 0
    ensures GetExternalInfo(PyDict(others["error" := PyStr(message)])).status == HTTP_502_BAD_GATEWAY
  {
  }

  /** A failure reported with an empty message is answered 200: the view
      tests the truth of the `error` value, not its presence. */
  lemma EmptyErrorMessageIsOk()
    ensures GetExternalInfo(PyDict(map["error" := PyStr("")])) == Response(HTTP_200_OK, ErrorBody(""))
  {
  }

  /** A result that is not a dictionary is always passed on with 200. */
  lemma NonDictIsOk(data: PyValue)
    requires !data.PyDict?
    ensures GetExternalInfo(data) == Response(HTTP_200_OK, Data(data))
  {
  }

  /** The `days` query value is an integer greater than zero. */
  predicate ValidDays(daysText: string)
  {
    ParseInt(daysText).Some? && ParseInt(daysText).value > 0
  }

  /** The body of a successful expected-doses answer. */
  function DosesPayload(medicationId: int, days: int, expectedDoses: int): PyValue
  {
    PyDict(map["medication_id" := PyInt(medicationId), "days" := PyInt(days),
               "expected_doses" := PyInt(expectedDoses)])
  }

  /** `expected_doses`: validate `days`, then ask the medication. */
  function ExpectedDosesView(request: Request, med: Medication): (r: Response)
    ensures QueryParam(request.queryParams, "days").None? ==>
      r == Response(HTTP_400_BAD_REQUEST, ErrorBody(DaysRequiredMessage))
    ensures var sent := QueryParam(request.queryParams, "days");
      sent.Some? && !ValidDays(sent.value) ==>
      r == Response(HTTP_400_BAD_REQUEST, ErrorBody(DaysNotPositiveMessage))
    ensures var sent := QueryParam(request.queryParams, "days");
      sent.Some? && ValidDays(sent.value) && med.prescribedPerDay <= 0 ==>
      r == Response(HTTP_400_BAD_REQUEST, ErrorBody(NonPositivePrescriptionMessage))
    ensures var sent := QueryParam(request.queryParams, "days");
      r.status == HTTP_200_OK <==>
      sent.Some? && ValidDays(sent.value) && med.prescribedPerDay > 0
    ensures r.status == HTTP_200_OK ==>
      var days := ParseInt(QueryParam(request.queryParams, "days").value).value;
      r.body == Data(DosesPayload(med.id, days, med.prescribedPerDay * days))
    ensures r.status == HTTP_200_OK || r.status == HTTP_400_BAD_REQUEST
  {
    match QueryParam(request.queryParams, "days")
    case None => Response(HTTP_400_BAD_REQUEST, ErrorBody(DaysRequiredMessage))
    case Some(daysText) =>
      match ParseInt(daysText)
      case None => Response(HTTP_400_BAD_REQUEST, ErrorBody(DaysNotPositiveMessage))
      case Some(days) =>
        if days <= 0 then Response(HTTP_400_BAD_REQUEST, ErrorBody(DaysNotPositiveMessage))
        else
          match ExpectedDoses(med, days)
          case Success(total) => Response(HTTP_200_OK, Data(DosesPayload(med.id, days, total)))
          case Failure(message) => Response(HTTP_400_BAD_REQUEST, ErrorBody(message))
  }

  /** Whatever the client sends as a positive number of days, rendered in
      decimal, the answer for a well-configured medication is 200 with that
      number echoed and `prescribed_per_day * days` doses. */
  lemma ExpectedDosesViewForRenderedDays(request: Request, med: Medication, days: int)
    requires days > 0 && med.prescribedPerDay > 0
    requires QueryParam(request.queryParams, "days") == Some(ShowInt(days))
    ensures ExpectedDosesView(request, med) ==
      Response(HTTP_200_OK, Data(DosesPayload(med.id, days, med.prescribedPerDay * days)))
  {
    ParseShowInt(days);
  }

  /** Whatever the client sends as a number of days that is zero or negative,
      rendered in decimal, the answer is 400 and no dose count is attempted. */
  lemma ExpectedDosesViewRejectsNonPositive(request: Request, med: Medication, days: int)
    requires days <= 0
    requires QueryParam(request.queryParams, "days") == Some(ShowInt(days))
    ensures ExpectedDosesView(request, med) ==
      Response(HTTP_400_BAD_REQUEST, ErrorBody(DaysNotPositiveMessage))
  {
    ParseShowInt(days);
  }

  /** A count that is not a number ("ten") is refused with 400. */
  lemma ExpectedDosesViewRejectsWord(request: Request, med: Medication)
    requires request.queryParams == [("days", "ten")]
    ensures ExpectedDosesView(request, med) ==
      Response(HTTP_400_BAD_REQUEST, ErrorBody(DaysNotPositiveMessage))
  {
  }

  /** Three doses a day over ten days: thirty expected doses. */
  lemma ExpectedDosesViewThreeADayForTenDays(request: Request, med: Medication)
    requires med.prescribedPerDay == 3
    requires request.queryParams == [("days", "10")]
    ensures ExpectedDosesView(request, med).status == HTTP_200_OK
    ensures ExpectedDosesView(request, med).body.value.fields["expected_doses"] == PyInt(30)
    ensures ExpectedDosesView(request, med).body.value.fields["medication_id"] == PyInt(med.id)
  {
    assert ShowInt(10) == "10";
    ExpectedDosesViewForRenderedDays(request, med, 10);
  }

  /** A medication stored with `prescribed_per_day = 0` cannot be counted:
      a valid `days` still gets 400, carrying the medication's error. */
  lemma ExpectedDosesViewZeroPrescription(request: Request, med: Medication)
    requires med.prescribedPerDay == 0
    requires request.queryParams == [("days", "5")]
    ensures ExpectedDosesView(request, med) ==
      Response(HTTP_400_BAD_REQUEST, ErrorBody(NonPositivePrescriptionMessage))
  {
  }
}
