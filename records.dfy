/** The stored entities the views work on, as plain values, and the one
    model method the expected-doses view calls. */
module Records {
  import opened Wrappers

  /** Seconds on the local wall clock, counted from 1970-01-01 00:00. */
  type Timestamp = int

  /** A calendar day, counted from 1970-01-01 (day 0). */
  type Date = int

  const SecondsPerDay: int := 86400

  /** The calendar date of a timestamp (the `__date` of a `taken_at` lookup).
      Dafny's `/` floors for a positive divisor, so instants before 1970
      fall on the day they belong to. */
  function DateOf(t: Timestamp): (d: Date)
    ensures d * SecondsPerDay <= t < (d + 1) * SecondsPerDay
  {
    t / SecondsPerDay
  }

  /** Moving a timestamp by whole days moves its date by as many days. */
  lemma DateOfShift(t: Timestamp, k: int)
    ensures DateOf(t + k * SecondsPerDay) == DateOf(t) + k
  {
  }

  datatype Medication = Medication(id: int, name: string, dosageMg: int, prescribedPerDay: int)

  datatype DoseLog = DoseLog(id: int, medicationId: int, takenAt: Timestamp, wasTaken: bool)

  /** Message of the `ValueError` that `Medication.expected_doses` raises.
      models.py is not part of this model, so the text is a stand-in. */
  const NonPositivePrescriptionMessage: string := "prescribed_per_day must be greater than zero."

  /** `Medication.expected_doses(days)`. Its source (models.py) is not part of
      this model; the behaviour is the one the model and view tests assert:
      `ValueError` when `prescribed_per_day <= 0`, otherwise
      `prescribed_per_day * days`. `days` itself is not checked here. */
  function ExpectedDoses(med: Medication, days: int): (r: Result<int, string>)
    ensures r.Failure? <==> med.prescribedPerDay <= 0
    ensures r.Failure? ==> r.error == NonPositivePrescriptionMessage
  {
    if med.prescribedPerDay <= 0 then Failure(NonPositivePrescriptionMessage)
    else Success(med.prescribedPerDay * days)
  }

  /** The reference reading of an expected count: one schedule of
      `perDay` doses for each of `days` days, added up day by day. */
  function DailyScheduleTotal(perDay: int, days: nat): (total: int)
  {
    if days == 0 then 0 else DailyScheduleTotal(perDay, days - 1) + perDay
  }

  /** For a well-configured medication, `expected_doses(days)` counts
      `prescribed_per_day` doses for every one of the `days` days. */
  lemma {:induction false} ExpectedDosesCountsEachDay(med: Medication, days: nat)
    requires med.prescribedPerDay > 0
    ensures ExpectedDoses(med, days) == Success(DailyScheduleTotal(med.prescribedPerDay, days))
  {
    if days > 0 {
      ExpectedDosesCountsEachDay(med, days - 1);
      assert med.prescribedPerDay * days == med.prescribedPerDay * (days - 1) + med.prescribedPerDay;
    }
  }
}
