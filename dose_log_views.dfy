/** The custom `filter` action of `DoseLogViewSet`: the dose logs whose
    `taken_at` date lies in an inclusive range, ordered by `taken_at`. The
    store is the sequence of every dose log (`DoseLog.objects.all()`), and
    the two dates are what `parse_date` made of the `start` and `end` query
    values. */
module DoseLogViews {
  import opened Wrappers
  import opened Http
  import opened Records

  const InvalidRangeMessage: string :=
    "Both 'start' and 'end' query parameters are required and must be valid dates."

  /** `taken_at__date__gte=start, taken_at__date__lte=end`. */
  predicate InRange(log: DoseLog, start: Date, end: Date)
  {
    start <= DateOf(log.takenAt) <= end
  }

  /** The logs that pass the date lookup, in store order. */
  function SelectInRange(logs: seq<DoseLog>, start: Date, end: Date): (r: seq<DoseLog>)
    ensures forall l :: multiset(r)[l] == if InRange(l, start, end) then multiset(logs)[l] else 0
    ensures forall i :: 0 <= i < |r| ==> InRange(r[i], start, end)
    ensures |r| <= |logs|
  {
    if logs == [] then []
    else
      var rest := SelectInRange(logs[1..], start, end);
      assert logs == [logs[0]] + logs[1..];
      if InRange(logs[0], start, end) then [logs[0]] + rest else rest
  }

  /** Non-decreasing `taken_at`, as `order_by("taken_at")` promises. */
  predicate SortedByTakenAt(s: seq<DoseLog>)
  {
    forall i, j :: 0 <= i < j < |s| ==> s[i].takenAt <= s[j].takenAt
  }

  /** `log` placed into an ordered sequence before the first entry that is
      not earlier than it, so that equal timestamps keep their order. */
  function InsertByTakenAt(log: DoseLog, s: seq<DoseLog>): (r: seq<DoseLog>)
    requires SortedByTakenAt(s)
    ensures SortedByTakenAt(r)
    ensures multiset(r) == multiset(s) + multiset{log}
    ensures |r| == |s| + 1 && (r[0] == log || (s != [] && r[0] == s[0]))
  {
    if s == [] || log.takenAt <= s[0].takenAt then [log] + s
    else
      var rest := InsertByTakenAt(log, s[1..]);
      assert s == [s[0]] + s[1..];
      assert s[0].takenAt <= rest[0].takenAt;
      [s[0]] + rest
  }

  /** `order_by("taken_at")`: the same logs, ordered by `taken_at`. */
  function OrderByTakenAt(s: seq<DoseLog>): (r: seq<DoseLog>)
    ensures SortedByTakenAt(r)
    ensures multiset(r) == multiset(s)
  {
    if s == [] then []
    else
      assert s == [s[0]] + s[1..];
      InsertByTakenAt(s[0], OrderByTakenAt(s[1..]))
  }

  /** `filter_by_date`. */
  function FilterByDate(start: Option<Date>, end: Option<Date>, store: seq<DoseLog>): (r: Response)
    ensures start.None? || end.None? ==>
      r == Response(HTTP_400_BAD_REQUEST, ErrorBody(InvalidRangeMessage))
    ensures start.Some? && end.Some? ==>
      r.status == HTTP_200_OK && r.body.Logs? &&
      SortedByTakenAt(r.body.logs) &&
      forall l :: multiset(r.body.logs)[l] ==
        if InRange(l, start.value, end.value) then multiset(store)[l] else 0
  {
    if start.None? || end.None? then
      Response(HTTP_400_BAD_REQUEST, ErrorBody(InvalidRangeMessage))
    else
      Response(HTTP_200_OK, Logs(OrderByTakenAt(SelectInRange(store, start.value, end.value))))
  }

  /** A log is in the answer exactly when it is stored and its date lies in
      the range, both ends included. */
  lemma FilterByDateMembership(start: Date, end: Date, store: seq<DoseLog>, log: DoseLog)
    ensures log in FilterByDate(Some(start), Some(end), store).body.logs <==>
      log in store && start <= DateOf(log.takenAt) <= end
  {
    var logs := FilterByDate(Some(start), Some(end), store).body.logs;
    assert log in logs <==> log in multiset(logs);
    assert log in store <==> log in multiset(store);
  }

  /** An inverted range is not refused: it selects nothing. */
  lemma InvertedRangeIsEmpty(start: Date, end: Date, store: seq<DoseLog>)
    requires start > end
    ensures FilterByDate(Some(start), Some(end), store) == Response(HTTP_200_OK, Logs([]))
  {
  }

  /** The answer is ordered by calendar date too. */
  lemma FilterByDateOrderedByDate(start: Date, end: Date, store: seq<DoseLog>)
    ensures var logs := FilterByDate(Some(start), Some(end), store).body.logs;
      forall i, j :: 0 <= i < j < |logs| ==> DateOf(logs[i].takenAt) <= DateOf(logs[j].takenAt)
  {
  }

  /** Logs taken one day apart around an instant `now`: the range from
      yesterday to today holds yesterday's and today's log and not
      tomorrow's, in that order. */
  lemma FilterYesterdayToToday(now: Timestamp, medicationId: int)
    ensures
      var yesterday := DoseLog(1, medicationId, now - SecondsPerDay, true);
      var today := DoseLog(2, medicationId, now, true);
      var tomorrow := DoseLog(3, medicationId, now + SecondsPerDay, true);
      FilterByDate(Some(DateOf(now) - 1), Some(DateOf(now)), [yesterday, today, tomorrow]) ==
        Response(HTTP_200_OK, Logs([yesterday, today]))
  {
    var yesterday := DoseLog(1, medicationId, now - SecondsPerDay, true);
    var today := DoseLog(2, medicationId, now, true);
    var tomorrow := DoseLog(3, medicationId, now + SecondsPerDay, true);
    DateOfShift(now, -1);
    DateOfShift(now, 1);
    var start, end := DateOf(now) - 1, DateOf(now);
    assert SelectInRange([tomorrow], start, end) == [];
    assert SelectInRange([today, tomorrow], start, end) == [today];
    assert SelectInRange([yesterday, today, tomorrow], start, end) == [yesterday, today];
    assert OrderByTakenAt([today]) == [today];
  }
}
