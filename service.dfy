/** The backend's request handling (backend/service.py): the dough-make
    timestamp validator with its day-boundary adjustment, the calendar-date
    check, and the create / partial-update / register-make flows. Database
    calls and the clock are collaborators: their results are parameters, and
    each flow returns the calls it made. */
module Service {
  import opened Wrappers
  import opened Models
  import Text
  import Db

  const SecondsPerDay: int := 86400
  const HalfDaySeconds: int := 43200

  /** The labels used in ordering errors, in process order. */
  const StepNames: seq<string> := ["Autolyse", "Mix", "Bulk", "Preshape", "Final shape", "Fridge"]

  // ---------------------------------------------------------------------------
  // Day-boundary adjustment
  // ---------------------------------------------------------------------------

  /** The raw timestamp is more than 12 hours earlier than the previous
      adjusted one, which the validator reads as a midnight crossing. */
  predicate CrossesMidnight(prevAdjusted: int, raw: int) {
    raw < prevAdjusted && prevAdjusted - raw > HalfDaySeconds
  }

  /** The whole days added to the timestamp at position i: none at the first
      position; at each later one the offset in force before it, plus one when
      the raw timestamp crosses midnight against the previous adjusted one. */
  function DaysAt(ts: seq<int>, i: nat): (d: nat)
    requires i < |ts|
    ensures d <= i
    decreases i
  {
    if i == 0 then 0
    else
      var d := DaysAt(ts, i - 1);
      d + (if CrossesMidnight(ts[i - 1] + d * SecondsPerDay, ts[i]) then 1 else 0)
  }

  /** The timestamp at position i after adjustment. */
  function AdjustedAt(ts: seq<int>, i: nat): (a: int)
    requires i < |ts|
    ensures ts[i] <= a
    ensures i == 0 ==> a == ts[0]
  {
    ts[i] + DaysAt(ts, i) * SecondsPerDay
  }

  /** The list `adjust_for_day_boundaries` returns. */
  function Adjusted(ts: seq<int>): (a: seq<int>)
    ensures |a| == |ts|
    ensures forall i :: 0 <= i < |ts| ==> a[i] == AdjustedAt(ts, i)
  {
    seq(|ts|, i requires 0 <= i < |ts| => AdjustedAt(ts, i))
  }

  /** The offset depends only on the timestamps up to its position. */
  lemma {:induction false} DaysAtPrefix(ts: seq<int>, k: nat, i: nat)
    requires i < k <= |ts|
    ensures DaysAt(ts[..k], i) == DaysAt(ts, i)
    decreases i
  {
    if i > 0 {
      DaysAtPrefix(ts, k, i - 1);
    }
  }

  /** The first timestamp is never moved; every timestamp is moved forward by
      whole days, at most one more day than at the previous position. */
  lemma {:induction false} AdjustShape(ts: seq<int>, i: nat)
    requires i < |ts|
    ensures Adjusted(ts)[0] == ts[0]
    ensures Adjusted(ts)[i] - ts[i] == DaysAt(ts, i) * SecondsPerDay
    ensures 0 <= DaysAt(ts, i) <= i
    decreases i
  {
    if i > 0 {
      AdjustShape(ts, i - 1);
    }
  }

  /** The day offset never decreases, and grows by at most one per step. */
  lemma {:induction false} DaysMonotone(ts: seq<int>, i: nat, j: nat)
    requires i <= j < |ts|
    ensures DaysAt(ts, i) <= DaysAt(ts, j) <= DaysAt(ts, i) + (j - i)
    decreases j - i
  {
    if i < j {
      DaysMonotone(ts, i, j - 1);
    }
  }

  /** `adjust_for_day_boundaries`'s loop, step by step. */
  method AdjustForDayBoundaries(timestamps: seq<int>) returns (adjusted: seq<int>)
    ensures adjusted == Adjusted(timestamps)
  {
    adjusted := [];
    var daysAdded: nat := 0;
    for i := 0 to |timestamps|
      invariant |adjusted| == i
      invariant forall j :: 0 <= j < i ==> adjusted[j] == AdjustedAt(timestamps, j)
      invariant daysAdded == if i == 0 then 0 else DaysAt(timestamps, i - 1)
    {
      if i == 0 {
        adjusted := adjusted + [timestamps[i]];
        continue;
      }
      var prevTs := adjusted[|adjusted| - 1];
      var currentTs := timestamps[i];
      if currentTs < prevTs {
        var hoursBackwards := (prevTs - currentTs) as real / 3600.0;
        assert hoursBackwards > 12.0 <==> prevTs - currentTs > HalfDaySeconds;
        if hoursBackwards > 12.0 {
          daysAdded := daysAdded + 1;
        }
      }
      assert prevTs == timestamps[i - 1] + DaysAt(timestamps, i - 1) * SecondsPerDay;
      assert daysAdded == DaysAt(timestamps, i);
      if daysAdded > 0 {
        currentTs := currentTs + daysAdded * SecondsPerDay;
      }
      adjusted := adjusted + [currentTs];
    }
  }

  // ---------------------------------------------------------------------------
  // Ordering check
  // ---------------------------------------------------------------------------

  /** Every element is at most its successor (equal neighbours pass). */
  predicate NonDecreasing(s: seq<int>) {
    forall i :: 0 <= i < |s| - 1 ==> s[i] <= s[i + 1]
  }

  /** The first position at or after k whose element is greater than the next one. */
  function FirstDescentFrom(s: seq<int>, k: nat): (r: Option<nat>)
    requires k <= |s|
    ensures r.None? <==> forall i :: k <= i < |s| - 1 ==> s[i] <= s[i + 1]
    ensures r.Some? ==>
      && k <= r.value && r.value + 1 < |s| && s[r.value] > s[r.value + 1]
      && forall i :: k <= i < r.value ==> s[i] <= s[i + 1]
    decreases |s| - k
  {
    if k + 1 >= |s| then None
    else if s[k] > s[k + 1] then Some(k)
    else FirstDescentFrom(s, k + 1)
  }

  /** The first descent is the one before which every step is in order. */
  lemma FirstDescentAt(s: seq<int>, k: nat, i: nat)
    requires k <= i && i + 1 < |s| && s[i] > s[i + 1]
    requires forall j :: k <= j < i ==> s[j] <= s[j + 1]
    ensures FirstDescentFrom(s, k) == Some(i)
  {
    var r := FirstDescentFrom(s, k);
    assert r.Some?;
    assert r.value >= i;
    assert r.value <= i;
  }

  /** The error text for a failure between positions i and i + 1. */
  function OrderMessage(i: nat): (r: string)
    requires i < 5
    ensures |StepNames[i]| < |r| && r[..|StepNames[i]|] == StepNames[i]
    ensures var tail := StepNames[i + 1] + " time";
      |tail| <= |r| && r[|r| - |tail|..] == tail
  {
    StepNames[i] + " time must occur before " + StepNames[i + 1] + " time"
  }

  /** The six process timestamps of a make, in process order. */
  function Timestamps(m: DoughMake): (ts: seq<int>)
    ensures |ts| == 6
  {
    var q := m.request;
    [q.autolyseTs, q.mixTs, q.bulkTs, q.preshapeTs, q.finalShapeTs, q.fridgeTs]
  }

  /** What `validate_timestamps` raises, if anything: the message for the
      first adjusted pair out of order. */
  function TimestampError(ts: seq<int>): (r: Option<string>)
    requires |ts| == 6
    ensures r.None? <==> NonDecreasing(Adjusted(ts))
    ensures r.Some? ==>
      exists i: nat :: (i < 5 && r.value == OrderMessage(i)
        && AdjustedAt(ts, i) > AdjustedAt(ts, i + 1)
        && NonDecreasing(Adjusted(ts)[..i + 1]))
  {
    var a := Adjusted(ts);
    var descent := FirstDescentFrom(a, 0);
    if descent.None? then None
    else
      var i := descent.value;
      assert NonDecreasing(a[..i + 1]) by {
        var p := a[..i + 1];
        forall j | 0 <= j < |p| - 1 ensures p[j] <= p[j + 1] {
          assert p[j] == a[j] && p[j + 1] == a[j + 1];
        }
      }
      Some(OrderMessage(i))
  }

  /** What `validate_dough_make` raises, if anything. */
  function ValidationError(m: DoughMake): (r: Option<string>)
    ensures r.None? <==> NonDecreasing(Adjusted(Timestamps(m)))
  {
    TimestampError(Timestamps(m))
  }

  /** `validate_timestamps`: adjust, then compare neighbours, raising at the first failure. */
  method ValidateTimestamps(autolyseTs: int, mixTs: int, bulkTs: int, preshapeTs: int,
                            finalShapeTs: int, fridgeTs: int) returns (error: Option<string>)
    ensures error == TimestampError([autolyseTs, mixTs, bulkTs, preshapeTs, finalShapeTs, fridgeTs])
  {
    var timestamps := [autolyseTs, mixTs, bulkTs, preshapeTs, finalShapeTs, fridgeTs];
    var names := StepNames;
    var adjustedTimestamps := AdjustForDayBoundaries(timestamps);
    for i := 0 to |adjustedTimestamps| - 1
      invariant forall j :: 0 <= j < i ==> adjustedTimestamps[j] <= adjustedTimestamps[j + 1]
    {
      if adjustedTimestamps[i] > adjustedTimestamps[i + 1] {
        FirstDescentAt(adjustedTimestamps, 0, i);
        return Some(names[i] + " time must occur before " + names[i + 1] + " time");
      }
    }
    return None;
  }

  /** `validate_dough_make`: None when the make's timestamps are in order. */
  method ValidateDoughMake(make: DoughMake) returns (error: Option<string>)
    ensures error == ValidationError(make)
  {
    var q := make.request;
    error := ValidateTimestamps(q.autolyseTs, q.mixTs, q.bulkTs, q.preshapeTs, q.finalShapeTs, q.fridgeTs);
  }

  /** While the raw timestamps before position i are in order, nothing before
      or at i has been shifted. */
  lemma {:induction false} NoShiftWhileOrdered(ts: seq<int>, i: nat)
    requires i < |ts|
    requires forall j :: 0 <= j < i ==> ts[j] <= ts[j + 1]
    ensures DaysAt(ts, i) == 0
    decreases i
  {
    if i > 0 {
      NoShiftWhileOrdered(ts, i - 1);
    }
  }

  /** Raw timestamps already in order are never shifted. */
  lemma OrderedInputUnchanged(ts: seq<int>)
    requires NonDecreasing(ts)
    ensures Adjusted(ts) == ts
  {
    forall i | 0 <= i < |ts| ensures Adjusted(ts)[i] == ts[i] {
      NoShiftWhileOrdered(ts, i);
    }
  }

  /** Raw timestamps already in order validate. */
  lemma OrderedInputValidates(ts: seq<int>)
    requires |ts| == 6 && NonDecreasing(ts)
    ensures TimestampError(ts) == None
  {
    OrderedInputUnchanged(ts);
  }

  /** While no day has been added, a step earlier than its predecessor by at
      most 12 hours fails, naming the two steps. */
  lemma ShortRegressionFails(ts: seq<int>, i: nat)
    requires |ts| == 6 && 0 < i < 6
    requires forall j :: 0 <= j < i - 1 ==> ts[j] <= ts[j + 1]
    requires ts[i] < ts[i - 1] && ts[i - 1] - ts[i] <= HalfDaySeconds
    ensures TimestampError(ts) == Some(OrderMessage(i - 1))
  {
    var a := Adjusted(ts);
    assert forall j :: 0 <= j <= i ==> a[j] == ts[j] by {
      forall j | 0 <= j <= i ensures a[j] == ts[j] {
        if j < i {
          NoShiftWhileOrdered(ts, j);
        } else {
          NoShiftWhileOrdered(ts, i - 1);
        }
      }
    }
    assert FirstDescentFrom(a, 0) == Some(i - 1) by {
      FirstDescentAt(a, 0, i - 1);
    }
  }

  /** While no day has been added, a step earlier than its predecessor by more
      than 12 and at most 24 hours is moved to the next day and passes. */
  lemma LongRegressionPasses(ts: seq<int>, i: nat)
    requires 0 < i < |ts|
    requires forall j :: 0 <= j < i - 1 ==> ts[j] <= ts[j + 1]
    requires HalfDaySeconds < ts[i - 1] - ts[i] <= SecondsPerDay
    ensures DaysAt(ts, i) == 1
    ensures AdjustedAt(ts, i - 1) <= AdjustedAt(ts, i)
  {
    NoShiftWhileOrdered(ts, i - 1);
  }

  /** Once a day has been added, any step less than a day earlier than its
      predecessor passes: the raw value is compared with the shifted previous
      value, so the check adds another day whenever the gap exceeds 12 hours. */
  lemma AfterRolloverStepsPass(ts: seq<int>, i: nat)
    requires 0 < i < |ts|
    requires DaysAt(ts, i - 1) >= 1
    requires ts[i] > ts[i - 1] - SecondsPerDay
    ensures AdjustedAt(ts, i - 1) <= AdjustedAt(ts, i)
  {
  }

  /** A make started at 22:00 and continued after midnight on the same
      calendar date, whose fridge time (07:00) is before its final shape
      (08:30), validates. Seconds from midnight of the form's date. */
  lemma OvernightOutOfOrderPasses()
    ensures TimestampError([79200, 1800, 14400, 28800, 30600, 25200]) == None
  {
    var ts := [79200, 1800, 14400, 28800, 30600, 25200];
    var a := Adjusted(ts);
    assert DaysAt(ts, 1) == 1 && a[1] == 88200;
    assert DaysAt(ts, 2) == 2 && a[2] == 187200;
    assert DaysAt(ts, 3) == 3 && a[3] == 288000;
    assert DaysAt(ts, 4) == 4 && a[4] == 376200;
    assert DaysAt(ts, 5) == 5 && a[5] == 457200;
    assert a == [79200, 88200, 187200, 288000, 376200, 457200];
  }

  /** 2024-12-01T22:00, then 2024-12-02 at 00:30, 04:00, 08:00, 08:30 and 09:00
      (seconds from 2024-12-01T00:00) validates. */
  lemma DecemberOvernightValidates()
    ensures TimestampError([79200, 88200, 100800, 115200, 117000, 118800]) == None
  {
    OrderedInputValidates([79200, 88200, 100800, 115200, 117000, 118800]);
  }

  /** The same make with the fridge at 07:00 fails on the final-shape / fridge pair. */
  lemma DecemberFridgeTooEarlyFails()
    ensures TimestampError([79200, 88200, 100800, 115200, 117000, 111600])
      == Some("Final shape time must occur before Fridge time")
  {
    var bad := [79200, 88200, 100800, 115200, 117000, 111600];
    assert forall j :: 0 <= j < 4 ==> bad[j] <= bad[j + 1];
    ShortRegressionFails(bad, 5);
    FridgeMessage();
  }

  /** The text reported for the final-shape / fridge pair. */
  lemma FridgeMessage()
    ensures OrderMessage(4) == "Final shape time must occur before Fridge time"
  {
    var fs, fr := StepNames[4], StepNames[5];
    assert fs == "Final shape" && fr == "Fridge";
    assert fs + " time must occur before " == "Final shape time must occur before ";
    assert fr + " time" == "Fridge time";
    assert OrderMessage(4) == (fs + " time must occur before ") + (fr + " time");
  }

  // ---------------------------------------------------------------------------
  // Calendar dates
  // ---------------------------------------------------------------------------

  predicate IsLeap(y: int) {
    y % 4 == 0 && (y % 100 != 0 || y % 400 == 0)
  }

  function DaysInMonth(y: int, m: int): (n: int)
    requires 1 <= m <= 12
    ensures 28 <= n <= 31
  {
    if m == 2 then (if IsLeap(y) then 29 else 28)
    else if m == 4 || m == 6 || m == 9 || m == 11 then 30
    else 31
  }

  /** Days in the months before month m (1-based) of year y. */
  function DaysBeforeMonth(y: int, m: int): (n: int)
    requires 1 <= m <= 13
    ensures m == 13 ==> n == (if IsLeap(y) then 366 else 365)
    ensures 28 * (m - 1) <= n <= 31 * (m - 1)
    decreases m
  {
    if m == 1 then 0 else DaysBeforeMonth(y, m - 1) + DaysInMonth(y, m - 1)
  }

  /** The months from m on only add days, up to the year's length. */
  lemma {:induction false} DaysBeforeMonthBound(y: int, m: int)
    requires 1 <= m <= 13
    ensures DaysBeforeMonth(y, m) <= DaysBeforeMonth(y, 13)
    decreases 13 - m
  {
    if m < 13 {
      DaysBeforeMonthBound(y, m + 1);
    }
  }

  /** The calendar Python's `date` accepts: years 1 to 9999, proleptic
      Gregorian. An accepted date is a day of its year: its ordinal lies
      between 1 and the year's length. */
  predicate IsValidDate(y: int, m: int, d: int): (b: bool)
    ensures b ==> 1 <= m <= 12 && 1 <= DaysBeforeMonth(y, m) + d <= (if IsLeap(y) then 366 else 365)
  {
    var ok := 1 <= y <= 9999 && 1 <= m <= 12 && 1 <= d <= DaysInMonth(y, m);
    if ok then
      DaysBeforeMonthBound(y, m + 1);
      ok
    else ok
  }

  predicate FitsCInt(x: int) {
    -0x8000_0000 <= x < 0x8000_0000
  }

  datatype DateReason = YearOutOfRange | MonthOutOfRange | DayOutOfRange

  /** `OverflowError` when an argument does not fit a C int (it escapes
      `validate_date`'s handler); otherwise the re-raised
      `ValueError("Invalid date {month}/{day}/{year}: ...")`. */
  datatype DateFailure = Overflow | InvalidDate(month: int, day: int, year: int, reason: DateReason)

  /** `validate_date`. */
  function ValidateDate(y: int, m: int, d: int): (r: Result<Date, DateFailure>)
    ensures r.Ok? <==> IsValidDate(y, m, d)
    ensures r.Ok? ==> r.value == Date(y, m, d)
    ensures r == Err(Overflow) <==> !(FitsCInt(y) && FitsCInt(m) && FitsCInt(d))
    ensures r.Err? && r.error.InvalidDate? ==> r.error.month == m && r.error.day == d && r.error.year == y
  {
    if !(FitsCInt(y) && FitsCInt(m) && FitsCInt(d)) then Err(Overflow)
    else if !(1 <= y <= 9999) then Err(InvalidDate(m, d, y, YearOutOfRange))
    else if !(1 <= m <= 12) then Err(InvalidDate(m, d, y, MonthOutOfRange))
    else if !(1 <= d <= DaysInMonth(y, m)) then Err(InvalidDate(m, d, y, DayOutOfRange))
    else Ok(Date(y, m, d))
  }

  /** February 29 exists exactly in leap years. */
  lemma LeapDay(y: int)
    requires 1 <= y <= 9999
    ensures ValidateDate(y, 2, 29).Ok? <==> IsLeap(y)
    ensures ValidateDate(y, 2, 30).Err?
  {
  }

  // ---------------------------------------------------------------------------
  // Endpoint flows
  // ---------------------------------------------------------------------------

  /** Rejected detail texts: plain, or pydantic's list of failing fields. */
  datatype Detail = Text(text: string) | FieldErrors(prefix: string, fields: seq<string>)

  /** How a request fails: an `HTTPException`, or the date check's exception
      escaping the handler (answered 500 by the framework). */
  datatype Failure = Http(status: int, detail: Detail) | Uncaught(date: DateFailure)

  /** A failure reported by a database collaborator: `DatabaseError`, or any other exception. */
  datatype DbFault = DbError(message: string) | OtherFault(message: string)

  /** `str(e)` for an `HTTPException`. */
  function HttpText(status: int, detail: string): (r: string)
    ensures 100 <= status < 1000 ==>
      && |r| == |detail| + 5 && r[3..5] == ": " && r[5..] == detail
      && Text.IsDigits(r[..3]) && Text.DigitsValue(r[..3]) == status
  {
    var r := Text.IntToString(status) + ": " + detail;
    if 100 <= status < 1000 then
      DigitCount(status);
      Text.IntToStringValue(status);
      assert r[..3] == Text.IntToString(status);
      r
    else r
  }

  /** A number from 100 to 999 has three digits. */
  lemma DigitCount(n: int)
    requires 100 <= n < 1000
    ensures |Text.NatToString(n)| == 3
  {
    assert |Text.NatToString(n / 10)| == 2;
  }

  /** `create_make` stamps the request with the current time when it has none. */
  function StampCreatedAt(req: DoughMakeRequest, now: int): (r: DoughMakeRequest)
    ensures r.createdAt == Some(if req.createdAt.Some? then req.createdAt.value else now)
    ensures r == req.(createdAt := r.createdAt)
  {
    if req.createdAt.None? then req.(createdAt := Some(now)) else req
  }

  /** `str()` of the `AttributeError` a pydantic model raises for an attribute it does not declare. */
  function AttributeErrorText(model: string, attribute: string): string {
    "'" + model + "' object has no attribute '" + attribute + "'"
  }

  /** What `insert_dough_make` raises when `create_make` hands it a
      `DoughMake`, if anything: the error for the first attribute it reads
      that `DoughMake` does not declare. */
  function InsertError(): (e: Option<string>)
    ensures e == Some(AttributeErrorText("DoughMake", "start"))
  {
    Db.InsertMissesStart();
    var i := Db.FirstUndeclared(Db.InsertAttributes, FieldNames);
    if i.Some? then Some(AttributeErrorText("DoughMake", Db.InsertAttributes[i.value])) else None
  }

  /** The result of `create_make`, and the make `insert_dough_make` is called with, if it is called. */
  datatype CreateOutcome = CreateOutcome(result: Result<(), Failure>, insertArgument: Option<DoughMake>)

  /** `create_make`: validate the date, stamp `created_at`, build the make,
      validate its timestamps, then insert. The insert raises before it reaches
      the database (`InsertError`), so a create never succeeds. */
  method CreateMake(year: int, month: int, day: int, name: string, req: DoughMakeRequest,
                    now: int) returns (o: CreateOutcome)
    ensures ValidateDate(year, month, day).Err? ==>
      o == CreateOutcome(Err(Uncaught(ValidateDate(year, month, day).error)), None)
    ensures o.insertArgument.Some? <==>
      ValidateDate(year, month, day).Ok?
      && ValidationError(MakeFromRequest(name, Date(year, month, day), StampCreatedAt(req, now))) == None
    ensures o.insertArgument.Some? ==>
      && ValidationError(o.insertArgument.value) == None
      && o.insertArgument.value == MakeFromRequest(name, Date(year, month, day), StampCreatedAt(req, now))
    ensures ValidateDate(year, month, day).Ok? ==>
      var e := ValidationError(MakeFromRequest(name, Date(year, month, day), StampCreatedAt(req, now)));
      o.result == Err(Http(500, Text(if e.Some? then e.value else AttributeErrorText("DoughMake", "start"))))
    ensures o.result.Err?
  {
    var date := ValidateDate(year, month, day);
    if date.Err? {
      return CreateOutcome(Err(Uncaught(date.error)), None);
    }
    var stamped := StampCreatedAt(req, now);
    var doughMake := MakeFromRequest(name, date.value, stamped);
    var error := ValidateDoughMake(doughMake);
    if error.Some? {
      return CreateOutcome(Err(Http(500, Text(error.value))), None);
    }
    return CreateOutcome(Err(Http(500, Text(InsertError().value))), Some(doughMake));
  }

  /** `get_make`: the date check, the `created_at` parse (`None` when it fails)
      and the lookup, with the lookup's errors mapped to HTTP errors. */
  function GetMake(name: string, createdAt: Option<int>, year: int, month: int, day: int,
                   fetched: Result<DoughMake, DbFault>): (r: Result<DoughMake, Failure>)
    ensures r.Ok? <==> ValidateDate(year, month, day).Ok? && createdAt.Some? && fetched.Ok?
    ensures r.Ok? ==> r.value == fetched.value
    ensures ValidateDate(year, month, day).Ok? && createdAt.Some? && fetched.Err? ==>
      r == Err(if fetched.error.DbError? then Http(400, Text("Database error: " + fetched.error.message))
               else Http(500, Text("Unexpected error ocurred: " + fetched.error.message)))
  {
    var date := ValidateDate(year, month, day);
    if date.Err? then Err(Uncaught(date.error))
    else if createdAt.None? then Err(Http(400, Text("Invalid created_at timestamp format")))
    else if fetched.Ok? then Ok(fetched.value)
    else if fetched.error.DbError? then Err(Http(400, Text("Database error: " + fetched.error.message)))
    else Err(Http(500, Text("Unexpected error ocurred: " + fetched.error.message)))
  }

  /** The arguments of the `update_dough_make` call. */
  datatype UpdateCall = UpdateCall(date: Date, name: string, createdAt: int, updates: seq<(string, FieldValue)>)

  /** The result of `update_make`, and the arguments of the `update_dough_make` call, if it is made. */
  datatype UpdateOutcome = UpdateOutcome(result: Result<(), Failure>, call: Option<UpdateCall>)

  /** The message of the `HTTPException` raised when an update has no field. */
  const NoFieldsMessage: string := "No valid fields to update were provided"

  /** The keyword names `update_make` passes to `update_dough_make`, in order. */
  const UpdateKeywords: seq<string> := ["date", "name", "created_at", "updates"]

  /** `str()` of the `TypeError` for a keyword argument the callee does not declare. */
  function KeywordErrorText(callee: string, keyword: string): string {
    callee + "() got an unexpected keyword argument '" + keyword + "'"
  }

  /** What the `update_dough_make` call raises, if anything: binding its
      arguments fails on the first keyword that is not a parameter. */
  function UpdateCallError(): (e: Option<string>)
    ensures e == Some(KeywordErrorText("DBConnector.update_dough_make", "date"))
  {
    Db.FirstUndeclaredAt(UpdateKeywords, Db.UpdateParameters, 0);
    var i := Db.FirstUndeclared(UpdateKeywords, Db.UpdateParameters);
    if i.Some? then Some(KeywordErrorText("DBConnector.update_dough_make", UpdateKeywords[i.value])) else None
  }

  /** `update_make`: date check, `created_at` parse, the empty-update check,
      the lookup through `get_make`, the merge, re-validation and the
      `update_dough_make` call, whose arguments never bind (`UpdateCallError`).
      Exceptions raised inside the `try` go to the first matching handler:
      `ValueError` (pydantic's errors are ones) as 400, `DatabaseError` as 500,
      anything else, the `HTTPException`s included, as 500. */
  method UpdateMake(name: string, createdAt: Option<int>, year: int, month: int, day: int,
                    updates: DoughMakeUpdate, fetched: Result<DoughMake, DbFault>) returns (o: UpdateOutcome)
    ensures ValidateDate(year, month, day).Err? ==>
      o == UpdateOutcome(Err(Uncaught(ValidateDate(year, month, day).error)), None)
    ensures ValidateDate(year, month, day).Ok? && createdAt.None? ==>
      o == UpdateOutcome(Err(Http(400, Text("Invalid created_at timestamp format"))), None)
    ensures ValidateDate(year, month, day).Ok? && createdAt.Some? && updates == NoUpdate() ==>
      o == UpdateOutcome(Err(Http(500, Text("Unexpected error occurred: " + HttpText(400, NoFieldsMessage)))), None)
    ensures o.call.Some? <==>
      && ValidateDate(year, month, day).Ok? && createdAt.Some? && updates != NoUpdate()
      && fetched.Ok? && Merge(fetched.value, updates).Ok?
      && ValidationError(Merge(fetched.value, updates).value) == None
    ensures o.call.Some? ==>
      o.call.value == UpdateCall(Date(year, month, day), name, createdAt.value,
                                 Dump(Merge(fetched.value, updates).value))
    ensures o.call.Some? ==>
      o.result == Err(Http(500, Text("Unexpected error occurred: "
                                     + KeywordErrorText("DBConnector.update_dough_make", "date"))))
    ensures o.result.Err?
  {
    var date := ValidateDate(year, month, day);
    if date.Err? {
      return UpdateOutcome(Err(Uncaught(date.error)), None);
    }
    if createdAt.None? {
      return UpdateOutcome(Err(Http(400, Text("Invalid created_at timestamp format"))), None);
    }
    var updateData := UpdateData(updates);
    if updateData == [] {
      // raised as HTTPException(400) inside the try, caught by the generic handler
      return UpdateOutcome(Err(Http(500, Text("Unexpected error occurred: " + HttpText(400, NoFieldsMessage)))), None);
    }
    var existing := GetMake(name, createdAt, year, month, day, fetched);
    if existing.Err? {
      var inner := existing.error;
      var text := if inner.Http? && inner.detail.Text? then HttpText(inner.status, inner.detail.text) else "";
      return UpdateOutcome(Err(Http(500, Text("Unexpected error occurred: " + text))), None);
    }
    var merged := Merge(existing.value, updates);
    if merged.Err? {
      return UpdateOutcome(Err(Http(400, FieldErrors("Validation error: ", merged.error))), None);
    }
    var error := ValidateDoughMake(merged.value);
    if error.Some? {
      return UpdateOutcome(Err(Http(400, Text("Validation error: " + error.value))), None);
    }
    var call := UpdateCall(date.value, name, createdAt.value, Dump(merged.value));
    // a TypeError, neither a ValueError nor a DatabaseError: the generic handler
    return UpdateOutcome(Err(Http(500, Text("Unexpected error occurred: " + UpdateCallError().value))), Some(call));
  }

  // ---------------------------------------------------------------------------
  // Registering a make for an account
  // ---------------------------------------------------------------------------

  /** The caller's account, as resolved by authentication. */
  datatype UserContext = UserContext(userId: string, accountId: string, accountName: string)

  /** The arguments of the `add_account_make` call. */
  datatype AddCall = AddCall(accountId: string, accountName: string, displayName: string, key: string)

  datatype AccountOutcome = AccountOutcome(result: Result<SimpleMake, Failure>, added: Option<AddCall>)

  predicate HasKey(makes: seq<SimpleMake>, key: string) {
    exists i :: 0 <= i < |makes| && makes[i].key == key
  }

  predicate KeysDistinct(makes: seq<SimpleMake>) {
    forall i, j :: 0 <= i < j < |makes| ==> makes[i].key != makes[j].key
  }

  const DuplicateMakeMessage: string := "A make with a similar name already exists"

  /** `create_make_for_account`: read the account's makes (or the read's
      error), reject a key already registered, else register the make; the
      400 is re-raised as it is, any other error becomes a 500. */
  method CreateMakeForAccount(make: CreateMakeRequest, user: UserContext,
                              existing: Result<seq<SimpleMake>, string>,
                              addResult: Result<SimpleMake, string>) returns (o: AccountOutcome)
    ensures existing.Err? ==> o == AccountOutcome(Err(Http(500, Text(existing.error))), None)
    ensures existing.Ok? && HasKey(existing.value, make.key) ==>
      o == AccountOutcome(Err(Http(400, Text(DuplicateMakeMessage))), None)
    ensures o.added.Some? <==> existing.Ok? && !HasKey(existing.value, make.key)
    ensures o.added.Some? ==>
      && o.added.value == AddCall(user.accountId, user.accountName, make.displayName, make.key)
      && o.result == (if addResult.Ok? then Ok(addResult.value) else Err(Http(500, Text(addResult.error))))
  {
    if existing.Err? {
      return AccountOutcome(Err(Http(500, Text(existing.error))), None);
    }
    var makes := existing.value;
    var found := false;
    for i := 0 to |makes|
      invariant found <==> HasKey(makes[..i], make.key)
    {
      assert makes[..i + 1] == makes[..i] + [makes[i]];
      if makes[i].key == make.key {
        found := true;
      }
    }
    assert makes[..|makes|] == makes;
    if found {
      return AccountOutcome(Err(Http(400, Text(DuplicateMakeMessage))), None);
    }
    var call := AddCall(user.accountId, user.accountName, make.displayName, make.key);
    if addResult.Ok? {
      return AccountOutcome(Ok(addResult.value), Some(call));
    } else {
      return AccountOutcome(Err(Http(500, Text(addResult.error))), Some(call));
    }
  }

  /** Registering only keys not yet present keeps an account's keys distinct. */
  lemma RegistrationKeepsKeysDistinct(makes: seq<SimpleMake>, added: SimpleMake)
    requires KeysDistinct(makes) && !HasKey(makes, added.key)
    ensures KeysDistinct(makes + [added])
  {
    var all := makes + [added];
    forall i, j | 0 <= i < j < |all| ensures all[i].key != all[j].key {
      if j == |makes| {
        assert all[i] == makes[i];
      } else {
        assert all[i] == makes[i] && all[j] == makes[j];
      }
    }
  }
}
