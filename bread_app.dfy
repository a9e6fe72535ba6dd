/** The single-page bread form component: its own copy of the temperature
    conversion, combining the form's date with a step's clock time, the
    stretch-fold handlers and payload, the make key it derives, and the
    component state that its handlers replace.  Server responses are inputs:
    a handler that would call the server returns the request it sends and
    takes the response it gets. */
module BreadApp {
  import opened Wrappers
  import opened BreadTypes
  import opened JsString
  import Temperature
  import BreadForm
  import TeamMakes

  // ------------------------------------------------------------- temperatures

  /** The component's `convertTemperature`: unchanged for equal units, the
      rounded Fahrenheit value from Celsius, and every other pair treated as
      Fahrenheit to Celsius. */
  function AppConvertTemperature(v: real, from: TemperatureUnit, to: TemperatureUnit): (r: real)
    ensures from == to ==> r == v
    ensures from != to ==> Temperature.Integral(r)
    ensures from != to ==> r - 0.5 <= Temperature.ExactConversion(v, from, to) < r + 0.5
  {
    if from == to then v
    else if from == Celsius && to == Fahrenheit then Temperature.Round(v * 9.0 / 5.0 + 32.0) as real
    else Temperature.Round((v - 32.0) * 5.0 / 9.0) as real
  }

  /** The copy computes the same value as the shared utility for every
      reading and pair of units: there is one rounding to nearest. */
  lemma {:induction false} AppConvertAgrees(v: real, from: TemperatureUnit, to: TemperatureUnit)
    ensures AppConvertTemperature(v, from, to) == Temperature.ConvertTemperature(v, from, to)
  {
    if from != to {
      var a := AppConvertTemperature(v, from, to);
      var b := Temperature.ConvertTemperature(v, from, to);
      var e := Temperature.ExactConversion(v, from, to);
      assert a == a.Floor as real && b == b.Floor as real;
      Temperature.RoundUnique(e, a.Floor);
      Temperature.RoundUnique(e, b.Floor);
    }
  }

  // --------------------------------------------------------------- date/time

  const SecondsPerDay := 86400

  /** The calendar day an instant falls on, counted in whole days. */
  function DayOf(t: int): int { t / SecondsPerDay }

  function HourOf(t: int): int { (t % SecondsPerDay) / 3600 }

  function MinuteOf(t: int): int { (t % 3600) / 60 }

  function SecondOf(t: int): int { t % 60 }

  /** An instant is fixed by its day, hour, minute and second. */
  lemma InstantFields(x: int, d: int, h: int, m: int, s: int)
    requires 0 <= h < 24 && 0 <= m < 60 && 0 <= s < 60
    requires x == d * SecondsPerDay + h * 3600 + m * 60 + s
    ensures DayOf(x) == d && HourOf(x) == h && MinuteOf(x) == m && SecondOf(x) == s
  {
    var rest := h * 3600 + m * 60 + s;
    assert 0 <= rest < SecondsPerDay;
    DivMod(x, SecondsPerDay, d, rest);
    DivMod(rest, 3600, h, m * 60 + s);
    assert x == (d * 24 + h) * 3600 + (m * 60 + s);
    DivMod(x, 3600, d * 24 + h, m * 60 + s);
    DivMod(m * 60 + s, 60, m, s);
    assert x == ((d * 24 + h) * 60 + m) * 60 + s;
    DivMod(x, 60, (d * 24 + h) * 60 + m, s);
  }

  /** Euclidean division is determined by quotient and remainder. */
  lemma DivMod(x: int, n: int, q: int, r: int)
    requires n > 0 && 0 <= r < n && x == q * n + r
    ensures x / n == q && x % n == r
  {
    var q', r' := x / n, x % n;
    assert (q - q') * n == r' - r;
    if q > q' {
      MulAtLeast(q - q', n);
    } else if q < q' {
      MulAtLeast(q' - q, n);
    }
  }

  lemma MulAtLeast(k: int, n: int)
    requires k >= 1 && n > 0
    ensures k * n >= n
  {
  }

  /** `combineDateTime`: none when either input is missing; otherwise the
      instant on `date`'s day at `time`'s hour and minute, with zero seconds. */
  function CombineDateTime(date: Option<int>, time: Option<int>): (r: Option<int>)
    ensures r.None? <==> date.None? || time.None?
    ensures r.Some? ==>
      DayOf(r.value) == DayOf(date.value) && HourOf(r.value) == HourOf(time.value)
      && MinuteOf(r.value) == MinuteOf(time.value) && SecondOf(r.value) == 0
  {
    if date.None? || time.None? then None
    else
      var d, t := date.value, time.value;
      var x := DayOf(d) * SecondsPerDay + HourOf(t) * 3600 + MinuteOf(t) * 60;
      InstantFields(x, DayOf(d), HourOf(t), MinuteOf(t), 0);
      Some(x)
  }

  /** No other instant has those four fields: the combination is the unique
      instant on that day at that hour and minute with zero seconds. */
  lemma CombineDateTimeUnique(date: int, time: int, x: int)
    requires DayOf(x) == DayOf(date) && HourOf(x) == HourOf(time)
    requires MinuteOf(x) == MinuteOf(time) && SecondOf(x) == 0
    ensures CombineDateTime(Some(date), Some(time)) == Some(x)
  {
    var y := CombineDateTime(Some(date), Some(time)).value;
    InstantOf(x);
    InstantOf(y);
  }

  /** Every instant is rebuilt from its fields. */
  lemma InstantOf(x: int)
    ensures x == DayOf(x) * SecondsPerDay + HourOf(x) * 3600 + MinuteOf(x) * 60 + SecondOf(x)
  {
    var r := x % SecondsPerDay;
    assert x == DayOf(x) * SecondsPerDay + r;
    assert r == HourOf(x) * 3600 + r % 3600;
    var q := x / 3600;
    assert x == q * 3600 + x % 3600;
    DivMod(x, 3600, DayOf(x) * 24 + HourOf(x), r % 3600);
    assert x % 3600 == MinuteOf(x) * 60 + SecondOf(x) by {
      var m := x % 3600;
      DivMod(m, 60, m / 60, m % 60);
      DivMod(x, 60, (x / 3600) * 60 + m / 60, m % 60);
    }
  }

  /** An instant combined with itself loses only its seconds. */
  lemma CombineSameInstant(t: int)
    ensures CombineDateTime(Some(t), Some(t)) == Some(t - SecondOf(t))
  {
    InstantOf(t);
    var x := t - SecondOf(t);
    InstantFields(x, DayOf(t), HourOf(t), MinuteOf(t), 0);
    CombineDateTimeUnique(t, t, x);
  }

  // ------------------------------------------------------------ stretch folds

  /** The component's four starting folds, ids 1 to 4, none performed. */
  const AppInitialStretchFolds: seq<StretchFold> :=
    [StretchFold(1, false, None), StretchFold(2, false, None), StretchFold(3, false, None), StretchFold(4, false, None)]

  function CheckOne(sf: StretchFold, id: int, performed: bool, now: int): StretchFold {
    if sf.id != id then sf
    else if !performed then sf.(performed := false, time := None)
    else if sf.time.Some? then sf.(performed := true)
    else sf.(performed := true, time := Some(now))
  }

  /** `handleStretchFoldCheck`, with `now` for `dayjs()`: the folds with the
      id take the flag; checking keeps a time already set and otherwise sets
      `now`, unchecking clears it; the other folds are untouched. */
  function CheckFold(folds: seq<StretchFold>, id: int, performed: bool, now: int): (r: seq<StretchFold>)
    ensures |r| == |folds|
    ensures forall i :: 0 <= i < |folds| && folds[i].id != id ==> r[i] == folds[i]
    ensures forall i :: 0 <= i < |folds| && folds[i].id == id ==>
      r[i].id == id && r[i].performed == performed
      && (performed && folds[i].time.Some? ==> r[i].time == folds[i].time)
      && (performed && folds[i].time.None? ==> r[i].time == Some(now))
      && (!performed ==> r[i].time.None?)
  {
    seq(|folds|, i requires 0 <= i < |folds| => CheckOne(folds[i], id, performed, now))
  }

  /** Checking a fold twice keeps the time of the first check, and an uncheck
      undoes any number of checks. */
  lemma CheckFoldLaws(folds: seq<StretchFold>, id: int, now1: int, now2: int)
    ensures CheckFold(CheckFold(folds, id, true, now1), id, true, now2) == CheckFold(folds, id, true, now1)
    ensures CheckFold(CheckFold(folds, id, true, now1), id, false, now2) == CheckFold(folds, id, false, now2)
  {
  }

  /** `handleStretchFoldTimeChange`: the folds with the id take the time;
      nothing else changes. */
  function TimeChangeFold(folds: seq<StretchFold>, id: int, time: Option<int>): (r: seq<StretchFold>)
    ensures |r| == |folds|
    ensures forall i :: 0 <= i < |folds| ==>
      r[i].id == folds[i].id && r[i].performed == folds[i].performed
      && r[i].time == (if folds[i].id == id then time else folds[i].time)
  {
    seq(|folds|, i requires 0 <= i < |folds| => if folds[i].id == id then folds[i].(time := time) else folds[i])
  }

  /** The last time set wins. */
  lemma TimeChangeLastWins(folds: seq<StretchFold>, id: int, t1: Option<int>, t2: Option<int>)
    ensures TimeChangeFold(TimeChangeFold(folds, id, t1), id, t2) == TimeChangeFold(folds, id, t2)
  {
  }

  /** A fold goes into the payload when it is performed and has a time. */
  predicate Sent(sf: StretchFold) {
    sf.performed && sf.time.Some?
  }

  /** The payload entry of a fold: numbered by its id, at the form's date. */
  function Payload(date: Option<int>, sf: StretchFold): BreadForm.FoldPayload {
    BreadForm.FoldPayload(sf.id, CombineDateTime(date, sf.time))
  }

  /** `handleSubmit`'s fold payload: the sent folds, in list order. */
  function PayloadFolds(date: Option<int>, folds: seq<StretchFold>): (r: seq<BreadForm.FoldPayload>)
    ensures |r| <= |folds|
    ensures forall k :: 0 <= k < |r| ==> exists i :: 0 <= i < |folds| && Sent(folds[i]) && r[k] == Payload(date, folds[i])
    ensures forall i :: 0 <= i < |folds| && Sent(folds[i]) ==> Payload(date, folds[i]) in r
    decreases |folds|
  {
    if |folds| == 0 then []
    else
      var rest := PayloadFolds(date, folds[1..]);
      var head := if Sent(folds[0]) then [Payload(date, folds[0])] else [];
      var r := head + rest;
      assert forall k :: 0 <= k < |r| ==> exists i :: 0 <= i < |folds| && Sent(folds[i]) && r[k] == Payload(date, folds[i]) by {
        forall k | 0 <= k < |r|
          ensures exists i :: 0 <= i < |folds| && Sent(folds[i]) && r[k] == Payload(date, folds[i])
        {
          if k < |head| {
            assert Sent(folds[0]) && r[k] == Payload(date, folds[0]);
          } else {
            assert r[k] == rest[k - |head|];
            var i :| 0 <= i < |folds[1..]| && Sent(folds[1..][i]) && rest[k - |head|] == Payload(date, folds[1..][i]);
            assert folds[i + 1] == folds[1..][i];
          }
        }
      }
      assert forall i :: 0 <= i < |folds| && Sent(folds[i]) ==> Payload(date, folds[i]) in r by {
        forall i | 0 <= i < |folds| && Sent(folds[i]) ensures Payload(date, folds[i]) in r {
          if i == 0 {
            assert r[0] == Payload(date, folds[0]);
          } else {
            assert folds[1..][i - 1] == folds[i];
            assert Payload(date, folds[i]) in rest;
          }
        }
      }
      r
  }

  /** The payload follows list order: the folds of a concatenation are the
      folds of each part, one after the other. */
  lemma {:induction false} PayloadFoldsAppend(date: Option<int>, a: seq<StretchFold>, b: seq<StretchFold>)
    ensures PayloadFolds(date, a + b) == PayloadFolds(date, a) + PayloadFolds(date, b)
    decreases |a|
  {
    if |a| == 0 {
      assert a + b == b;
    } else {
      var head := if Sent(a[0]) then [Payload(date, a[0])] else [];
      assert (a + b)[0] == a[0];
      assert (a + b)[1..] == a[1..] + b;
      calc {
        PayloadFolds(date, a + b);
        head + PayloadFolds(date, a[1..] + b);
        { PayloadFoldsAppend(date, a[1..], b); }
        head + (PayloadFolds(date, a[1..]) + PayloadFolds(date, b));
        (head + PayloadFolds(date, a[1..])) + PayloadFolds(date, b);
        PayloadFolds(date, a) + PayloadFolds(date, b);
      }
    }
  }

  /** After a fold is unchecked, no entry numbered by its id is sent. */
  lemma UncheckRemovesFromPayload(date: Option<int>, folds: seq<StretchFold>, id: int, now: int)
    ensures forall k :: 0 <= k < |PayloadFolds(date, CheckFold(folds, id, false, now))| ==>
      PayloadFolds(date, CheckFold(folds, id, false, now))[k].foldNumber != id
  {
  }

  /** After a fold is checked, it is sent, at the form's date. */
  lemma CheckAddsToPayload(date: Option<int>, folds: seq<StretchFold>, i: int, now: int)
    requires 0 <= i < |folds|
    ensures var r := CheckFold(folds, folds[i].id, true, now);
      Sent(r[i]) && Payload(date, r[i]) in PayloadFolds(date, r)
  {
  }

  // ------------------------------------------------------------------ makes

  /** `handleCreateMake`'s key: trimmed, lower-cased, every character outside
      `\w`, `\s` and `-` removed, then each run of whitespace turned into '-'. */
  function CreateMakeKey(name: string): (k: string)
    ensures |k| <= |name|
  {
    ReplaceSpaceRuns(KeepWordSpaceDash(Lower(Trim(name))), '-')
  }

  /** A character of a derived key: [a-z0-9_-]. */
  predicate IsSlugChar(c: char) {
    ('a' <= c <= 'z') || ('0' <= c <= '9') || c == '_' || c == '-'
  }

  /** The key holds no whitespace and only lower-case letters, digits, '_'
      and '-'. */
  lemma CreateMakeKeySpec(name: string)
    ensures NoSpace(CreateMakeKey(name))
    ensures forall c :: c in CreateMakeKey(name) ==> IsSlugChar(c)
  {
    var lowered := Lower(Trim(name));
    var kept := KeepWordSpaceDash(lowered);
    LowerSpec(Trim(name));
    KeepWordSpaceDashSpec(lowered);
    ReplaceSpaceRunsSpec(kept, '-');
    forall c | c in CreateMakeKey(name) ensures IsSlugChar(c) {
      if c != '-' {
        assert c in kept;
        assert c in lowered && IsWordSpaceOrDash(c);
        var i :| 0 <= i < |lowered| && lowered[i] == c;
        assert !IsSpace(c) by {
          assert forall j :: 0 <= j < |CreateMakeKey(name)| ==> !IsSpace(CreateMakeKey(name)[j]);
        }
      }
    }
  }

  /** On two words separated by a space, the component and the team-makes
      hook derive the same key. */
  lemma CreateMakeKeyAgreesOnTwoWords(a: string, b: string)
    requires TeamMakes.IsWord(a) && TeamMakes.IsWord(b)
    ensures CreateMakeKey(a + " " + b) == TeamMakes.SubmitKey(a + " " + b)
  {
    var name := a + " " + b;
    TeamMakes.TwoWordKeys(a, b);
    TeamMakes.LowerWord(a);
    TeamMakes.LowerWord(b);
    assert Trim(name) == name by {
      assert name[0] == a[0] && name[|name| - 1] == b[|b| - 1];
    }
    var lowered := Lower(a) + " " + Lower(b);
    assert Lower(name) == lowered by {
      TeamMakes.LowerConcat(a + " ", b);
      TeamMakes.LowerConcat(a, " ");
    }
    assert KeepWordSpaceDash(lowered) == lowered by {
      assert forall i :: 0 <= i < |lowered| ==> IsWordSpaceOrDash(lowered[i]) by {
        forall i | 0 <= i < |lowered| ensures IsWordSpaceOrDash(lowered[i]) {
          if i < |a| { assert lowered[i] == Lower(a)[i]; }
          else if i > |a| { assert lowered[i] == Lower(b)[i - |a| - 1]; }
        }
      }
      KeepWordSpaceDashAll(lowered);
    }
    ReplaceSpaceRunsBetween(Lower(a), " ", Lower(b), '-');
  }

  /** The component's initial make 'Hoagie' is the default make's display
      name, not its key, so it is not a selectable key among the defaults. */
  lemma InitialMakeNotAKey()
    ensures !HasKey(DefaultTeamMakes, "Hoagie")
  {
    DefaultKeysDistinct();
    assert "Hoagie"[0] != "hoagie"[0];
  }

  // ------------------------------------------------------------- submission

  /** The body `handleSubmit` posts. */
  datatype AppPayload = AppPayload(
    autolyseTs: Option<int>,
    startTs: Option<int>,
    pullTs: Option<int>,
    preshapeTs: Option<int>,
    finalShapeTs: Option<int>,
    fridgeTs: Option<int>,
    roomTemp: real,
    flourTemp: real,
    prefermentTemp: real,
    waterTemp: real,
    doughTemp: real,
    tempUnit: string,
    stretchFolds: seq<BreadForm.FoldPayload>,
    notes: string)

  /** The endpoint's date (none for an empty date segment), make key and body. */
  datatype AppSubmitRequest = AppSubmitRequest(date: Option<int>, makeKey: string, payload: AppPayload)

  /** The step's time on the form's date: none when the form has no date or
      the step no time; otherwise on the form's day, at whole minutes. */
  function StepTs(fd: BreadFormData, step: string): (r: Option<int>)
    ensures r.Some? <==> fd.date.Some? && BreadForm.FindTime(fd.processes, step).Some?
    ensures !BreadForm.HasStep(fd.processes, step) ==> r.None?
    ensures r.Some? ==> DayOf(r.value) == DayOf(fd.date.value) && SecondOf(r.value) == 0
  {
    CombineDateTime(fd.date, BreadForm.FindTime(fd.processes, step))
  }

  /** The body built from the form: without a date no step time is sent; the
      unit is sent by name; only the sent folds go out. */
  function PayloadOf(fd: BreadFormData): (p: AppPayload)
    ensures fd.date.None? ==>
      && p.autolyseTs.None? && p.startTs.None? && p.pullTs.None?
      && p.preshapeTs.None? && p.finalShapeTs.None? && p.fridgeTs.None?
    ensures p.tempUnit == "Celsius" <==> fd.temperatures.unit == Celsius
    ensures |p.stretchFolds| <= |fd.stretchFolds|
    ensures p.notes == fd.notes
  {
    var t := fd.temperatures;
    AppPayload(
      StepTs(fd, "Autolyse"), StepTs(fd, "Start"), StepTs(fd, "Pull"),
      StepTs(fd, "Preshape"), StepTs(fd, "Final Shape"), StepTs(fd, "Fridge"),
      t.roomTemp, t.flourTemp, t.prefermentTemp, t.waterTemp, t.doughTemp,
      UnitName(t.unit), PayloadFolds(fd.date, fd.stretchFolds), fd.notes)
  }

  /** The component's first form: the form hook's first form, except for the
      make, 'Hoagie', and four unperformed folds in place of the hook's list. */
  function AppInitialFormData(now: int): (fd: BreadFormData)
    ensures fd == BreadForm.InitialFormData(now).(teamMake := "Hoagie", stretchFolds := AppInitialStretchFolds)
    ensures forall i :: 0 <= i < |fd.stretchFolds| ==> !fd.stretchFolds[i].performed
  {
    BreadFormData(Some(now), "Hoagie", InitialTempSettings, BreadForm.InitialProcesses(now), AppInitialStretchFolds, "")
  }

  /** `handleTimeChange`'s list: the process at `index` keeps its step and
      takes the new time; every other process stays as it was. */
  function SetTimeAt(ps: seq<DoughProcess>, index: int, time: Option<int>): (r: seq<DoughProcess>)
    requires 0 <= index < |ps|
    ensures |r| == |ps| && r[index] == DoughProcess(ps[index].step, time)
    ensures forall i :: 0 <= i < |ps| && i != index ==> r[i] == ps[i]
  {
    ps[index := ps[index].(time := time)]
  }

  /** With distinct step names, setting a time by position is setting it by
      the step's name, as the form hook's handler does. */
  lemma SetTimeAtIsByStep(ps: seq<DoughProcess>, index: int, time: Option<int>)
    requires 0 <= index < |ps|
    requires forall i, j :: 0 <= i < j < |ps| ==> ps[i].step != ps[j].step
    ensures SetTimeAt(ps, index, time) == BreadForm.SetProcessTime(ps, ps[index].step, time)
  {
    var a, b := SetTimeAt(ps, index, time), BreadForm.SetProcessTime(ps, ps[index].step, time);
    forall i | 0 <= i < |ps| ensures a[i] == b[i] {
      if i != index {
        assert ps[i].step != ps[index].step by {
          if i < index {} else {}
        }
      }
    }
  }

  /** Submitting the first form straight away sends every step at `now`
      without its seconds, and no folds. */
  lemma InitialPayload(now: int)
    ensures var p := PayloadOf(AppInitialFormData(now));
      p.autolyseTs == Some(now - SecondOf(now)) && p.fridgeTs == Some(now - SecondOf(now))
      && p.stretchFolds == [] && p.tempUnit == "Fahrenheit"
  {
    var ps := BreadForm.InitialProcesses(now);
    BreadForm.FindTimeAt(ps, "Autolyse", 0);
    BreadForm.FindTimeAt(ps, "Fridge", 5);
    CombineSameInstant(now);
    var folds := AppInitialStretchFolds;
    assert forall i :: 0 <= i < |folds| ==> !Sent(folds[i]);
  }

  // --------------------------------------------------------------- responses

  /** What the makes request gave: an ok response with its makes, a response
      that was not ok, or a thrown error. */
  datatype FetchResponse = FetchOk(makes: seq<TeamMake>) | FetchNotOk | FetchThrew

  datatype CreateResponse = CreateOk(make: TeamMake) | CreateNotOk(detail: Option<string>) | CreateThrew

  datatype SubmitResponse = SubmitOk | SubmitNotOk | SubmitThrew

  /** The body of the create-make request: the name as typed, untrimmed. */
  datatype AppCreateRequest = AppCreateRequest(displayName: string, key: string)

  /** The makes the component shows: an ok response's list, even an empty
      one; the defaults otherwise. */
  function FetchedMakes(response: FetchResponse): (r: seq<TeamMake>)
    ensures response.FetchOk? ==> r == response.makes
    ensures !response.FetchOk? ==> r == DefaultTeamMakes
  {
    if response.FetchOk? then response.makes else DefaultTeamMakes
  }

  /** `errorData.detail || 'Failed to create make'`: an empty detail falls back. */
  function CreateErrorText(detail: Option<string>): (s: string)
    ensures |s| > 0
    ensures detail.Some? && detail.value != "" ==> s == detail.value
  {
    if detail.Some? && detail.value != "" then detail.value else "Failed to create make"
  }

  const EnterMakeName := "Please enter a make name"
  const CreateMakeError := "An error occurred while creating the make"
  const InvalidMake := "Invalid team make selected. Please choose a valid option."
  const ServerError := "Server responded with an error"
  const SubmitFailed := "Failed to submit form. Please try again."

  class BreadAppState {
    var formData: BreadFormData
    var loading: bool
    var error: Option<string>
    var success: bool
    var teamMakes: seq<TeamMake>
    var isLoadingMakes: bool
    var isAddMakeModalOpen: bool
    var newMakeName: string
    var isAddingMake: bool
    var addMakeError: Option<string>

    /** The component's first state, with `now` for every `dayjs()`. */
    constructor(now: int)
      ensures formData == AppInitialFormData(now)
      ensures !loading && error.None? && !success && teamMakes == [] && !isLoadingMakes
      ensures !isAddMakeModalOpen && newMakeName == "" && !isAddingMake && addMakeError.None?
    {
      formData := AppInitialFormData(now);
      loading := false;
      error := None;
      success := false;
      teamMakes := [];
      isLoadingMakes := false;
      isAddMakeModalOpen := false;
      newMakeName := "";
      isAddingMake := false;
      addMakeError := None;
    }

    /** The mount effect, given the makes response. */
    method FetchTeamMakes(response: FetchResponse)
      modifies this
      ensures teamMakes == FetchedMakes(response) && !isLoadingMakes
      ensures formData == old(formData) && loading == old(loading) && error == old(error) && success == old(success)
      ensures isAddMakeModalOpen == old(isAddMakeModalOpen) && newMakeName == old(newMakeName)
      ensures isAddingMake == old(isAddingMake) && addMakeError == old(addMakeError)
    {
      isLoadingMakes := true;
      match response {
        case FetchOk(makes) => teamMakes := makes;
        case FetchNotOk => teamMakes := DefaultTeamMakes;
        case FetchThrew => teamMakes := DefaultTeamMakes;
      }
      isLoadingMakes := false;
    }

    /** `toggleTemperatureUnit`: nothing for the current unit, otherwise all
        five readings converted with the component's copy and the unit set. */
    method ToggleTemperatureUnit(unit: TemperatureUnit)
      modifies this
      ensures formData == old(formData).(temperatures := BreadForm.ToggleTemperatures(old(formData).temperatures, unit))
      ensures unit == old(formData).temperatures.unit ==> formData == old(formData)
      ensures loading == old(loading) && error == old(error) && success == old(success) && teamMakes == old(teamMakes)
      ensures isLoadingMakes == old(isLoadingMakes) && isAddMakeModalOpen == old(isAddMakeModalOpen)
      ensures newMakeName == old(newMakeName) && isAddingMake == old(isAddingMake) && addMakeError == old(addMakeError)
    {
      var t := formData.temperatures;
      var currentUnit := t.unit;
      if unit == currentUnit {
        return;
      }
      var c := (x: real) => AppConvertTemperature(x, currentUnit, unit);
      forall f: TemperatureField
        ensures c(GetTemperature(t, f)) == Temperature.ConvertTemperature(GetTemperature(t, f), currentUnit, unit)
      {
        AppConvertAgrees(GetTemperature(t, f), currentUnit, unit);
      }
      var converted := TemperatureSettings(unit, c(t.roomTemp), c(t.flourTemp), c(t.prefermentTemp), c(t.waterTemp), c(t.doughTemp));
      assert converted == BreadForm.ToggleTemperatures(t, unit) by {
        var r := BreadForm.ToggleTemperatures(t, unit);
        assert GetTemperature(r, RoomTemp) == converted.roomTemp;
        assert GetTemperature(r, FlourTemp) == converted.flourTemp;
        assert GetTemperature(r, PrefermentTemp) == converted.prefermentTemp;
        assert GetTemperature(r, WaterTemp) == converted.waterTemp;
        assert GetTemperature(r, DoughTemp) == converted.doughTemp;
      }
      formData := formData.(temperatures := converted);
    }

    /** `handleInputChange` */
    method HandleInputChange(field: BreadForm.InputField, value: string)
      modifies this
      ensures formData == (if field == BreadForm.TeamMakeInput then old(formData).(teamMake := value) else old(formData).(notes := value))
      ensures loading == old(loading) && error == old(error) && success == old(success) && teamMakes == old(teamMakes)
      ensures isLoadingMakes == old(isLoadingMakes) && isAddMakeModalOpen == old(isAddMakeModalOpen)
      ensures newMakeName == old(newMakeName) && isAddingMake == old(isAddingMake) && addMakeError == old(addMakeError)
    {
      if field == BreadForm.TeamMakeInput {
        formData := formData.(teamMake := value);
      } else {
        formData := formData.(notes := value);
      }
    }

    /** `handleDateChange` */
    method HandleDateChange(newDate: Option<int>)
      modifies this
      ensures formData == old(formData).(date := newDate)
      ensures loading == old(loading) && error == old(error) && success == old(success) && teamMakes == old(teamMakes)
      ensures isLoadingMakes == old(isLoadingMakes) && isAddMakeModalOpen == old(isAddMakeModalOpen)
      ensures newMakeName == old(newMakeName) && isAddingMake == old(isAddingMake) && addMakeError == old(addMakeError)
    {
      formData := formData.(date := newDate);
    }

    /** `handleTimeChange`: the process at `index` gets the new time. */
    method HandleTimeChange(index: int, newTime: Option<int>)
      requires 0 <= index < |formData.processes|
      modifies this
      ensures formData == old(formData).(processes := SetTimeAt(old(formData).processes, index, newTime))
      ensures loading == old(loading) && error == old(error) && success == old(success) && teamMakes == old(teamMakes)
      ensures isLoadingMakes == old(isLoadingMakes) && isAddMakeModalOpen == old(isAddMakeModalOpen)
      ensures newMakeName == old(newMakeName) && isAddingMake == old(isAddingMake) && addMakeError == old(addMakeError)
    {
      var updatedProcesses := formData.processes;
      updatedProcesses := updatedProcesses[index := updatedProcesses[index].(time := newTime)];
      formData := formData.(processes := updatedProcesses);
    }

    /** `handleStretchFoldCheck`, with `now` for `dayjs()`. */
    method HandleStretchFoldCheck(id: int, performed: bool, now: int)
      modifies this
      ensures formData == old(formData).(stretchFolds := CheckFold(old(formData).stretchFolds, id, performed, now))
      ensures loading == old(loading) && error == old(error) && success == old(success) && teamMakes == old(teamMakes)
      ensures isLoadingMakes == old(isLoadingMakes) && isAddMakeModalOpen == old(isAddMakeModalOpen)
      ensures newMakeName == old(newMakeName) && isAddingMake == old(isAddingMake) && addMakeError == old(addMakeError)
    {
      formData := formData.(stretchFolds := CheckFold(formData.stretchFolds, id, performed, now));
    }

    /** `handleStretchFoldTimeChange` */
    method HandleStretchFoldTimeChange(id: int, time: Option<int>)
      modifies this
      ensures formData == old(formData).(stretchFolds := TimeChangeFold(old(formData).stretchFolds, id, time))
      ensures loading == old(loading) && error == old(error) && success == old(success) && teamMakes == old(teamMakes)
      ensures isLoadingMakes == old(isLoadingMakes) && isAddMakeModalOpen == old(isAddMakeModalOpen)
      ensures newMakeName == old(newMakeName) && isAddingMake == old(isAddingMake) && addMakeError == old(addMakeError)
    {
      formData := formData.(stretchFolds := TimeChangeFold(formData.stretchFolds, id, time));
    }

    /** `addNewDough`: opens the modal with an empty name and no error. */
    method AddNewDough()
      modifies this
      ensures isAddMakeModalOpen && newMakeName == "" && addMakeError.None?
      ensures formData == old(formData) && loading == old(loading) && error == old(error) && success == old(success)
      ensures teamMakes == old(teamMakes) && isLoadingMakes == old(isLoadingMakes) && isAddingMake == old(isAddingMake)
    {
      isAddMakeModalOpen := true;
      newMakeName := "";
      addMakeError := None;
    }

    /** `handleModalClose`: closes the modal and keeps the name and error. */
    method HandleModalClose()
      modifies this
      ensures !isAddMakeModalOpen
      ensures formData == old(formData) && loading == old(loading) && error == old(error) && success == old(success)
      ensures teamMakes == old(teamMakes) && isLoadingMakes == old(isLoadingMakes) && isAddingMake == old(isAddingMake)
      ensures newMakeName == old(newMakeName) && addMakeError == old(addMakeError)
    {
      isAddMakeModalOpen := false;
    }

    /** The modal's text field. */
    method SetNewMakeName(name: string)
      modifies this
      ensures newMakeName == name
      ensures formData == old(formData) && loading == old(loading) && error == old(error) && success == old(success)
      ensures teamMakes == old(teamMakes) && isLoadingMakes == old(isLoadingMakes) && isAddingMake == old(isAddingMake)
      ensures isAddMakeModalOpen == old(isAddMakeModalOpen) && addMakeError == old(addMakeError)
    {
      newMakeName := name;
    }

    /** `handleCreateMake`, given the server's response.  A blank name only
        sets the error; otherwise the name as typed is sent with the derived
        key, and an ok response appends the make, selects its key and closes
        the modal. */
    method HandleCreateMake(response: CreateResponse) returns (request: Option<AppCreateRequest>)
      modifies this
      ensures loading == old(loading) && error == old(error) && success == old(success)
      ensures isLoadingMakes == old(isLoadingMakes) && newMakeName == old(newMakeName)
      ensures AllSpace(old(newMakeName)) ==>
        request.None? && addMakeError == Some(EnterMakeName) && formData == old(formData)
        && teamMakes == old(teamMakes) && isAddMakeModalOpen == old(isAddMakeModalOpen)
        && isAddingMake == old(isAddingMake)
      ensures !AllSpace(old(newMakeName)) ==>
        !isAddingMake && request == Some(AppCreateRequest(old(newMakeName), CreateMakeKey(old(newMakeName))))
        && (response.CreateOk? ==>
              teamMakes == old(teamMakes) + [response.make]
              && formData == old(formData).(teamMake := response.make.key)
              && !isAddMakeModalOpen && addMakeError.None?)
        && (response.CreateNotOk? ==>
              teamMakes == old(teamMakes) && formData == old(formData) && isAddMakeModalOpen == old(isAddMakeModalOpen)
              && addMakeError == Some(CreateErrorText(response.detail)))
        && (response.CreateThrew? ==>
              teamMakes == old(teamMakes) && formData == old(formData) && isAddMakeModalOpen == old(isAddMakeModalOpen)
              && addMakeError == Some(CreateMakeError))
    {
      TrimSpec(newMakeName);
      if Trim(newMakeName) == "" {
        addMakeError := Some(EnterMakeName);
        return None;
      }
      isAddingMake := true;
      addMakeError := None;
      var key := CreateMakeKey(newMakeName);
      request := Some(AppCreateRequest(newMakeName, key));
      match response {
        case CreateOk(make) =>
          teamMakes := teamMakes + [make];
          formData := formData.(teamMake := make.key);
          isAddMakeModalOpen := false;
        case CreateNotOk(detail) =>
          addMakeError := Some(CreateErrorText(detail));
        case CreateThrew =>
          addMakeError := Some(CreateMakeError);
      }
      isAddingMake := false;
    }

    /** `handleSubmit`, given the server's response.  A make key not in the
        list stops it before any request; otherwise the payload is posted to
        the form's date and make, and the response decides between success
        and an error. */
    method HandleSubmit(response: SubmitResponse) returns (request: Option<AppSubmitRequest>)
      modifies this
      ensures formData == old(formData) && teamMakes == old(teamMakes) && !loading
      ensures isLoadingMakes == old(isLoadingMakes) && isAddMakeModalOpen == old(isAddMakeModalOpen)
      ensures newMakeName == old(newMakeName) && isAddingMake == old(isAddingMake) && addMakeError == old(addMakeError)
      ensures !HasKey(teamMakes, formData.teamMake) ==>
        request.None? && error == Some(InvalidMake) && !success
      ensures HasKey(teamMakes, formData.teamMake) ==>
        request == Some(AppSubmitRequest(formData.date, formData.teamMake, PayloadOf(formData)))
        && (response.SubmitOk? ==> success && error.None?)
        && (response.SubmitNotOk? ==> !success && error == Some(ServerError))
        && (response.SubmitThrew? ==> !success && error == Some(SubmitFailed))
    {
      loading := true;
      error := None;
      success := false;
      if !HasKey(teamMakes, formData.teamMake) {
        error := Some(InvalidMake);
        loading := false;
        return None;
      }
      request := Some(AppSubmitRequest(formData.date, formData.teamMake, PayloadOf(formData)));
      match response {
        case SubmitOk => success := true;
        case SubmitNotOk => error := Some(ServerError);
        case SubmitThrew => error := Some(SubmitFailed);
      }
      loading := false;
    }
  }
}
