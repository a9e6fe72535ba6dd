/** The bread form hook: the form state and the handlers that replace it,
    the stretch-fold list operations, loading a saved make into the form and
    preparing the submission.  API calls are inputs: a method that would call
    the API returns the request it sends and takes the call's outcome. */
module BreadForm {
  import opened Wrappers
  import opened BreadTypes
  import Temperature
  import JsString

  const ProcessSteps: seq<string> := ["Autolyse", "Start", "Pull", "Preshape", "Final Shape", "Fridge"]

  /** The six process steps, all at time `now`. */
  function InitialProcesses(now: int): (ps: seq<DoughProcess>)
    ensures |ps| == |ProcessSteps|
    ensures forall i :: 0 <= i < |ps| ==> ps[i] == DoughProcess(ProcessSteps[i], Some(now))
  {
    seq(|ProcessSteps|, i requires 0 <= i < |ProcessSteps| => DoughProcess(ProcessSteps[i], Some(now)))
  }

  function InitialFormData(now: int): BreadFormData {
    BreadFormData(Some(now), "hoagie", InitialTempSettings, InitialProcesses(now), InitialStretchFolds, "")
  }

  // ---------------------------------------------------------------- processes

  predicate HasStep(ps: seq<DoughProcess>, step: string) {
    exists i :: 0 <= i < |ps| && ps[i].step == step
  }

  /** `processes.find(p => p.step === step)?.time`: the time of the first
      process with that step, or none. */
  function FindTime(ps: seq<DoughProcess>, step: string): (t: Option<int>)
    ensures !HasStep(ps, step) ==> t.None?
    ensures t.Some? ==> exists i :: 0 <= i < |ps| && ps[i].step == step && ps[i].time == t
    decreases |ps|
  {
    if |ps| == 0 then None
    else if ps[0].step == step then ps[0].time
    else
      var t := FindTime(ps[1..], step);
      assert HasStep(ps[1..], step) ==> HasStep(ps, step) by {
        if HasStep(ps[1..], step) {
          var i :| 0 <= i < |ps[1..]| && ps[1..][i].step == step;
          assert ps[i + 1].step == step;
        }
      }
      assert t.Some? ==> exists i :: 0 <= i < |ps| && ps[i].step == step && ps[i].time == t by {
        if t.Some? {
          var i :| 0 <= i < |ps[1..]| && ps[1..][i].step == step && ps[1..][i].time == t;
          assert ps[i + 1] == ps[1..][i];
        }
      }
      t
  }

  /** `handleProcessTimeChange`: every process with the step gets the time;
      the list keeps its length and order. */
  function SetProcessTime(ps: seq<DoughProcess>, step: string, time: Option<int>): (r: seq<DoughProcess>)
    ensures |r| == |ps|
    ensures forall i :: 0 <= i < |ps| ==> r[i].step == ps[i].step
    ensures forall i :: 0 <= i < |ps| ==> r[i].time == (if ps[i].step == step then time else ps[i].time)
  {
    seq(|ps|, i requires 0 <= i < |ps| => if ps[i].step == step then ps[i].(time := time) else ps[i])
  }

  lemma HasStepTail(ps: seq<DoughProcess>, step: string)
    requires |ps| > 0 && ps[0].step != step
    ensures HasStep(ps, step) <==> HasStep(ps[1..], step)
  {
    if HasStep(ps, step) {
      var i :| 0 <= i < |ps| && ps[i].step == step;
      assert ps[1..][i - 1].step == step;
    }
    if HasStep(ps[1..], step) {
      var i :| 0 <= i < |ps[1..]| && ps[1..][i].step == step;
      assert ps[i + 1].step == step;
    }
  }

  /** After setting a step's time, looking the step up gives that time when
      the step exists. */
  lemma {:induction false} SetThenFindTime(ps: seq<DoughProcess>, step: string, time: Option<int>)
    ensures FindTime(SetProcessTime(ps, step, time), step) == (if HasStep(ps, step) then time else None)
    decreases |ps|
  {
    if |ps| > 0 {
      var r := SetProcessTime(ps, step, time);
      assert r[1..] == SetProcessTime(ps[1..], step, time);
      if ps[0].step != step {
        SetThenFindTime(ps[1..], step, time);
        HasStepTail(ps, step);
      } else {
        assert HasStep(ps, step) by { assert ps[0].step == step; }
      }
    }
  }

  /** Setting a step's time leaves the time found for every other step as it was. */
  lemma {:induction false} SetKeepsOtherTimes(ps: seq<DoughProcess>, step: string, other: string, time: Option<int>)
    requires other != step
    ensures FindTime(SetProcessTime(ps, step, time), other) == FindTime(ps, other)
    decreases |ps|
  {
    if |ps| > 0 {
      var r := SetProcessTime(ps, step, time);
      assert r[1..] == SetProcessTime(ps[1..], step, time);
      SetKeepsOtherTimes(ps[1..], step, other, time);
    }
  }

  // ----------------------------------------------------------- stretch folds

  /** `Math.max(...folds.map(sf => sf.id), 0)` */
  function MaxId(folds: seq<StretchFold>): (m: int)
    ensures m >= 0
    ensures forall i :: 0 <= i < |folds| ==> folds[i].id <= m
    ensures m == 0 || exists i :: 0 <= i < |folds| && folds[i].id == m
    decreases |folds|
  {
    if |folds| == 0 then 0
    else
      var rest := MaxId(folds[1..]);
      assert forall i :: 1 <= i < |folds| ==> folds[i].id == folds[1..][i - 1].id;
      assert rest != 0 ==> exists i :: 0 <= i < |folds| && folds[i].id == rest by {
        if rest != 0 {
          var i :| 0 <= i < |folds[1..]| && folds[1..][i].id == rest;
          assert folds[i + 1].id == rest;
        }
      }
      if folds[0].id > rest then folds[0].id else rest
  }

  /** `addStretchFold`: one unperformed, untimed fold appended, with an id
      above every existing one. */
  function AddStretchFold(folds: seq<StretchFold>): (r: seq<StretchFold>)
    ensures |r| == |folds| + 1 && r[..|folds|] == folds
    ensures r[|folds|] == StretchFold(MaxId(folds) + 1, false, None)
    ensures forall i :: 0 <= i < |folds| ==> folds[i].id < r[|folds|].id
  {
    folds + [StretchFold(MaxId(folds) + 1, false, None)]
  }

  /** `removeStretchFold`: `folds.filter(sf => sf.id !== id)`. */
  function RemoveStretchFold(folds: seq<StretchFold>, id: int): (r: seq<StretchFold>)
    ensures |r| <= |folds|
    ensures forall f :: f in r <==> f in folds && f.id != id
    decreases |folds|
  {
    if |folds| == 0 then []
    else (if folds[0].id != id then [folds[0]] else []) + RemoveStretchFold(folds[1..], id)
  }

  /** Filtering distributes over concatenation, so the kept folds stay in order. */
  lemma {:induction false} RemoveStretchFoldAppend(a: seq<StretchFold>, b: seq<StretchFold>, id: int)
    ensures RemoveStretchFold(a + b, id) == RemoveStretchFold(a, id) + RemoveStretchFold(b, id)
    decreases |a|
  {
    if |a| == 0 {
      assert a + b == b;
    } else {
      assert (a + b)[1..] == a[1..] + b;
      RemoveStretchFoldAppend(a[1..], b, id);
    }
  }

  /** Removing an id no fold has changes nothing. */
  lemma {:induction false} RemoveAbsentId(folds: seq<StretchFold>, id: int)
    requires forall i :: 0 <= i < |folds| ==> folds[i].id != id
    ensures RemoveStretchFold(folds, id) == folds
    decreases |folds|
  {
    if |folds| > 0 {
      RemoveAbsentId(folds[1..], id);
      assert [folds[0]] + folds[1..] == folds;
    }
  }

  /** Removing the fold just added gives back the list it was added to. */
  lemma RemoveUndoesAdd(folds: seq<StretchFold>)
    ensures RemoveStretchFold(AddStretchFold(folds), MaxId(folds) + 1) == folds
  {
    var id := MaxId(folds) + 1;
    var added := StretchFold(id, false, None);
    var tail := RemoveStretchFold([added], id);
    assert tail == [] by {
      assert [added][1..] == [];
    }
    calc {
      RemoveStretchFold(AddStretchFold(folds), id);
      RemoveStretchFold(folds + [added], id);
      { RemoveStretchFoldAppend(folds, [added], id); }
      RemoveStretchFold(folds, id) + tail;
      { RemoveAbsentId(folds, id); }
      folds + [];
    }
    assert folds + [] == folds;
  }

  /** `Partial<StretchFold>`: the fields an update sets. */
  datatype FoldUpdate = FoldUpdate(id: Option<int>, performed: Option<bool>, time: Option<Option<int>>)

  /** `{...sf, ...updates}` */
  function MergeFold(sf: StretchFold, u: FoldUpdate): (r: StretchFold)
    ensures r.id == (if u.id.Some? then u.id.value else sf.id)
    ensures r.performed == (if u.performed.Some? then u.performed.value else sf.performed)
    ensures r.time == (if u.time.Some? then u.time.value else sf.time)
  {
    StretchFold(
      if u.id.Some? then u.id.value else sf.id,
      if u.performed.Some? then u.performed.value else sf.performed,
      if u.time.Some? then u.time.value else sf.time)
  }

  /** `updateStretchFold`: the folds with the id get the update merged in;
      the list keeps its length and order. */
  function UpdateStretchFold(folds: seq<StretchFold>, id: int, u: FoldUpdate): (r: seq<StretchFold>)
    ensures |r| == |folds|
    ensures forall i :: 0 <= i < |folds| ==> r[i] == (if folds[i].id == id then MergeFold(folds[i], u) else folds[i])
  {
    seq(|folds|, i requires 0 <= i < |folds| => if folds[i].id == id then MergeFold(folds[i], u) else folds[i])
  }

  /** An empty update, or one for an id no fold has, leaves the list as it is;
      an update that keeps the id applied twice is the same as applied once. */
  lemma UpdateStretchFoldLaws(folds: seq<StretchFold>, id: int, u: FoldUpdate)
    ensures UpdateStretchFold(folds, id, FoldUpdate(None, None, None)) == folds
    ensures (forall i :: 0 <= i < |folds| ==> folds[i].id != id) ==> UpdateStretchFold(folds, id, u) == folds
    ensures (u.id.None? || u.id == Some(id)) ==>
      UpdateStretchFold(UpdateStretchFold(folds, id, u), id, u) == UpdateStretchFold(folds, id, u)
  {
    var e := UpdateStretchFold(folds, id, FoldUpdate(None, None, None));
    assert forall i :: 0 <= i < |folds| ==> e[i] == folds[i];
  }

  // ------------------------------------------------------------- temperatures

  /** `toggleTemperatureUnit`'s new settings: unchanged for the current unit,
      otherwise all five readings converted and the unit set. */
  function ToggleTemperatures(t: TemperatureSettings, unit: TemperatureUnit): (r: TemperatureSettings)
    ensures unit == t.unit ==> r == t
    ensures r.unit == unit
    ensures forall f: TemperatureField ::
      GetTemperature(r, f) == Temperature.ConvertTemperature(GetTemperature(t, f), t.unit, unit)
  {
    if unit == t.unit then t
    else
      var c := (x: real) => Temperature.ConvertTemperature(x, t.unit, unit);
      TemperatureSettings(unit, c(t.roomTemp), c(t.flourTemp), c(t.prefermentTemp), c(t.waterTemp), c(t.doughTemp))
  }

  predicate AllIntegral(t: TemperatureSettings) {
    forall f: TemperatureField :: Temperature.Integral(GetTemperature(t, f))
  }

  predicate AllValid(t: TemperatureSettings) {
    forall f: TemperatureField :: Temperature.IsValidTemperature(GetTemperature(t, f), t.unit)
  }

  /** Whole Celsius readings come back unchanged from a switch to Fahrenheit
      and back. */
  lemma ToggleCelsiusRoundTrip(t: TemperatureSettings)
    requires t.unit == Celsius && AllIntegral(t)
    ensures ToggleTemperatures(ToggleTemperatures(t, Fahrenheit), Celsius) == t
  {
    var r := ToggleTemperatures(ToggleTemperatures(t, Fahrenheit), Celsius);
    forall f: TemperatureField ensures GetTemperature(r, f) == GetTemperature(t, f) {
      Temperature.CelsiusRoundTrip(GetTemperature(t, f));
    }
    assert GetTemperature(r, RoomTemp) == t.roomTemp;
    assert GetTemperature(r, FlourTemp) == t.flourTemp;
    assert GetTemperature(r, PrefermentTemp) == t.prefermentTemp;
    assert GetTemperature(r, WaterTemp) == t.waterTemp;
    assert GetTemperature(r, DoughTemp) == t.doughTemp;
  }

  /** Switching units keeps every in-range reading in range. */
  lemma ToggleKeepsValid(t: TemperatureSettings, unit: TemperatureUnit)
    requires AllValid(t)
    ensures AllValid(ToggleTemperatures(t, unit))
  {
    forall f: TemperatureField
      ensures Temperature.IsValidTemperature(GetTemperature(ToggleTemperatures(t, unit), f), unit)
    {
      Temperature.ConvertKeepsValid(GetTemperature(t, f), t.unit, unit);
    }
  }

  // --------------------------------------------------------------- validation

  /** `validateForm`: the date is checked first, then the make. */
  function ValidateForm(fd: BreadFormData): (e: Option<string>)
    ensures e == Some("Date is required") <==> fd.date.None?
    ensures e == Some("Team make is required") <==> fd.date.Some? && fd.teamMake == ""
    ensures e.None? <==> fd.date.Some? && fd.teamMake != ""
  {
    if fd.date.None? then Some("Date is required")
    else if fd.teamMake == "" then Some("Team make is required")
    else None
  }

  // ------------------------------------------------------- loading a saved make

  /** Saved folds renumbered 1..n, all performed, keeping their timestamps. */
  function RenumberFolds(saved: seq<SavedFold>): (r: seq<StretchFold>)
    ensures |r| == |saved|
    ensures forall i :: 0 <= i < |saved| ==> r[i] == StretchFold(i + 1, true, saved[i].timestamp)
  {
    seq(|saved|, i requires 0 <= i < |saved| => StretchFold(i + 1, true, saved[i].timestamp))
  }

  function OrZero(t: Option<real>): real {
    if t.Some? then t.value else 0.0
  }

  /** `populateFormWithDough`'s new form state. */
  function PopulateForm(d: DoughMake): (fd: BreadFormData)
    ensures fd.date == Some(d.date) && fd.teamMake == d.name
    ensures fd.temperatures.unit == Celsius <==> d.tempUnit == Some("Celsius")
    ensures d.stretchFolds.Some? && |d.stretchFolds.value| > 0 ==>
      |fd.stretchFolds| == |d.stretchFolds.value|
      && forall i :: 0 <= i < |fd.stretchFolds| ==> fd.stretchFolds[i].id == i + 1 && fd.stretchFolds[i].performed
    ensures !(d.stretchFolds.Some? && |d.stretchFolds.value| > 0) ==> fd.stretchFolds == InitialStretchFolds
    ensures |fd.processes| == |ProcessSteps|
    ensures forall i :: 0 <= i < |ProcessSteps| ==> fd.processes[i].step == ProcessSteps[i]
  {
    var unit := if d.tempUnit == Some("Celsius") then Celsius else Fahrenheit;
    var processes := [
      DoughProcess("Autolyse", d.autolyseTs),
      DoughProcess("Start", d.startTs),
      DoughProcess("Pull", d.pullTs),
      DoughProcess("Preshape", d.preshapeTs),
      DoughProcess("Final Shape", d.finalShapeTs),
      DoughProcess("Fridge", d.fridgeTs)];
    var folds :=
      if d.stretchFolds.Some? && |d.stretchFolds.value| > 0 then RenumberFolds(d.stretchFolds.value)
      else InitialStretchFolds;
    BreadFormData(
      Some(d.date),
      d.name,
      TemperatureSettings(unit, OrZero(d.roomTemp), OrZero(d.flourTemp), OrZero(d.prefermentTemp),
        OrZero(d.waterTemp), OrZero(d.doughTemp)),
      processes,
      folds,
      if d.notes.Some? then d.notes.value else "")
  }

  // ---------------------------------------------------------------- submission

  datatype FoldPayload = FoldPayload(foldNumber: int, timestamp: Option<int>)

  /** The body of a create or update request. */
  datatype SubmissionData = SubmissionData(
    date: int,
    autolyseTs: Option<int>,
    startTs: Option<int>,
    pullTs: Option<int>,
    preshapeTs: Option<int>,
    finalShapeTs: Option<int>,
    fridgeTs: Option<int>,
    roomTemp: real,
    waterTemp: real,
    flourTemp: real,
    prefermentTemp: real,
    doughTemp: real,
    tempUnit: string,
    stretchFolds: seq<FoldPayload>,
    notes: Option<string>)

  /** The performed folds, in order, as payloads numbered by their ids. */
  function SubmittedFolds(folds: seq<StretchFold>): (r: seq<FoldPayload>)
    ensures |r| <= |folds|
    ensures forall k :: 0 <= k < |r| ==>
      exists i :: 0 <= i < |folds| && folds[i].performed && r[k] == FoldPayload(folds[i].id, folds[i].time)
    ensures (forall i :: 0 <= i < |folds| ==> !folds[i].performed) ==> r == []
    decreases |folds|
  {
    if |folds| == 0 then []
    else
      var rest := SubmittedFolds(folds[1..]);
      var r := (if folds[0].performed then [FoldPayload(folds[0].id, folds[0].time)] else []) + rest;
      assert forall k :: 0 <= k < |r| ==>
        exists i :: 0 <= i < |folds| && folds[i].performed && r[k] == FoldPayload(folds[i].id, folds[i].time) by {
        forall k | 0 <= k < |r|
          ensures exists i :: 0 <= i < |folds| && folds[i].performed && r[k] == FoldPayload(folds[i].id, folds[i].time)
        {
          var off := |r| - |rest|;
          if k < off {
            assert folds[0].performed && r[k] == FoldPayload(folds[0].id, folds[0].time);
          } else {
            var i :| 0 <= i < |folds[1..]| && folds[1..][i].performed
              && rest[k - off] == FoldPayload(folds[1..][i].id, folds[1..][i].time);
            assert folds[i + 1] == folds[1..][i];
          }
        }
      }
      r
  }

  /** Submission order follows list order: the folds of a concatenation are
      the folds of each part, one after the other. */
  lemma {:induction false} SubmittedFoldsAppend(a: seq<StretchFold>, b: seq<StretchFold>)
    ensures SubmittedFolds(a + b) == SubmittedFolds(a) + SubmittedFolds(b)
    decreases |a|
  {
    if |a| == 0 {
      assert a + b == b;
    } else {
      var head := if a[0].performed then [FoldPayload(a[0].id, a[0].time)] else [];
      assert (a + b)[0] == a[0];
      assert (a + b)[1..] == a[1..] + b;
      calc {
        SubmittedFolds(a + b);
        head + SubmittedFolds(a[1..] + b);
        { SubmittedFoldsAppend(a[1..], b); }
        head + (SubmittedFolds(a[1..]) + SubmittedFolds(b));
        (head + SubmittedFolds(a[1..])) + SubmittedFolds(b);
        SubmittedFolds(a) + SubmittedFolds(b);
      }
    }
  }

  /** When every fold is performed, each one is sent, numbered by its id. */
  lemma {:induction false} SubmittedFoldsAllPerformed(folds: seq<StretchFold>)
    requires forall i :: 0 <= i < |folds| ==> folds[i].performed
    ensures SubmittedFolds(folds) == seq(|folds|, i requires 0 <= i < |folds| => FoldPayload(folds[i].id, folds[i].time))
    decreases |folds|
  {
    if |folds| > 0 {
      SubmittedFoldsAllPerformed(folds[1..]);
    }
  }

  /** `prepareSubmissionData`; the date must be set (it is read with `!`). */
  function PrepareSubmission(fd: BreadFormData): (s: SubmissionData)
    requires fd.date.Some?
    ensures s.date == fd.date.value
    ensures s.notes.None? <==> fd.notes == ""
    ensures s.notes.Some? ==> s.notes.value == fd.notes
    ensures s.stretchFolds == SubmittedFolds(fd.stretchFolds)
    ensures s.tempUnit == UnitName(fd.temperatures.unit)
  {
    var ps := fd.processes;
    var t := fd.temperatures;
    SubmissionData(
      fd.date.value,
      FindTime(ps, "Autolyse"), FindTime(ps, "Start"), FindTime(ps, "Pull"),
      FindTime(ps, "Preshape"), FindTime(ps, "Final Shape"), FindTime(ps, "Fridge"),
      t.roomTemp, t.waterTemp, t.flourTemp, t.prefermentTemp, t.doughTemp,
      UnitName(t.unit),
      SubmittedFolds(fd.stretchFolds),
      if fd.notes == "" then None else Some(fd.notes))
  }

  /** Loading a saved make and submitting it straight away sends back the
      make's own process times and readings (missing readings as 0), its
      folds renumbered 1..n, its unit as Celsius or Fahrenheit, and its
      notes with an empty text sent as null. */
  lemma PopulateThenPrepare(d: DoughMake)
    ensures var s := PrepareSubmission(PopulateForm(d));
      s.date == d.date
      && s.autolyseTs == d.autolyseTs && s.startTs == d.startTs && s.pullTs == d.pullTs
      && s.preshapeTs == d.preshapeTs && s.finalShapeTs == d.finalShapeTs && s.fridgeTs == d.fridgeTs
      && s.roomTemp == OrZero(d.roomTemp) && s.waterTemp == OrZero(d.waterTemp)
      && s.flourTemp == OrZero(d.flourTemp) && s.prefermentTemp == OrZero(d.prefermentTemp)
      && s.doughTemp == OrZero(d.doughTemp)
      && s.tempUnit == (if d.tempUnit == Some("Celsius") then "Celsius" else "Fahrenheit")
      && s.notes == (if d.notes.None? || d.notes == Some("") then None else d.notes)
    ensures d.stretchFolds.Some? && |d.stretchFolds.value| > 0 ==>
      var saved := d.stretchFolds.value;
      PrepareSubmission(PopulateForm(d)).stretchFolds
        == seq(|saved|, i requires 0 <= i < |saved| => FoldPayload(i + 1, saved[i].timestamp))
    ensures !(d.stretchFolds.Some? && |d.stretchFolds.value| > 0) ==> PrepareSubmission(PopulateForm(d)).stretchFolds == []
  {
    var fd := PopulateForm(d);
    var ps := fd.processes;
    ProcessesFound(ps, d);
    if d.stretchFolds.Some? && |d.stretchFolds.value| > 0 {
      SubmittedFoldsAllPerformed(fd.stretchFolds);
    } else {
      assert !fd.stretchFolds[0].performed;
    }
  }

  /** The time `find` reports is that of the first process with the step. */
  lemma {:induction false} FindTimeAt(ps: seq<DoughProcess>, step: string, i: nat)
    requires i < |ps| && ps[i].step == step
    requires forall j :: 0 <= j < i ==> ps[j].step != step
    ensures FindTime(ps, step) == ps[i].time
    decreases i
  {
    if i > 0 {
      assert ps[0].step != step;
      FindTimeAt(ps[1..], step, i - 1);
    }
  }

  /** The six step names differ from each other. */
  lemma StepsDistinct()
    ensures forall i, j :: 0 <= i < j < |ProcessSteps| ==> ProcessSteps[i] != ProcessSteps[j]
  {
    var s := ProcessSteps;
    assert |s[0]| == 8 && |s[1]| == 5 && |s[2]| == 4 && |s[3]| == 8 && |s[4]| == 11 && |s[5]| == 6;
    assert s[0][0] == 'A' && s[3][0] == 'P';
  }

  lemma ProcessesFound(ps: seq<DoughProcess>, d: DoughMake)
    requires ps == PopulateForm(d).processes
    ensures FindTime(ps, "Autolyse") == d.autolyseTs
    ensures FindTime(ps, "Start") == d.startTs
    ensures FindTime(ps, "Pull") == d.pullTs
    ensures FindTime(ps, "Preshape") == d.preshapeTs
    ensures FindTime(ps, "Final Shape") == d.finalShapeTs
    ensures FindTime(ps, "Fridge") == d.fridgeTs
  {
    StepsDistinct();
    assert forall i :: 0 <= i < 6 ==> ps[i].step == ProcessSteps[i];
    FindTimeAt(ps, ProcessSteps[0], 0);
    FindTimeAt(ps, ProcessSteps[1], 1);
    FindTimeAt(ps, ProcessSteps[2], 2);
    FindTimeAt(ps, ProcessSteps[3], 3);
    FindTimeAt(ps, ProcessSteps[4], 4);
    FindTimeAt(ps, ProcessSteps[5], 5);
  }

  // ------------------------------------------------------------------ the hook

  /** The outcome of an awaited API call: it completed, or it threw (with
      the message when what it threw was an `Error`). */
  datatype ApiOutcome = Completed | Threw(message: Option<string>)

  function ErrorText(message: Option<string>, fallback: string): string {
    if message.Some? then message.value else fallback
  }

  /** A create request: the make's date and name in the path, the form's data as body. */
  datatype CreateRequest = CreateRequest(date: int, makeName: string, data: SubmissionData)

  /** An update request: the make's date, lower-cased name and original
      creation timestamp in the path, the form's data as body. */
  datatype UpdateRequest = UpdateRequest(date: int, makeName: string, createdAt: string, data: SubmissionData)

  /** The form fields a text input, select or textarea writes by name. */
  datatype InputField = TeamMakeInput | NotesInput

  function UpdateSuccessMessage(displayName: string, createdAtText: string): string {
    "Updated " + displayName + " created at " + createdAtText + " successfully"
  }

  class BreadFormHook {
    var formData: BreadFormData
    var loading: bool
    var error: Option<string>
    var success: bool
    var customSuccessMessage: Option<string>

    /** The hook's first state, with `now` for every `dayjs()`. */
    constructor(now: int)
      ensures formData == InitialFormData(now)
      ensures !loading && error.None? && !success && customSuccessMessage.None?
    {
      formData := InitialFormData(now);
      loading := false;
      error := None;
      success := false;
      customSuccessMessage := None;
    }

    /** `handleInputChange` */
    method HandleInputChange(field: InputField, value: string)
      modifies this
      ensures formData == (if field == TeamMakeInput then old(formData).(teamMake := value) else old(formData).(notes := value))
      ensures loading == old(loading) && error == old(error) && success == old(success)
      ensures customSuccessMessage == old(customSuccessMessage)
    {
      if field == TeamMakeInput {
        formData := formData.(teamMake := value);
      } else {
        formData := formData.(notes := value);
      }
    }

    /** `handleDateChange` */
    method HandleDateChange(newDate: Option<int>)
      modifies this
      ensures formData == old(formData).(date := newDate)
      ensures loading == old(loading) && error == old(error) && success == old(success)
      ensures customSuccessMessage == old(customSuccessMessage)
    {
      formData := formData.(date := newDate);
    }

    /** `handleTemperatureChange`, given what `parseFloat` made of the text
        (none for NaN); NaN and 0 both store 0. */
    method HandleTemperatureChange(field: TemperatureField, parsed: Option<real>)
      modifies this
      ensures formData == old(formData).(temperatures := SetTemperature(old(formData).temperatures, field, if parsed.Some? then parsed.value else 0.0))
      ensures loading == old(loading) && error == old(error) && success == old(success)
      ensures customSuccessMessage == old(customSuccessMessage)
    {
      var v := if parsed.Some? then parsed.value else 0.0;
      formData := formData.(temperatures := SetTemperature(formData.temperatures, field, v));
    }

    /** `toggleTemperatureUnit` */
    method ToggleTemperatureUnit(unit: TemperatureUnit)
      modifies this
      ensures formData == old(formData).(temperatures := ToggleTemperatures(old(formData).temperatures, unit))
      ensures unit == old(formData).temperatures.unit ==> formData == old(formData)
      ensures loading == old(loading) && error == old(error) && success == old(success)
      ensures customSuccessMessage == old(customSuccessMessage)
    {
      if unit == formData.temperatures.unit {
        return;
      }
      formData := formData.(temperatures := ToggleTemperatures(formData.temperatures, unit));
    }

    /** `handleProcessTimeChange` */
    method HandleProcessTimeChange(step: string, time: Option<int>)
      modifies this
      ensures formData == old(formData).(processes := SetProcessTime(old(formData).processes, step, time))
      ensures loading == old(loading) && error == old(error) && success == old(success)
      ensures customSuccessMessage == old(customSuccessMessage)
    {
      formData := formData.(processes := SetProcessTime(formData.processes, step, time));
    }

    /** `addStretchFold` */
    method AddFold()
      modifies this
      ensures formData == old(formData).(stretchFolds := AddStretchFold(old(formData).stretchFolds))
      ensures loading == old(loading) && error == old(error) && success == old(success)
      ensures customSuccessMessage == old(customSuccessMessage)
    {
      formData := formData.(stretchFolds := AddStretchFold(formData.stretchFolds));
    }

    /** `removeStretchFold` */
    method RemoveFold(id: int)
      modifies this
      ensures formData == old(formData).(stretchFolds := RemoveStretchFold(old(formData).stretchFolds, id))
      ensures loading == old(loading) && error == old(error) && success == old(success)
      ensures customSuccessMessage == old(customSuccessMessage)
    {
      formData := formData.(stretchFolds := RemoveStretchFold(formData.stretchFolds, id));
    }

    /** `updateStretchFold` */
    method UpdateFold(id: int, u: FoldUpdate)
      modifies this
      ensures formData == old(formData).(stretchFolds := UpdateStretchFold(old(formData).stretchFolds, id, u))
      ensures loading == old(loading) && error == old(error) && success == old(success)
      ensures customSuccessMessage == old(customSuccessMessage)
    {
      formData := formData.(stretchFolds := UpdateStretchFold(formData.stretchFolds, id, u));
    }

    /** `resetForm`, with `now` for `dayjs()`. */
    method ResetForm(now: int)
      modifies this
      ensures formData == InitialFormData(now)
      ensures error.None? && !success && customSuccessMessage.None?
      ensures loading == old(loading)
    {
      formData := InitialFormData(now);
      error := None;
      success := false;
      customSuccessMessage := None;
    }

    /** `populateFormWithDough` */
    method PopulateFormWithDough(d: DoughMake)
      modifies this
      ensures formData == PopulateForm(d)
      ensures loading == old(loading) && error == old(error) && success == old(success)
      ensures customSuccessMessage == old(customSuccessMessage)
    {
      formData := PopulateForm(d);
    }

    /** `submitForm`: an invalid form only sets the error; otherwise the create
        request is sent and its outcome decides between success and an error. */
    method SubmitForm(outcome: ApiOutcome) returns (request: Option<CreateRequest>)
      modifies this
      ensures formData == old(formData) && customSuccessMessage == old(customSuccessMessage)
      ensures ValidateForm(old(formData)).Some? ==>
        request.None? && error == ValidateForm(old(formData))
        && loading == old(loading) && success == old(success)
      ensures ValidateForm(old(formData)).None? ==>
        request == Some(CreateRequest(formData.date.value, formData.teamMake, PrepareSubmission(formData)))
        && !loading
        && (outcome.Completed? ==> success && error.None?)
        && (outcome.Threw? ==> !success && error == Some(ErrorText(outcome.message, "An unexpected error occurred")))
    {
      var v := ValidateForm(formData);
      if v.Some? {
        error := v;
        return None;
      }
      loading := true;
      error := None;
      success := false;
      request := Some(CreateRequest(formData.date.value, formData.teamMake, PrepareSubmission(formData)));
      if outcome.Completed? {
        success := true;
      } else {
        error := Some(ErrorText(outcome.message, "An unexpected error occurred"));
      }
      loading := false;
    }

    /** `updateForm`, given the locale text of the selected make's creation
        time, whether a callback was passed, and the API call's outcome.  It
        returns the request sent and whether the callback ran. */
    method UpdateForm(selected: DoughMake, createdAtText: string, hasCallback: bool, outcome: ApiOutcome)
      returns (request: Option<UpdateRequest>, callbackInvoked: bool)
      modifies this
      ensures formData == old(formData)
      ensures ValidateForm(old(formData)).Some? ==>
        request.None? && !callbackInvoked && error == ValidateForm(old(formData))
        && loading == old(loading) && success == old(success)
        && customSuccessMessage == old(customSuccessMessage)
      ensures ValidateForm(old(formData)).None? ==>
        request == Some(UpdateRequest(formData.date.value, JsString.Lower(formData.teamMake),
          selected.createdAtOriginal, PrepareSubmission(formData)))
        && !loading
        && (outcome.Completed? ==>
              success && error.None? && callbackInvoked == hasCallback
              && customSuccessMessage == Some(UpdateSuccessMessage(selected.name, createdAtText)))
        && (outcome.Threw? ==>
              !success && !callbackInvoked && customSuccessMessage.None?
              && error == Some(ErrorText(outcome.message, "An unexpected error occurred")))
    {
      callbackInvoked := false;
      var v := ValidateForm(formData);
      if v.Some? {
        error := v;
        return None, false;
      }
      loading := true;
      error := None;
      success := false;
      customSuccessMessage := None;
      request := Some(UpdateRequest(formData.date.value, JsString.Lower(formData.teamMake),
        selected.createdAtOriginal, PrepareSubmission(formData)));
      if outcome.Completed? {
        customSuccessMessage := Some(UpdateSuccessMessage(selected.name, createdAtText));
        success := true;
        callbackInvoked := hasCallback;
      } else {
        error := Some(ErrorText(outcome.message, "An unexpected error occurred"));
      }
      loading := false;
    }
  }
}
