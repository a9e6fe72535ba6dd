/** Record shapes of the backend (backend/models.py): the allowed make names,
    the temperature units, a stretch-and-fold event, the creation request, the
    stored dough make and the partial update, with pydantic's required fields,
    defaults and integer coercion written out. Timestamps are integer seconds. */
module Models {
  import opened Wrappers

  /** The `MakeNames` enum, in declaration order. */
  datatype MakeName = DemiBaguette | Hoagie | Ube | Team

  function MakeNameValue(n: MakeName): string {
    match n
    case DemiBaguette => "demi-baguette"
    case Hoagie => "hoagie"
    case Ube => "ube"
    case Team => "team"
  }

  const AllMakeNames: seq<MakeName> := [DemiBaguette, Hoagie, Ube, Team]

  /** `MAKE_NAMES`: the set of the enum's values. */
  function MakeNames(): (s: set<string>)
    ensures forall n: MakeName :: MakeNameValue(n) in s
    ensures forall v :: v in s ==> exists n: MakeName :: MakeNameValue(n) == v
    ensures s == {"demi-baguette", "hoagie", "ube", "team"}
  {
    var s := set n: MakeName | n in AllMakeNames :: MakeNameValue(n);
    assert MakeNameValue(DemiBaguette) in s && MakeNameValue(Hoagie) in s;
    assert MakeNameValue(Ube) in s && MakeNameValue(Team) in s;
    s
  }

  /** Distinct enum members have distinct values, so `MAKE_NAMES` has four elements. */
  lemma MakeNamesCount()
    ensures forall a: MakeName, b: MakeName :: a != b ==> MakeNameValue(a) != MakeNameValue(b)
    ensures |MakeNames()| == 4
  {
    var s := MakeNames();
    assert |"demi-baguette"| == 13 && |"hoagie"| == 6 && |"ube"| == 3 && |"team"| == 4;
    assert s == {"demi-baguette"} + {"hoagie"} + {"ube"} + {"team"};
  }

  /** The `TempUnit` enum. */
  datatype TempUnit = Fahrenheit | Celsius

  function TempUnitValue(u: TempUnit): (v: string)
    ensures v == "Fahrenheit" || v == "Celsius"
    ensures v == "Celsius" <==> u == Celsius
  {
    match u
    case Fahrenheit => "Fahrenheit"
    case Celsius => "Celsius"
  }

  /** `StretchFoldCreate`: one stretch-and-fold event. */
  datatype StretchFoldCreate = StretchFoldCreate(foldNumber: int, timestamp: int)

  datatype Date = Date(year: int, month: int, day: int)

  /** `DoughMakeRequest`, after pydantic has validated a body. */
  datatype DoughMakeRequest = DoughMakeRequest(
    autolyseTs: int, mixTs: int, bulkTs: int, preshapeTs: int, finalShapeTs: int, fridgeTs: int,
    temperatureUnit: string,
    roomTemp: int, prefermentTemp: int, waterTemp: int, flourTemp: int, doughTemp: int,
    createdAt: Option<int>,
    stretchFolds: seq<StretchFoldCreate>,
    notes: Option<string>)

  /** `DoughMake`: a request together with the make's name and date. */
  datatype DoughMake = DoughMake(name: string, date: Date, request: DoughMakeRequest)

  /** `DoughMakeUpdate`: every field optional, `None` by default. JSON numbers
      for temperatures arrive as reals (the fields are `float`). */
  datatype DoughMakeUpdate = DoughMakeUpdate(
    autolyseTs: Option<int>, mixTs: Option<int>, bulkTs: Option<int>,
    preshapeTs: Option<int>, finalShapeTs: Option<int>, fridgeTs: Option<int>,
    roomTemp: Option<real>, prefermentTemp: Option<real>, waterTemp: Option<real>,
    flourTemp: Option<real>, doughTemp: Option<real>,
    temperatureUnit: Option<string>,
    stretchFolds: Option<seq<StretchFoldCreate>>,
    notes: Option<string>)

  /** The update with no field given: every field at its default `None`. */
  function NoUpdate(): DoughMakeUpdate {
    DoughMakeUpdate(None, None, None, None, None, None, None, None, None, None, None, None, None, None)
  }

  /** A body field that is not `Optional` but has a default: left out of the
      body (the default applies), sent as JSON `null` (rejected), or given. */
  datatype Field<T> = Absent | Null | Given(value: T)

  /** A body as received, before validation. A field typed `Optional` or
      required is `None` when it is absent or null; the two fields with a
      non-`None` default tell absence and null apart. Temperatures are JSON numbers. */
  datatype RequestBody = RequestBody(
    autolyseTs: Option<int>, mixTs: Option<int>, bulkTs: Option<int>,
    preshapeTs: Option<int>, finalShapeTs: Option<int>, fridgeTs: Option<int>,
    temperatureUnit: Field<string>,
    roomTemp: Option<real>, prefermentTemp: Option<real>, waterTemp: Option<real>,
    flourTemp: Option<real>, doughTemp: Option<real>,
    createdAt: Option<int>,
    stretchFolds: Field<seq<StretchFoldCreate>>,
    notes: Option<string>)

  /** A value in a `model_dump()` dictionary. */
  datatype FieldValue =
    | TsVal(ts: int) | IntVal(i: int) | RealVal(r: real) | StrVal(s: string)
    | FoldsVal(folds: seq<StretchFoldCreate>) | DateVal(d: Date) | NoneVal

  predicate IsIntegral(r: real) {
    r == r.Floor as real
  }

  /** Errors for a required timestamp field. */
  function RequireTs(field: string, v: Option<int>): seq<string> {
    if v.None? then [field] else []
  }

  /** Errors for an `int` field: missing, or a number with a fractional part
      (pydantic accepts `65.0` for an `int` field and rejects `65.5`). */
  function RequireInt(field: string, v: Option<real>): seq<string> {
    if v.None? || !IsIntegral(v.value) then [field] else []
  }

  function GetTs(v: Option<int>): int { if v.Some? then v.value else 0 }

  function GetInt(v: Option<real>): int { if v.Some? then v.value.Floor else 0 }

  /** Errors for a defaulted field that does not accept `null`. */
  function RejectNull<T>(field: string, v: Field<T>): seq<string> {
    if v.Null? then [field] else []
  }

  /** The given value of a defaulted field, or its default. */
  function OrDefault<T>(v: Field<T>, default: T): T {
    if v.Given? then v.value else default
  }

  /** Validation of a body into a `DoughMakeRequest`: the names of the fields
      that fail, in declaration order, or the request with the defaults filled in. */
  function ParseRequest(b: RequestBody): (r: Result<DoughMakeRequest, seq<string>>)
    ensures r.Ok? <==>
      && b.autolyseTs.Some? && b.mixTs.Some? && b.bulkTs.Some?
      && b.preshapeTs.Some? && b.finalShapeTs.Some? && b.fridgeTs.Some?
      && !b.temperatureUnit.Null?
      && b.roomTemp.Some? && IsIntegral(b.roomTemp.value)
      && b.prefermentTemp.Some? && IsIntegral(b.prefermentTemp.value)
      && b.waterTemp.Some? && IsIntegral(b.waterTemp.value)
      && b.flourTemp.Some? && IsIntegral(b.flourTemp.value)
      && b.doughTemp.Some? && IsIntegral(b.doughTemp.value)
      && !b.stretchFolds.Null?
    ensures r.Ok? ==>
      && r.value.autolyseTs == b.autolyseTs.value && r.value.mixTs == b.mixTs.value
      && r.value.bulkTs == b.bulkTs.value && r.value.preshapeTs == b.preshapeTs.value
      && r.value.finalShapeTs == b.finalShapeTs.value && r.value.fridgeTs == b.fridgeTs.value
      && r.value.roomTemp as real == b.roomTemp.value
      && r.value.prefermentTemp as real == b.prefermentTemp.value
      && r.value.waterTemp as real == b.waterTemp.value
      && r.value.flourTemp as real == b.flourTemp.value
      && r.value.doughTemp as real == b.doughTemp.value
      && r.value.temperatureUnit == (if b.temperatureUnit.Given? then b.temperatureUnit.value else "Fahrenheit")
      && r.value.stretchFolds == (if b.stretchFolds.Given? then b.stretchFolds.value else [])
      && r.value.createdAt == b.createdAt
      && r.value.notes == b.notes
    ensures r.Err? ==> |r.error| > 0
    ensures r.Err? ==> (b.autolyseTs.None? ==> r.error[0] == "autolyse_ts")
    ensures r.Err? ==> (b.temperatureUnit.Null? ==> "temperature_unit" in r.error)
    ensures r.Err? ==> (b.stretchFolds.Null? ==> r.error[|r.error| - 1] == "stretch_folds")
  {
    var errors :=
      RequireTs("autolyse_ts", b.autolyseTs) + RequireTs("mix_ts", b.mixTs)
      + RequireTs("bulk_ts", b.bulkTs) + RequireTs("preshape_ts", b.preshapeTs)
      + RequireTs("final_shape_ts", b.finalShapeTs) + RequireTs("fridge_ts", b.fridgeTs)
      + RejectNull("temperature_unit", b.temperatureUnit)
      + RequireInt("room_temp", b.roomTemp) + RequireInt("preferment_temp", b.prefermentTemp)
      + RequireInt("water_temp", b.waterTemp) + RequireInt("flour_temp", b.flourTemp)
      + RequireInt("dough_temp", b.doughTemp)
      + RejectNull("stretch_folds", b.stretchFolds);
    if errors != [] then Err(errors)
    else
      Ok(DoughMakeRequest(
        GetTs(b.autolyseTs), GetTs(b.mixTs), GetTs(b.bulkTs),
        GetTs(b.preshapeTs), GetTs(b.finalShapeTs), GetTs(b.fridgeTs),
        OrDefault(b.temperatureUnit, "Fahrenheit"),
        GetInt(b.roomTemp), GetInt(b.prefermentTemp), GetInt(b.waterTemp),
        GetInt(b.flourTemp), GetInt(b.doughTemp),
        b.createdAt,
        OrDefault(b.stretchFolds, []),
        b.notes))
  }

  function TsEntry(key: string, v: Option<int>): seq<(string, FieldValue)> {
    if v.Some? then [(key, TsVal(v.value))] else []
  }

  function RealEntry(key: string, v: Option<real>): seq<(string, FieldValue)> {
    if v.Some? then [(key, RealVal(v.value))] else []
  }

  function StrEntry(key: string, v: Option<string>): seq<(string, FieldValue)> {
    if v.Some? then [(key, StrVal(v.value))] else []
  }

  /** The given timestamps, temperatures and remaining fields of an update. */
  function TsEntries(u: DoughMakeUpdate): (r: seq<(string, FieldValue)>)
    ensures r == [] <==> u.(autolyseTs := None, mixTs := None, bulkTs := None,
                            preshapeTs := None, finalShapeTs := None, fridgeTs := None) == u
    ensures |r| <= 6 && forall i :: 0 <= i < |r| ==> r[i].1.TsVal?
  {
    TsEntry("autolyse_ts", u.autolyseTs) + TsEntry("mix_ts", u.mixTs)
    + TsEntry("bulk_ts", u.bulkTs) + TsEntry("preshape_ts", u.preshapeTs)
    + TsEntry("final_shape_ts", u.finalShapeTs) + TsEntry("fridge_ts", u.fridgeTs)
  }

  function TempEntries(u: DoughMakeUpdate): (r: seq<(string, FieldValue)>)
    ensures r == [] <==> u.(roomTemp := None, prefermentTemp := None, waterTemp := None,
                            flourTemp := None, doughTemp := None) == u
    ensures |r| <= 5 && forall i :: 0 <= i < |r| ==> r[i].1.RealVal?
  {
    RealEntry("room_temp", u.roomTemp) + RealEntry("preferment_temp", u.prefermentTemp)
    + RealEntry("water_temp", u.waterTemp) + RealEntry("flour_temp", u.flourTemp)
    + RealEntry("dough_temp", u.doughTemp)
  }

  function OtherEntries(u: DoughMakeUpdate): (r: seq<(string, FieldValue)>)
    ensures r == [] <==> u.(temperatureUnit := None, stretchFolds := None, notes := None) == u
    ensures |r| <= 3 && forall i :: 0 <= i < |r| ==> r[i].1 != NoneVal
  {
    StrEntry("temperature_unit", u.temperatureUnit)
    + (if u.stretchFolds.Some? then [("stretch_folds", FoldsVal(u.stretchFolds.value))] else [])
    + StrEntry("notes", u.notes)
  }

  /** `update.model_dump(exclude_none=True)`: the given fields, in declaration
      order; empty exactly when no field is given. */
  function UpdateData(u: DoughMakeUpdate): (r: seq<(string, FieldValue)>)
    ensures r == [] <==> u == NoUpdate()
    ensures |r| <= 14
    ensures forall i :: 0 <= i < |r| ==> r[i].1 != NoneVal
  {
    var a, b, c := TsEntries(u), TempEntries(u), OtherEntries(u);
    assert forall i :: 0 <= i < |b| ==> b[i].1 != NoneVal;
    assert forall i :: 0 <= i < |a| ==> a[i].1 != NoneVal;
    a + b + c
  }

  function PickTs(u: Option<int>, old_: int): int { if u.Some? then u.value else old_ }

  function PickInt(u: Option<real>, old_: int): int { if u.Some? then u.value.Floor else old_ }

  function IntErrors(field: string, u: Option<real>): seq<string> {
    if u.Some? && !IsIntegral(u.value) then [field] else []
  }

  /** `DoughMake(**{**existing, **update_data})`: every given update field
      replaces the stored one; a temperature with a fractional part fails the
      `int` field's validation. */
  function Merge(existing: DoughMake, u: DoughMakeUpdate): (r: Result<DoughMake, seq<string>>)
    ensures r.Ok? ==> r.value.name == existing.name && r.value.date == existing.date
    ensures r.Ok? ==> r.value.request.createdAt == existing.request.createdAt
    ensures r.Err? ==> 0 < |r.error| <= 5
    ensures u.roomTemp.Some? && !IsIntegral(u.roomTemp.value) ==> r.Err? && r.error[0] == "room_temp"
  {
    var e := existing.request;
    var errors :=
      IntErrors("room_temp", u.roomTemp) + IntErrors("preferment_temp", u.prefermentTemp)
      + IntErrors("water_temp", u.waterTemp) + IntErrors("flour_temp", u.flourTemp)
      + IntErrors("dough_temp", u.doughTemp);
    if errors != [] then Err(errors)
    else
      Ok(DoughMake(existing.name, existing.date, DoughMakeRequest(
        PickTs(u.autolyseTs, e.autolyseTs), PickTs(u.mixTs, e.mixTs), PickTs(u.bulkTs, e.bulkTs),
        PickTs(u.preshapeTs, e.preshapeTs), PickTs(u.finalShapeTs, e.finalShapeTs),
        PickTs(u.fridgeTs, e.fridgeTs),
        if u.temperatureUnit.Some? then u.temperatureUnit.value else e.temperatureUnit,
        PickInt(u.roomTemp, e.roomTemp), PickInt(u.prefermentTemp, e.prefermentTemp),
        PickInt(u.waterTemp, e.waterTemp), PickInt(u.flourTemp, e.flourTemp),
        PickInt(u.doughTemp, e.doughTemp),
        e.createdAt,
        if u.stretchFolds.Some? then u.stretchFolds.value else e.stretchFolds,
        if u.notes.Some? then u.notes else e.notes)))
  }

  /** A given field wins over the stored one and an absent field keeps the
      stored value; the merge fails exactly when a given temperature is not a
      whole number. */
  lemma MergeFields(existing: DoughMake, u: DoughMakeUpdate)
    ensures Merge(existing, u).Err? <==>
      exists t :: t in [u.roomTemp, u.prefermentTemp, u.waterTemp, u.flourTemp, u.doughTemp]
                  && t.Some? && !IsIntegral(t.value)
    ensures Merge(existing, u).Ok? ==>
      var m := Merge(existing, u).value.request;
      var e := existing.request;
      && Merge(existing, u).value.name == existing.name
      && Merge(existing, u).value.date == existing.date
      && m.autolyseTs == (if u.autolyseTs.Some? then u.autolyseTs.value else e.autolyseTs)
      && m.mixTs == (if u.mixTs.Some? then u.mixTs.value else e.mixTs)
      && m.bulkTs == (if u.bulkTs.Some? then u.bulkTs.value else e.bulkTs)
      && m.preshapeTs == (if u.preshapeTs.Some? then u.preshapeTs.value else e.preshapeTs)
      && m.finalShapeTs == (if u.finalShapeTs.Some? then u.finalShapeTs.value else e.finalShapeTs)
      && m.fridgeTs == (if u.fridgeTs.Some? then u.fridgeTs.value else e.fridgeTs)
      && m.roomTemp as real == (if u.roomTemp.Some? then u.roomTemp.value else e.roomTemp as real)
      && m.prefermentTemp as real == (if u.prefermentTemp.Some? then u.prefermentTemp.value else e.prefermentTemp as real)
      && m.waterTemp as real == (if u.waterTemp.Some? then u.waterTemp.value else e.waterTemp as real)
      && m.flourTemp as real == (if u.flourTemp.Some? then u.flourTemp.value else e.flourTemp as real)
      && m.doughTemp as real == (if u.doughTemp.Some? then u.doughTemp.value else e.doughTemp as real)
      && m.temperatureUnit == (if u.temperatureUnit.Some? then u.temperatureUnit.value else e.temperatureUnit)
      && m.stretchFolds == (if u.stretchFolds.Some? then u.stretchFolds.value else e.stretchFolds)
      && m.createdAt == e.createdAt
      && m.notes == (if u.notes.Some? then u.notes else e.notes)
  {
    var ts := [u.roomTemp, u.prefermentTemp, u.waterTemp, u.flourTemp, u.doughTemp];
    if Merge(existing, u).Err? {
      if u.roomTemp.Some? && !IsIntegral(u.roomTemp.value) { assert ts[0] in ts; }
      else if u.prefermentTemp.Some? && !IsIntegral(u.prefermentTemp.value) { assert ts[1] in ts; }
      else if u.waterTemp.Some? && !IsIntegral(u.waterTemp.value) { assert ts[2] in ts; }
      else if u.flourTemp.Some? && !IsIntegral(u.flourTemp.value) { assert ts[3] in ts; }
      else { assert ts[4] in ts; }
    }
  }

  /** An update whose fields are all absent leaves the stored record as it is. */
  lemma MergeNothing(existing: DoughMake)
    ensures Merge(existing, NoUpdate()) == Ok(existing)
  {
  }

  /** Applying the same partial update twice gives the record that applying it once gives. */
  lemma MergeIdempotent(existing: DoughMake, u: DoughMakeUpdate)
    requires Merge(existing, u).Ok?
    ensures Merge(Merge(existing, u).value, u) == Merge(existing, u)
  {
  }

  function OptTs(v: Option<int>): FieldValue { if v.Some? then TsVal(v.value) else NoneVal }

  function OptStr(v: Option<string>): FieldValue { if v.Some? then StrVal(v.value) else NoneVal }

  /** `DoughMakeRequest.model_dump()`: every field in declaration order;
      absent optional fields dump as `None`. */
  function RequestDump(q: DoughMakeRequest): (r: seq<(string, FieldValue)>)
    ensures |r| == 15
  {
    [ ("autolyse_ts", TsVal(q.autolyseTs)), ("mix_ts", TsVal(q.mixTs)), ("bulk_ts", TsVal(q.bulkTs)),
      ("preshape_ts", TsVal(q.preshapeTs)), ("final_shape_ts", TsVal(q.finalShapeTs)),
      ("fridge_ts", TsVal(q.fridgeTs)),
      ("temperature_unit", StrVal(q.temperatureUnit)),
      ("room_temp", IntVal(q.roomTemp)), ("preferment_temp", IntVal(q.prefermentTemp)),
      ("water_temp", IntVal(q.waterTemp)), ("flour_temp", IntVal(q.flourTemp)),
      ("dough_temp", IntVal(q.doughTemp)),
      ("created_at", OptTs(q.createdAt)),
      ("stretch_folds", FoldsVal(q.stretchFolds)),
      ("notes", OptStr(q.notes)) ]
  }

  /** `DoughMake.model_dump()`: the request's fields followed by `name` and `date`. */
  function Dump(m: DoughMake): (r: seq<(string, FieldValue)>)
    ensures |r| == 17
  {
    RequestDump(m.request) + [("name", StrVal(m.name)), ("date", DateVal(m.date))]
  }

  /** The field names of `DoughMake`, in declaration order. */
  const FieldNames: seq<string> := [
    "autolyse_ts", "mix_ts", "bulk_ts", "preshape_ts", "final_shape_ts", "fridge_ts",
    "temperature_unit", "room_temp", "preferment_temp", "water_temp", "flour_temp", "dough_temp",
    "created_at", "stretch_folds", "notes", "name", "date"]

  function Keys(d: seq<(string, FieldValue)>): (k: seq<string>)
    ensures |k| == |d| && forall i :: 0 <= i < |d| ==> k[i] == d[i].0
  {
    seq(|d|, i requires 0 <= i < |d| => d[i].0)
  }

  predicate Distinct(s: seq<string>) {
    forall i, j :: 0 <= i < j < |s| ==> s[i] != s[j]
  }

  /** The field names are pairwise distinct. */
  lemma FieldNamesDistinct()
    ensures Distinct(FieldNames)
  {
  }

  /** The dump lists one entry per field, under the field's name, in declaration order. */
  lemma DumpKeys(m: DoughMake)
    ensures Keys(Dump(m)) == FieldNames
    ensures Distinct(Keys(Dump(m)))
  {
    FieldNamesDistinct();
  }

  /** `d[key]` for a dictionary given as its items: the value of the first item with that key. */
  function Lookup(d: seq<(string, FieldValue)>, key: string): Option<FieldValue> {
    if |d| == 0 then None else if d[0].0 == key then Some(d[0].1) else Lookup(d[1..], key)
  }

  /** In a dictionary whose keys are distinct, each key finds its own item. */
  lemma {:induction false} LookupItem(d: seq<(string, FieldValue)>, i: int)
    requires 0 <= i < |d|
    requires forall j :: 0 <= j < i ==> d[j].0 != d[i].0
    ensures Lookup(d, d[i].0) == Some(d[i].1)
  {
    if i > 0 {
      LookupItem(d[1..], i - 1);
    }
  }

  /** A key no item carries finds nothing. */
  lemma {:induction false} LookupAbsent(d: seq<(string, FieldValue)>, key: string)
    requires key !in Keys(d)
    ensures Lookup(d, key) == None
  {
    if |d| > 0 {
      assert Keys(d)[0] == d[0].0;
      assert Keys(d[1..]) == Keys(d)[1..];
      LookupAbsent(d[1..], key);
    }
  }

  // Reading a field from keyword arguments: a required field must be present
  // with a value of its own type; a defaulted one may be absent.

  function RequiredTs(d: seq<(string, FieldValue)>, key: string): Option<int> {
    match Lookup(d, key)
    case Some(TsVal(t)) => Some(t)
    case _ => None
  }

  function RequiredInt(d: seq<(string, FieldValue)>, key: string): Option<int> {
    match Lookup(d, key)
    case Some(IntVal(i)) => Some(i)
    case _ => None
  }

  function RequiredStr(d: seq<(string, FieldValue)>, key: string): Option<string> {
    match Lookup(d, key)
    case Some(StrVal(s)) => Some(s)
    case _ => None
  }

  function RequiredDate(d: seq<(string, FieldValue)>, key: string): Option<Date> {
    match Lookup(d, key)
    case Some(DateVal(v)) => Some(v)
    case _ => None
  }

  function DefaultedStr(d: seq<(string, FieldValue)>, key: string, default: string): Option<string> {
    match Lookup(d, key)
    case None => Some(default)
    case Some(StrVal(s)) => Some(s)
    case _ => None
  }

  function DefaultedFolds(d: seq<(string, FieldValue)>, key: string): Option<seq<StretchFoldCreate>> {
    match Lookup(d, key)
    case None => Some([])
    case Some(FoldsVal(f)) => Some(f)
    case _ => None
  }

  function OptionalTs(d: seq<(string, FieldValue)>, key: string): Option<Option<int>> {
    match Lookup(d, key)
    case None => Some(None)
    case Some(NoneVal) => Some(None)
    case Some(TsVal(t)) => Some(Some(t))
    case _ => None
  }

  function OptionalStr(d: seq<(string, FieldValue)>, key: string): Option<Option<string>> {
    match Lookup(d, key)
    case None => Some(None)
    case Some(NoneVal) => Some(None)
    case Some(StrVal(s)) => Some(Some(s))
    case _ => None
  }

  /** `DoughMake(**d)`: the record when every field validates, `None` when
      pydantic would raise. Keys that are not fields are ignored. */
  function Load(d: seq<(string, FieldValue)>): Option<DoughMake> {
    var autolyse, mix, bulk := RequiredTs(d, "autolyse_ts"), RequiredTs(d, "mix_ts"), RequiredTs(d, "bulk_ts");
    var preshape, finalShape, fridge := RequiredTs(d, "preshape_ts"), RequiredTs(d, "final_shape_ts"), RequiredTs(d, "fridge_ts");
    var unit := DefaultedStr(d, "temperature_unit", "Fahrenheit");
    var room, preferment, water := RequiredInt(d, "room_temp"), RequiredInt(d, "preferment_temp"), RequiredInt(d, "water_temp");
    var flour, dough := RequiredInt(d, "flour_temp"), RequiredInt(d, "dough_temp");
    var created, folds, notes := OptionalTs(d, "created_at"), DefaultedFolds(d, "stretch_folds"), OptionalStr(d, "notes");
    var name, date := RequiredStr(d, "name"), RequiredDate(d, "date");
    if && autolyse.Some? && mix.Some? && bulk.Some? && preshape.Some? && finalShape.Some? && fridge.Some?
       && unit.Some? && room.Some? && preferment.Some? && water.Some? && flour.Some? && dough.Some?
       && created.Some? && folds.Some? && notes.Some? && name.Some? && date.Some?
    then
      Some(DoughMake(name.value, date.value, DoughMakeRequest(
        autolyse.value, mix.value, bulk.value, preshape.value, finalShape.value, fridge.value,
        unit.value, room.value, preferment.value, water.value, flour.value, dough.value,
        created.value, folds.value, notes.value)))
    else None
  }

  /** Keyword arguments without a required field are rejected. */
  lemma LoadNeedsField(d: seq<(string, FieldValue)>, key: string)
    requires key in ["autolyse_ts", "mix_ts", "bulk_ts", "preshape_ts", "final_shape_ts", "fridge_ts",
                     "room_temp", "preferment_temp", "water_temp", "flour_temp", "dough_temp", "name", "date"]
    requires key !in Keys(d)
    ensures Load(d) == None
  {
    LookupAbsent(d, key);
  }

  /** Reading keyword arguments in which every field has a value of its own type. */
  lemma LoadFields(d: seq<(string, FieldValue)>, m: DoughMake)
    requires var q := m.request;
      && Lookup(d, "autolyse_ts") == Some(TsVal(q.autolyseTs)) && Lookup(d, "mix_ts") == Some(TsVal(q.mixTs))
      && Lookup(d, "bulk_ts") == Some(TsVal(q.bulkTs)) && Lookup(d, "preshape_ts") == Some(TsVal(q.preshapeTs))
      && Lookup(d, "final_shape_ts") == Some(TsVal(q.finalShapeTs)) && Lookup(d, "fridge_ts") == Some(TsVal(q.fridgeTs))
      && Lookup(d, "temperature_unit") == Some(StrVal(q.temperatureUnit))
      && Lookup(d, "room_temp") == Some(IntVal(q.roomTemp)) && Lookup(d, "preferment_temp") == Some(IntVal(q.prefermentTemp))
      && Lookup(d, "water_temp") == Some(IntVal(q.waterTemp)) && Lookup(d, "flour_temp") == Some(IntVal(q.flourTemp))
      && Lookup(d, "dough_temp") == Some(IntVal(q.doughTemp))
      && Lookup(d, "created_at") == Some(OptTs(q.createdAt))
      && Lookup(d, "stretch_folds") == Some(FoldsVal(q.stretchFolds))
      && Lookup(d, "notes") == Some(OptStr(q.notes))
      && Lookup(d, "name") == Some(StrVal(m.name)) && Lookup(d, "date") == Some(DateVal(m.date))
    ensures Load(d) == Some(m)
  {
  }

  /** In a dictionary with distinct keys, every item is found under its key. */
  lemma LookupDistinct(d: seq<(string, FieldValue)>, i: int)
    requires Distinct(Keys(d)) && 0 <= i < |d|
    ensures Lookup(d, d[i].0) == Some(d[i].1)
  {
    forall j | 0 <= j < i ensures d[j].0 != d[i].0 {
      assert Keys(d)[j] != Keys(d)[i];
    }
    LookupItem(d, i);
  }

  /** Reading a dump back gives the record that was dumped. */
  lemma DumpRoundTrip(m: DoughMake)
    ensures Load(Dump(m)) == Some(m)
  {
    var d := Dump(m);
    DumpKeys(m);
    LookupDistinct(d, 0); LookupDistinct(d, 1); LookupDistinct(d, 2); LookupDistinct(d, 3);
    LookupDistinct(d, 4); LookupDistinct(d, 5); LookupDistinct(d, 6); LookupDistinct(d, 7);
    LookupDistinct(d, 8); LookupDistinct(d, 9); LookupDistinct(d, 10); LookupDistinct(d, 11);
    LookupDistinct(d, 12); LookupDistinct(d, 13); LookupDistinct(d, 14); LookupDistinct(d, 15);
    LookupDistinct(d, 16);
    LoadFields(d, m);
  }

  /** The keyword arguments of `DoughMake(name=name, date=date, **req.model_dump())`. */
  function MakeArguments(name: string, date: Date, req: DoughMakeRequest): seq<(string, FieldValue)> {
    [("name", StrVal(name)), ("date", DateVal(date))] + RequestDump(req)
  }

  /** The keyword arguments name each field once. */
  lemma MakeArgumentsKeys(name: string, date: Date, req: DoughMakeRequest)
    ensures Distinct(Keys(MakeArguments(name, date, req)))
  {
    var k, f := Keys(MakeArguments(name, date, req)), FieldNames;
    FieldNamesDistinct();
    assert k == [f[15], f[16]] + f[..15];
  }

  /** The keyword arguments carry each field once, under its own name. */
  lemma MakeArgumentsLoad(name: string, date: Date, req: DoughMakeRequest)
    ensures Load(MakeArguments(name, date, req)) == Some(DoughMake(name, date, req))
  {
    var d := MakeArguments(name, date, req);
    MakeArgumentsKeys(name, date, req);
    LookupDistinct(d, 0); LookupDistinct(d, 1); LookupDistinct(d, 2); LookupDistinct(d, 3);
    LookupDistinct(d, 4); LookupDistinct(d, 5); LookupDistinct(d, 6); LookupDistinct(d, 7);
    LookupDistinct(d, 8); LookupDistinct(d, 9); LookupDistinct(d, 10); LookupDistinct(d, 11);
    LookupDistinct(d, 12); LookupDistinct(d, 13); LookupDistinct(d, 14); LookupDistinct(d, 15);
    LookupDistinct(d, 16);
    LoadFields(d, DoughMake(name, date, req));
  }

  /** The `DoughMake` built from a request and the path's name and date: the
      request's dump read back, with those two fields added, is the request
      itself with nothing else changed. */
  function MakeFromRequest(name: string, date: Date, req: DoughMakeRequest): (m: DoughMake)
    ensures m.name == name && m.date == date && m.request == req
  {
    MakeArgumentsLoad(name, date, req);
    Load(MakeArguments(name, date, req)).value
  }

  /** `CreateMakeRequest` and `SimpleMake`: a display name and a key. */
  datatype CreateMakeRequest = CreateMakeRequest(displayName: string, key: string)

  datatype SimpleMake = SimpleMake(displayName: string, key: string)
}
