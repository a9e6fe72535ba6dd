/** The frontend's record shapes and default values: temperature units and
    settings, process steps, stretch folds, the form state, team makes and the
    saved dough make as the list view receives it.  A dayjs or Date value is
    the number of seconds it denotes, `Option` standing for `null`/`undefined`. */
module BreadTypes {
  import opened Wrappers

  datatype TemperatureUnit = Celsius | Fahrenheit

  /** The enum's string value. */
  function UnitName(u: TemperatureUnit): (s: string)
    ensures s == "Celsius" <==> u == Celsius
    ensures s == "Fahrenheit" <==> u == Fahrenheit
  {
    match u
    case Celsius => "Celsius"
    case Fahrenheit => "Fahrenheit"
  }

  /** The unit whose string value is `s`, if any. */
  function ParseUnit(s: string): (u: Option<TemperatureUnit>)
    ensures u.Some? ==> UnitName(u.value) == s
  {
    if s == "Celsius" then Some(Celsius)
    else if s == "Fahrenheit" then Some(Fahrenheit)
    else None
  }

  /** The enum has exactly the two values 'Celsius' and 'Fahrenheit', and a
      value's name reads back as that value. */
  lemma UnitNamesRoundTrip(u: TemperatureUnit, s: string)
    ensures ParseUnit(UnitName(u)) == Some(u)
    ensures ParseUnit(s).Some? <==> s == "Celsius" || s == "Fahrenheit"
  {
    assert UnitName(u) == "Celsius" || UnitName(u) == "Fahrenheit";
  }

  datatype TemperatureSettings = TemperatureSettings(
    unit: TemperatureUnit,
    roomTemp: real,
    flourTemp: real,
    prefermentTemp: real,
    waterTemp: real,
    doughTemp: real)

  /** The five numeric fields of the settings, named for handlers that target one. */
  datatype TemperatureField = RoomTemp | FlourTemp | PrefermentTemp | WaterTemp | DoughTemp

  function SetTemperature(t: TemperatureSettings, field: TemperatureField, v: real): (r: TemperatureSettings)
    ensures r.unit == t.unit
  {
    match field
    case RoomTemp => t.(roomTemp := v)
    case FlourTemp => t.(flourTemp := v)
    case PrefermentTemp => t.(prefermentTemp := v)
    case WaterTemp => t.(waterTemp := v)
    case DoughTemp => t.(doughTemp := v)
  }

  function GetTemperature(t: TemperatureSettings, field: TemperatureField): real {
    match field
    case RoomTemp => t.roomTemp
    case FlourTemp => t.flourTemp
    case PrefermentTemp => t.prefermentTemp
    case WaterTemp => t.waterTemp
    case DoughTemp => t.doughTemp
  }

  /** Setting one field stores the value there and leaves the other four alone. */
  lemma SetThenGetTemperature(t: TemperatureSettings, field: TemperatureField, other: TemperatureField, v: real)
    ensures GetTemperature(SetTemperature(t, field, v), field) == v
    ensures other != field ==> GetTemperature(SetTemperature(t, field, v), other) == GetTemperature(t, other)
  {
  }

  datatype DoughProcess = DoughProcess(step: string, time: Option<int>)

  datatype StretchFold = StretchFold(id: int, performed: bool, time: Option<int>)

  datatype BreadFormData = BreadFormData(
    date: Option<int>,
    teamMake: string,
    temperatures: TemperatureSettings,
    processes: seq<DoughProcess>,
    stretchFolds: seq<StretchFold>,
    notes: string)

  datatype TeamMake = TeamMake(displayName: string, key: string)

  /** One saved fold as the list view receives it; only its timestamp is read. */
  datatype SavedFold = SavedFold(timestamp: Option<int>)

  /** A saved dough make as the list view holds it.  `startTs` and `pullTs`
      are not in the interface but the API layer adds them to every record. */
  datatype DoughMake = DoughMake(
    name: string,
    date: int,
    createdAt: int,
    createdAtOriginal: string,
    autolyseTs: Option<int>,
    startTs: Option<int>,
    pullTs: Option<int>,
    mixTs: Option<int>,
    bulkTs: Option<int>,
    preshapeTs: Option<int>,
    finalShapeTs: Option<int>,
    fridgeTs: Option<int>,
    roomTemp: Option<real>,
    waterTemp: Option<real>,
    flourTemp: Option<real>,
    prefermentTemp: Option<real>,
    doughTemp: Option<real>,
    tempUnit: Option<string>,
    stretchFolds: Option<seq<SavedFold>>,
    notes: Option<string>)

  const DefaultTeamMakes: seq<TeamMake> :=
    [TeamMake("Hoagie", "hoagie"), TeamMake("Demi", "demi"), TeamMake("Ube", "ube")]

  const InitialTempSettings: TemperatureSettings :=
    TemperatureSettings(Fahrenheit, 65.0, 65.0, 76.0, 45.0, 76.0)

  const InitialStretchFolds: seq<StretchFold> := [StretchFold(1, false, None)]

  /** `teamMakes.some(make => make.key === key)` */
  predicate HasKey(makes: seq<TeamMake>, key: string) {
    exists i :: 0 <= i < |makes| && makes[i].key == key
  }

  /** No two makes share a key. */
  predicate DistinctKeys(makes: seq<TeamMake>) {
    forall i, j :: 0 <= i < j < |makes| ==> makes[i].key != makes[j].key
  }

  /** The default makes are keyed 'hoagie', 'demi' and 'ube', pairwise distinct. */
  lemma DefaultKeysDistinct()
    ensures DistinctKeys(DefaultTeamMakes)
    ensures forall k :: HasKey(DefaultTeamMakes, k) <==> k in {"hoagie", "demi", "ube"}
  {
    var d := DefaultTeamMakes;
    assert |d[0].key| == 6 && |d[1].key| == 4 && |d[2].key| == 3;
    forall k ensures HasKey(d, k) <==> k in {"hoagie", "demi", "ube"} {
      if k in {"hoagie", "demi", "ube"} {
        if k == "hoagie" { assert d[0].key == k; }
        else if k == "demi" { assert d[1].key == k; }
        else { assert d[2].key == k; }
      }
    }
  }
}
