/** The persistence layer (backend/db.py and backend/exceptions.py): the
    once-only connection-pool registry, the INSERT and UPDATE statements built
    from a record, the row-to-record mapping of a lookup, and the not-found
    rules of lookup and deletion. What the database returns (the fetched row,
    the affected row count, a raised error) is a parameter. The record read by
    `insert_dough_make` is the one its code reads (`start`, `pull`,
    `autolyse`, keyed by `make_num`), which is not the shape of `Models`. */
module Db {
  import opened Wrappers
  import opened Models
  import Text

  /** `DatabaseError(message, original_error)`; its `str` is the message. */
  datatype DatabaseError = DatabaseError(message: string, originalError: Option<string>)

  // ---------------------------------------------------------------------------
  // The pool singleton
  // ---------------------------------------------------------------------------

  /** A connection pool, opened on construction. */
  class DatabasePool {
    var conninfo: string
    var minSize: int
    var maxSize: int
    var isOpen: bool

    constructor (dbname: string, user: string)
      ensures conninfo == "dbname=" + dbname + " user=" + user
      ensures minSize == 2 && maxSize == 10 && isOpen
    {
      conninfo := "dbname=" + dbname + " user=" + user;
      minSize := 2;
      maxSize := 10;
      isOpen := true;
    }

    /** `close`. */
    method Close()
      modifies this
      ensures !isOpen
      ensures conninfo == old(conninfo) && minSize == old(minSize) && maxSize == old(maxSize)
    {
      isOpen := false;
    }
  }

  /** The class attribute `DatabasePool._instance`, shared by every caller. */
  class PoolRegistry {
    var instance: DatabasePool?

    constructor ()
      ensures instance == null
    {
      instance := null;
    }

    /** `get_instance`: the first call creates the pool from its arguments;
        every later call returns that pool and ignores its arguments. */
    method GetInstance(dbname: string, user: string) returns (p: DatabasePool)
      modifies this
      ensures old(instance) != null ==> p == old(instance)
      ensures old(instance) == null ==>
        fresh(p) && p.conninfo == "dbname=" + dbname + " user=" + user && p.minSize == 2 && p.maxSize == 10
      ensures instance == p
    {
      if instance == null {
        var created := new DatabasePool(dbname, user);
        instance := created;
      }
      p := instance;
    }
  }

  /** Two calls with any arguments give the same pool. */
  method GetInstanceTwice(registry: PoolRegistry, dbname1: string, user1: string,
                          dbname2: string, user2: string) returns (p: DatabasePool, q: DatabasePool)
    modifies registry
    ensures p == q && registry.instance == p
    ensures old(registry.instance) != null ==> p == old(registry.instance)
  {
    p := registry.GetInstance(dbname1, user1);
    q := registry.GetInstance(dbname2, user2);
  }

  /** `DBConnector.USER`. */
  const ConnectorUser: string := "sammylee"

  /** `DBConnector`: a database name and the shared pool. */
  class DBConnector {
    var user: string
    var dbname: string
    var dbPool: DatabasePool

    constructor (dbname: string, registry: PoolRegistry)
      modifies registry
      ensures user == ConnectorUser && this.dbname == dbname
      ensures dbPool == registry.instance
      ensures old(registry.instance) != null ==> dbPool == old(registry.instance)
    {
      var p := registry.GetInstance(dbname, ConnectorUser);
      user := ConnectorUser;
      this.dbname := dbname;
      dbPool := p;
    }
  }

  // ---------------------------------------------------------------------------
  // Statements
  // ---------------------------------------------------------------------------

  /** A statement text with its parameters, as passed to `execute`. */
  datatype SqlCommand = SqlCommand(sql: string, params: seq<FieldValue>)

  function Values(items: seq<(string, FieldValue)>): (r: seq<FieldValue>)
    ensures |r| == |items| && forall i :: 0 <= i < |items| ==> r[i] == items[i].1
  {
    seq(|items|, i requires 0 <= i < |items| => items[i].1)
  }

  /** The first position of `names` whose name is not among `declared`: the
      name Python stops at when it reads attributes, or binds keyword
      arguments, in that order. */
  function FirstUndeclared(names: seq<string>, declared: seq<string>): (r: Option<nat>)
    ensures r.Some? ==> r.value < |names| && names[r.value] !in declared
    ensures forall j :: 0 <= j < (if r.Some? then r.value else |names|) ==> names[j] in declared
  {
    if |names| == 0 then None
    else if names[0] !in declared then Some(0)
    else
      var t := FirstUndeclared(names[1..], declared);
      if t.None? then None else Some(t.value + 1)
  }

  /** The attribute names `insert_dough_make` reads, in the order it reads them. */
  const InsertAttributes: seq<string> := [
    "name", "date", "room_temp", "water_temp", "flour_temp", "preferment_temp",
    "start", "pull", "preshape", "final_shape", "fridge", "autolyse"]

  /** The first undeclared name is the one at `k` when every name before it is declared. */
  lemma FirstUndeclaredAt(names: seq<string>, declared: seq<string>, k: nat)
    requires k < |names| && names[k] !in declared
    requires forall j :: 0 <= j < k ==> names[j] in declared
    ensures FirstUndeclared(names, declared) == Some(k)
  {
  }

  /** Handed a `DoughMake`, the insert reads six declared fields and then
      `start`, which `DoughMake` does not declare. */
  lemma InsertMissesStart()
    ensures FirstUndeclared(InsertAttributes, FieldNames) == Some(6)
    ensures InsertAttributes[6] == "start"
  {
    var a, f := InsertAttributes, FieldNames;
    assert a[0] == f[15] && a[1] == f[16] && a[2] == f[7];
    assert a[3] == f[9] && a[4] == f[10] && a[5] == f[8];
    assert forall i :: 0 <= i < |f| ==> f[i] != a[6];
    FirstUndeclaredAt(a, f, 6);
  }

  /** The parameter names of `update_dough_make` after `self`. */
  const UpdateParameters: seq<string> := ["make_date", "make_name", "make_num", "updates"]

  /** The attributes `insert_dough_make` reads from its argument. */
  datatype DbDoughMake = DbDoughMake(
    name: string, date: Date,
    roomTemp: Option<int>, waterTemp: Option<int>, flourTemp: Option<int>, prefermentTemp: Option<int>,
    start: Option<int>, pull: Option<int>, preshape: Option<int>, finalShape: Option<int>,
    fridge: Option<int>, autolyse: Option<int>)

  function IntOrNone(v: Option<int>): FieldValue {
    if v.Some? then IntVal(v.value) else NoneVal
  }

  const InsertTable: string := "dough_makes"

  /** The insert dictionary before filtering, in its order: the name and the
      date, then the columns that may be None. */
  function InsertItems(m: DbDoughMake): (r: seq<(string, FieldValue)>)
    ensures |r| == 12
    ensures r[..2] == [("dough_name", StrVal(m.name)), ("make_date", DateVal(m.date))]
  {
    var head := [("dough_name", StrVal(m.name)), ("make_date", DateVal(m.date))];
    var r := head + OptionalItems(m);
    assert r[..2] == head;
    r
  }

  function OptionalItems(m: DbDoughMake): (r: seq<(string, FieldValue)>)
    ensures |r| == 10
  {
    [("room_temp", IntOrNone(m.roomTemp)), ("water_temp", IntOrNone(m.waterTemp)),
     ("flour_temp", IntOrNone(m.flourTemp)), ("preferment_temp", IntOrNone(m.prefermentTemp)),
     ("start_ts", OptTs(m.start)), ("pull_ts", OptTs(m.pull)),
     ("preshape_ts", OptTs(m.preshape)), ("final_shape_ts", OptTs(m.finalShape)),
     ("fridge_ts", OptTs(m.fridge)), ("autolyse_ts", OptTs(m.autolyse))]
  }

  /** `{k: v for k, v in d.items() if v is not None}`. */
  function DropNone(items: seq<(string, FieldValue)>): (r: seq<(string, FieldValue)>)
    ensures |r| <= |items|
    ensures forall i :: 0 <= i < |r| ==> r[i].1 != NoneVal
    ensures forall x :: x in r <==> x in items && x.1 != NoneVal
    decreases |items|
  {
    if |items| == 0 then []
    else (if items[0].1 == NoneVal then [] else [items[0]]) + DropNone(items[1..])
  }

  /** Filtering a concatenation filters each part, so the kept entries stay in order. */
  lemma {:induction false} DropNoneAppend(a: seq<(string, FieldValue)>, b: seq<(string, FieldValue)>)
    ensures DropNone(a + b) == DropNone(a) + DropNone(b)
    decreases |a|
  {
    if |a| > 0 {
      assert (a + b)[1..] == a[1..] + b;
      DropNoneAppend(a[1..], b);
    } else {
      assert a + b == b;
    }
  }

  /** Entries that all hold a value are kept as they are. */
  lemma {:induction false} DropNoneKeepsValues(items: seq<(string, FieldValue)>)
    requires forall i :: 0 <= i < |items| ==> items[i].1 != NoneVal
    ensures DropNone(items) == items
    decreases |items|
  {
    if |items| > 0 {
      DropNoneKeepsValues(items[1..]);
    }
  }

  /** Filtering twice is filtering once. */
  lemma DropNoneIdempotent(items: seq<(string, FieldValue)>)
    ensures DropNone(DropNone(items)) == DropNone(items)
  {
    DropNoneKeepsValues(DropNone(items));
  }

  /** The insert dictionary of `insert_dough_make`. */
  function InsertData(m: DbDoughMake): seq<(string, FieldValue)> {
    DropNone(InsertItems(m))
  }

  /** The name and the date are never None, so they are always the first two entries. */
  lemma InsertDataHead(m: DbDoughMake)
    ensures |InsertData(m)| >= 2
    ensures InsertData(m)[..2] == [("dough_name", StrVal(m.name)), ("make_date", DateVal(m.date))]
  {
    var items := InsertItems(m);
    var head := items[..2];
    assert items == head + items[2..];
    DropNoneAppend(head, items[2..]);
    DropNoneKeepsValues(head);
  }

  /** `', '.join(['%s'] * n)`. */
  function Placeholders(n: nat): string {
    Text.Join(", ", Text.Repeat("%s", n))
  }

  /** The INSERT statement for an insert dictionary. */
  function InsertCommandOf(data: seq<(string, FieldValue)>): SqlCommand {
    SqlCommand(InsertSql(Text.Join(", ", Keys(data)), Placeholders(|data|)), Values(data))
  }

  /** The INSERT statement of `insert_dough_make`. */
  function InsertCommand(m: DbDoughMake): SqlCommand {
    InsertCommandOf(InsertData(m))
  }

  function InsertSql(columns: string, placeholders: string): string {
    "\n      INSERT INTO " + InsertTable + " (" + columns + ")\n      VALUES (" + placeholders + ")\n      RETURNING make_num;\n    "
  }

  /** `n` placeholders joined by commas hold `n` percent signs. */
  lemma PlaceholderCount(n: nat)
    ensures Text.CountChar('%', Placeholders(n)) == n
  {
    assert Text.CountChar('%', "%s") == 1;
    assert Text.CountChar('%', ", ") == 0;
    Text.CountCharJoin('%', ", ", Text.Repeat("%s", n));
  }

  /** An insert has one column and one placeholder per parameter, and the
      i-th column and the i-th parameter come from the i-th dictionary entry. */
  lemma InsertColumnsMatchValues(data: seq<(string, FieldValue)>)
    ensures |Keys(data)| == |InsertCommandOf(data).params| == |data|
    ensures Text.CountChar('%', Placeholders(|data|)) == |InsertCommandOf(data).params|
    ensures forall i :: 0 <= i < |data| ==> (Keys(data)[i], InsertCommandOf(data).params[i]) == data[i]
  {
    PlaceholderCount(|data|);
  }

  /** The parameters of `insert_dough_make` hold no None, and start with the name and the date. */
  lemma InsertParams(m: DbDoughMake)
    ensures forall i :: 0 <= i < |InsertCommand(m).params| ==> InsertCommand(m).params[i] != NoneVal
    ensures |InsertCommand(m).params| >= 2
    ensures InsertCommand(m).params[..2] == [StrVal(m.name), DateVal(m.date)]
  {
    var data := InsertData(m);
    InsertDataHead(m);
    var p := Values(data);
    assert InsertCommand(m).params == p;
    assert data[0] == data[..2][0] && data[1] == data[..2][1];
    assert p[..2] == [data[0].1, data[1].1];
  }

  /** `", ".join(f"{key} = %s" for key in keys)`. */
  function SetClause(keys: seq<string>): string {
    Text.Join(", ", seq(|keys|, i requires 0 <= i < |keys| => keys[i] + " = %s"))
  }

  const UpdateSqlHead: string := "\n        UPDATE dough_makes \n        SET "
  const UpdateSqlTail: string :=
    ", updated_at = CURRENT_TIMESTAMP\n        WHERE dough_name = %s \n        AND make_date = %s \n        AND make_num = %s\n    "

  /** The UPDATE statement of `update_dough_make`: the update values in key
      order, then the name, the date and the make number. */
  function UpdateCommand(makeDate: Date, makeName: string, makeNum: int,
                         updates: seq<(string, FieldValue)>): (c: SqlCommand)
    ensures |c.params| == |updates| + 3
    ensures forall i :: 0 <= i < |updates| ==> c.params[i] == updates[i].1
    ensures c.params[|updates|..] == [StrVal(makeName), DateVal(makeDate), IntVal(makeNum)]
  {
    SqlCommand(UpdateSqlHead + SetClause(Keys(updates)) + UpdateSqlTail,
               Values(updates) + [StrVal(makeName), DateVal(makeDate), IntVal(makeNum)])
  }

  /** With update keys free of `%`, the set clause holds one placeholder per key. */
  lemma UpdatePlaceholdersMatch(updates: seq<(string, FieldValue)>)
    requires forall i :: 0 <= i < |updates| ==> Text.CountChar('%', updates[i].0) == 0
    ensures Text.CountChar('%', SetClause(Keys(updates))) == |updates|
  {
    var keys := Keys(updates);
    var parts := seq(|keys|, i requires 0 <= i < |keys| => keys[i] + " = %s");
    assert Text.CountChar('%', " = %s") == 1;
    forall i | 0 <= i < |parts| ensures Text.CountChar('%', parts[i]) == 1 {
      Text.CountCharAppend('%', keys[i], " = %s");
    }
    assert Text.CountChar('%', ", ") == 0;
    Text.CountCharJoin('%', ", ", parts);
  }

  // ---------------------------------------------------------------------------
  // Writes
  // ---------------------------------------------------------------------------

  /** The outcome of a write: the statement executed, whether it was
      committed, and what the method raises. */
  datatype WriteOutcome = WriteOutcome(command: SqlCommand, committed: bool, result: Result<(), string>)

  /** `insert_dough_make`: a failure of the execute or the commit is re-raised unchanged. */
  function InsertDoughMake(m: DbDoughMake, fault: Option<string>): (o: WriteOutcome)
    ensures o.command == InsertCommand(m)
    ensures o.committed <==> fault.None?
    ensures o.result == (if fault.Some? then Err(fault.value) else Ok(()))
  {
    WriteOutcome(InsertCommand(m), fault.None?, if fault.Some? then Err(fault.value) else Ok(()))
  }

  /** The outcome of `update_dough_make`: any failure comes back as a
      `DatabaseError` whose message prefixes the original's. */
  datatype UpdateOutcome = UpdateOutcome(command: SqlCommand, committed: bool, result: Result<(), DatabaseError>)

  function UpdateDoughMake(makeDate: Date, makeName: string, makeNum: int,
                           updates: seq<(string, FieldValue)>, fault: Option<string>): (o: UpdateOutcome)
    ensures o.command == UpdateCommand(makeDate, makeName, makeNum, updates)
    ensures o.committed <==> fault.None?
    ensures o.result.Ok? <==> fault.None?
    ensures fault.Some? ==>
      o.result.error == DatabaseError("Error updating dough make: " + fault.value, None)
  {
    var command := UpdateCommand(makeDate, makeName, makeNum, updates);
    if fault.None? then UpdateOutcome(command, true, Ok(()))
    else UpdateOutcome(command, false, Err(DatabaseError("Error updating dough make: " + fault.value, None)))
  }

  // ---------------------------------------------------------------------------
  // Lookup
  // ---------------------------------------------------------------------------

  /** `str(n)` with at least `width` digits, as in an ISO date. */
  function PadInt(n: int, width: nat): string {
    if n >= 0 then Text.ZeroPad(n, width) else "-" + Text.ZeroPad(-n, width)
  }

  /** `str(d)` for a `date`: YYYY-MM-DD. */
  function DateText(d: Date): (s: string)
    ensures 1 <= d.year <= 9999 && 1 <= d.month <= 12 && 1 <= d.day <= 31 ==>
      |s| == 10 && s[4] == '-' && s[7] == '-'
      && forall i :: 0 <= i < 10 && i != 4 && i != 7 ==> '0' <= s[i] <= '9'
  {
    PadInt(d.year, 4) + "-" + PadInt(d.month, 2) + "-" + PadInt(d.day, 2)
  }

  /** A `dough_makes` row as selected by `get_dough_make`. */
  datatype Row = Row(
    doughName: string, makeDate: Date,
    roomTemp: Option<real>, waterTemp: Option<real>, flourTemp: Option<real>, prefermentTemp: Option<real>,
    startTs: Option<int>, autolyseTs: Option<int>, pullTs: Option<int>,
    preshapeTs: Option<int>, finalShapeTs: Option<int>, fridgeTs: Option<int>)

  /** The keyword arguments `get_dough_make` passes when building its result. */
  datatype FetchedMake = FetchedMake(
    name: string, date: Date,
    autolyseTs: Option<int>, startTs: Option<int>, pullTs: Option<int>,
    preshapeTs: Option<int>, finalShapeTs: Option<int>, fridgeTs: Option<int>,
    roomTemp: Option<int>, prefermentTemp: Option<int>, waterTemp: Option<int>, flourTemp: Option<int>)

  /** Python's `int(x)` on a number: truncation toward zero. */
  function Truncate(x: real): (n: int)
    ensures x >= 0.0 ==> 0 <= n && n as real <= x < n as real + 1.0
    ensures x < 0.0 ==> n <= 0 && n as real - 1.0 < x <= n as real
  {
    if x >= 0.0 then x.Floor else -((-x).Floor)
  }

  /** `int(t) if t else None`: a missing value and a stored zero both give None. */
  function TruncateOrNone(t: Option<real>): (r: Option<int>)
    ensures r.None? <==> t.None? || t.value == 0.0
    ensures r.Some? ==> r.value == Truncate(t.value)
  {
    if t.None? || t.value == 0.0 then None else Some(Truncate(t.value))
  }

  /** The row mapping: timestamps as stored, temperatures truncated, falsy ones dropped. */
  function MapRow(row: Row): (f: FetchedMake)
    ensures f.name == row.doughName && f.date == row.makeDate
    ensures f.autolyseTs == row.autolyseTs && f.startTs == row.startTs && f.pullTs == row.pullTs
    ensures f.preshapeTs == row.preshapeTs && f.finalShapeTs == row.finalShapeTs && f.fridgeTs == row.fridgeTs
    ensures f.roomTemp == TruncateOrNone(row.roomTemp) && f.prefermentTemp == TruncateOrNone(row.prefermentTemp)
    ensures f.waterTemp == TruncateOrNone(row.waterTemp) && f.flourTemp == TruncateOrNone(row.flourTemp)
  {
    FetchedMake(row.doughName, row.makeDate,
                row.autolyseTs, row.startTs, row.pullTs, row.preshapeTs, row.finalShapeTs, row.fridgeTs,
                TruncateOrNone(row.roomTemp), TruncateOrNone(row.prefermentTemp),
                TruncateOrNone(row.waterTemp), TruncateOrNone(row.flourTemp))
  }

  /** A whole nonzero temperature survives the mapping; zero does not. */
  lemma TemperatureMapping(t: int)
    ensures TruncateOrNone(Some(t as real)) == (if t == 0 then None else Some(t))
  {
  }

  /** The keyword arguments `get_dough_make` passes to `DoughMake`: the old
      `start_ts` and `pull_ts` columns, and no `mix_ts`, `bulk_ts` or `dough_temp`. */
  function FetchedArguments(f: FetchedMake): (d: seq<(string, FieldValue)>)
    ensures "mix_ts" !in Keys(d) && "bulk_ts" !in Keys(d) && "dough_temp" !in Keys(d)
  {
    var d := [("name", StrVal(f.name)), ("date", DateVal(f.date)),
              ("autolyse_ts", OptTs(f.autolyseTs)), ("start_ts", OptTs(f.startTs)), ("pull_ts", OptTs(f.pullTs)),
              ("preshape_ts", OptTs(f.preshapeTs)), ("final_shape_ts", OptTs(f.finalShapeTs)),
              ("fridge_ts", OptTs(f.fridgeTs)),
              ("room_temp", IntOrNone(f.roomTemp)), ("preferment_temp", IntOrNone(f.prefermentTemp)),
              ("water_temp", IntOrNone(f.waterTemp)), ("flour_temp", IntOrNone(f.flourTemp))];
    assert Keys(d) == ["name", "date", "autolyse_ts", "start_ts", "pull_ts", "preshape_ts", "final_shape_ts",
                       "fridge_ts", "room_temp", "preferment_temp", "water_temp", "flour_temp"];
    d
  }

  /** No matched row builds a `DoughMake`: the required `mix_ts` is never passed. */
  lemma FetchedNeverLoads(row: Row)
    ensures Load(FetchedArguments(MapRow(row))) == None
  {
    LoadNeedsField(FetchedArguments(MapRow(row)), "mix_ts");
  }

  /** How `get_dough_make` fails: `UnboundLocalError` when the query raised
      (the handler only logs, and `res` was never bound), `DatabaseError`
      when no row matched, or pydantic's `ValidationError` when the matched
      row does not build a `DoughMake`. */
  datatype GetFailure = Unbound | NotFound(error: DatabaseError) | Invalid

  function MissingMakeMessage(makeDate: Date, makeName: string, makeNum: int): string {
    "Dough make " + makeName + " #" + Text.IntToString(makeNum) + " on " + DateText(makeDate) + " doesn't exist"
  }

  /** `get_dough_make`, given what the query did: raised (`Err`), found no row
      (`Ok(None)`) or returned a row, which is mapped and handed to `DoughMake`. */
  function GetDoughMake(makeDate: Date, makeName: string, makeNum: int,
                        fetched: Result<Option<Row>, string>): (r: Result<DoughMake, GetFailure>)
    ensures r == Err(Unbound) <==> fetched.Err?
    ensures fetched == Ok(None) ==>
      r == Err(NotFound(DatabaseError(MissingMakeMessage(makeDate, makeName, makeNum), None)))
    ensures r == Err(Invalid) <==> fetched.Ok? && fetched.value.Some?
    ensures r.Err?
  {
    if fetched.Err? then Err(Unbound)
    else if fetched.value.None? then Err(NotFound(DatabaseError(MissingMakeMessage(makeDate, makeName, makeNum), None)))
    else
      FetchedNeverLoads(fetched.value.value);
      match Load(FetchedArguments(MapRow(fetched.value.value)))
      case Some(m) => Ok(m)
      case None => Err(Invalid)
  }

  // ---------------------------------------------------------------------------
  // Deletion
  // ---------------------------------------------------------------------------

  /** What the DELETE did: ran and affected `rowcount` rows, or raised. */
  datatype Execution = Executed(rowcount: nat) | Raised(message: string)

  datatype DeleteOutcome = DeleteOutcome(params: seq<FieldValue>, committed: bool, result: Result<(), DatabaseError>)

  function NoRowMessage(makeDate: Date, makeName: string, makeNum: int): string {
    "No dough make found with name " + makeName + " #" + Text.IntToString(makeNum) + " on " + DateText(makeDate)
  }

  /** `delete_dough_make`: zero affected rows raise before the commit; the
      handler turns every failure into a `DatabaseError` with the same text. */
  function DeleteDoughMake(makeDate: Date, makeName: string, makeNum: int, execution: Execution): (o: DeleteOutcome)
    ensures o.params == [StrVal(makeName), DateVal(makeDate), IntVal(makeNum)]
    ensures o.committed <==> execution.Executed? && execution.rowcount != 0
    ensures o.result.Ok? <==> o.committed
    ensures execution == Executed(0) ==>
      o.result == Err(DatabaseError(NoRowMessage(makeDate, makeName, makeNum), None))
    ensures execution.Raised? ==> o.result == Err(DatabaseError(execution.message, None))
  {
    var params := [StrVal(makeName), DateVal(makeDate), IntVal(makeNum)];
    match execution
    case Raised(message) => DeleteOutcome(params, false, Err(DatabaseError(message, None)))
    case Executed(rowcount) =>
      if rowcount == 0 then
        var e := DatabaseError(NoRowMessage(makeDate, makeName, makeNum), None);
        DeleteOutcome(params, false, Err(DatabaseError(e.message, None)))
      else DeleteOutcome(params, true, Ok(()))
  }

  /** The key a stored make is deleted by. */
  datatype StoredKey = StoredKey(name: string, date: Date, num: int)

  /** Rows of a table matching a key: the DELETE's `rowcount`. */
  function Matching(table: seq<StoredKey>, k: StoredKey): (n: nat)
    ensures n <= |table|
  {
    if |table| == 0 then 0 else (if table[0] == k then 1 else 0) + Matching(table[1..], k)
  }

  /** The table after the DELETE. */
  function Remove(table: seq<StoredKey>, k: StoredKey): (r: seq<StoredKey>)
    ensures |r| == |table| - Matching(table, k)
    ensures forall x :: x in r <==> x in table && x != k
  {
    if |table| == 0 then []
    else (if table[0] == k then [] else [table[0]]) + Remove(table[1..], k)
  }

  lemma {:induction false} RemoveLeavesNone(table: seq<StoredKey>, k: StoredKey)
    ensures Matching(Remove(table, k), k) == 0
    decreases |table|
  {
    if |table| > 0 {
      RemoveLeavesNone(table[1..], k);
      var rest := Remove(table[1..], k);
      if table[0] != k {
        assert ([table[0]] + rest)[1..] == rest;
      } else {
        assert [] + rest == rest;
      }
    }
  }

  /** Deleting a make that is stored commits; deleting it again reports that
      no row was found, and commits nothing. */
  lemma DeleteTwice(table: seq<StoredKey>, k: StoredKey)
    requires k in table
    ensures DeleteDoughMake(k.date, k.name, k.num, Executed(Matching(table, k))).committed
    ensures DeleteDoughMake(k.date, k.name, k.num, Executed(Matching(Remove(table, k), k))).result
      == Err(DatabaseError(NoRowMessage(k.date, k.name, k.num), None))
  {
    RemoveLeavesNone(table, k);
    assert |Remove(table, k)| < |table| by {
      assert k !in Remove(table, k);
      if Matching(table, k) == 0 {
        assert |Remove(table, k)| == |table|;
        MatchingPositive(table, k);
      }
    }
  }

  lemma {:induction false} MatchingPositive(table: seq<StoredKey>, k: StoredKey)
    requires k in table
    ensures Matching(table, k) > 0
    decreases |table|
  {
    if table[0] != k {
      assert k in table[1..];
      MatchingPositive(table[1..], k);
    }
  }
}
