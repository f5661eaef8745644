/** Repository: table access for one schema-qualified table, and the shaping of SQL rows
    into JSON objects. Running a query is a parameter: `Database` gives the rows a
    prepared query returns for its arguments. A row's values are taken as already
    converted to JSON. */
module Repositories {
  import opened Json
  import opened Wrappers
  import opened Responses
  import MutableJson

  /** The rows of a query result: the column names, and one value per column in each row. */
  datatype RowSet = RowSet(columns: seq<string>, rows: seq<seq<Json>>)

  predicate Shaped(rs: RowSet)
  {
    forall i :: 0 <= i < |rs.rows| ==> |rs.rows[i]| == |rs.columns|
  }

  /** A connection: the rows a prepared query (its text and its arguments) returns. */
  type Database = (string, seq<Json>) -> RowSet

  /** The index of the first column of a name. */
  function ColumnIndex(columns: seq<string>, name: string): (i: nat)
    requires name in columns
    ensures i < |columns| && columns[i] == name && name !in columns[..i]
  {
    if columns[0] == name then 0 else 1 + ColumnIndex(columns[1..], name)
  }

  // ---------------------------------------------------------------------------
  // jsonRow

  /** The object `base` after the first n columns other than "data" have been put into
      it, each with the row's value at its index. */
  function Overlay(base: map<string, Json>, columns: seq<string>, values: seq<Json>, n: nat): map<string, Json>
    requires n <= |columns| == |values|
  {
    if n == 0 then base
    else if columns[n - 1] == "data" then Overlay(base, columns, values, n - 1)
    else Overlay(base, columns, values, n - 1)[columns[n - 1] := values[n - 1]]
  }

  /** What `jsonRow` makes of a row: the object of the "data" column when there is one
      (a value that is not an object fails the cast), otherwise an empty object, with
      every other column put into it. */
  function RowObject(columns: seq<string>, values: seq<Json>): Result<map<string, Json>, Failure>
    requires |columns| == |values|
  {
    if "data" in columns then
      match values[ColumnIndex(columns, "data")]
      case JObj(fields) => Ok(Overlay(fields, columns, values, |columns|))
      case _ => Err(Thrown(ClassCast, None))
    else Ok(Overlay(map[], columns, values, |columns|))
  }

  /** The keys of an overlay are the base's and the regular columns'. */
  lemma {:induction false} OverlayKeys(base: map<string, Json>, columns: seq<string>, values: seq<Json>, n: nat)
    requires n <= |columns| == |values|
    ensures forall k :: k in Overlay(base, columns, values, n) <==>
      k in base || exists i :: 0 <= i < n && columns[i] == k && k != "data"
  {
    if n > 0 {
      OverlayKeys(base, columns, values, n - 1);
    }
  }

  /** A regular column holds the value at its last index. */
  lemma {:induction false} OverlayColumn(base: map<string, Json>, columns: seq<string>, values: seq<Json>, n: nat)
    requires n <= |columns| == |values|
    ensures forall i :: 0 <= i < n && columns[i] != "data" && (forall j :: i < j < n ==> columns[j] != columns[i]) ==>
      columns[i] in Overlay(base, columns, values, n) && Overlay(base, columns, values, n)[columns[i]] == values[i]
  {
    if n > 0 {
      OverlayColumn(base, columns, values, n - 1);
    }
  }

  /** A base key that no regular column names keeps its value. */
  lemma {:induction false} OverlayBase(base: map<string, Json>, columns: seq<string>, values: seq<Json>, n: nat)
    requires n <= |columns| == |values|
    ensures forall k :: k in base && (k == "data" || forall i :: 0 <= i < n ==> columns[i] != k) ==>
      k in Overlay(base, columns, values, n) && Overlay(base, columns, values, n)[k] == base[k]
  {
    if n > 0 {
      OverlayBase(base, columns, values, n - 1);
    }
  }

  /** The keys of an overlay are the base's and the regular columns'; a regular column
      holds the value at its last index; a base key no regular column names keeps its value. */
  lemma OverlaySpec(base: map<string, Json>, columns: seq<string>, values: seq<Json>, n: nat)
    requires n <= |columns| == |values|
    ensures forall k :: k in Overlay(base, columns, values, n) <==>
      k in base || exists i :: 0 <= i < n && columns[i] == k && k != "data"
    ensures forall i :: 0 <= i < n && columns[i] != "data" && (forall j :: i < j < n ==> columns[j] != columns[i]) ==>
      columns[i] in Overlay(base, columns, values, n) && Overlay(base, columns, values, n)[columns[i]] == values[i]
    ensures forall k :: k in base && (k == "data" || forall i :: 0 <= i < n ==> columns[i] != k) ==>
      k in Overlay(base, columns, values, n) && Overlay(base, columns, values, n)[k] == base[k]
  {
    OverlayKeys(base, columns, values, n);
    OverlayColumn(base, columns, values, n);
    OverlayBase(base, columns, values, n);
  }

  /** `jsonRow`: the object starts as the "data" column's object (or empty), and each
      other column is put into it in column order. */
  method JsonRow(values: seq<Json>, columns: seq<string>) returns (r: Result<map<string, Json>, Failure>)
    requires |values| == |columns|
    ensures r == RowObject(columns, values)
  {
    var json: MutableJson.JsonObject;
    if "data" in columns {
      var data := values[ColumnIndex(columns, "data")];
      if !data.JObj? {
        return Err(Thrown(ClassCast, None));
      }
      json := new MutableJson.JsonObject(data.fields);
    } else {
      json := new MutableJson.JsonObject(map[]);
    }
    ghost var base := json.fields;
    var i := 0;
    while i < |columns|
      invariant 0 <= i <= |columns|
      invariant json.fields == Overlay(base, columns, values, i)
    {
      if columns[i] != "data" {
        json.Put(columns[i], values[i]);
      }
      i := i + 1;
    }
    r := Ok(json.fields);
  }

  /** With a "data" column holding an object, a row is that object with every other
      column laid over it; without one, just the other columns. Either way every column
      but "data" is a key, holding the value at its (last) index. */
  lemma RowObjectSpec(columns: seq<string>, values: seq<Json>)
    requires |columns| == |values|
    ensures "data" !in columns ==>
      RowObject(columns, values).Ok? &&
      (forall k :: k in RowObject(columns, values).value <==> k in columns && k != "data")
    ensures "data" in columns ==>
      (RowObject(columns, values).Ok? <==> values[ColumnIndex(columns, "data")].JObj?)
    ensures RowObject(columns, values).Ok? ==>
      forall i :: 0 <= i < |columns| && columns[i] != "data" && (forall j :: i < j < |columns| ==> columns[j] != columns[i]) ==>
        columns[i] in RowObject(columns, values).value && RowObject(columns, values).value[columns[i]] == values[i]
    ensures "data" in columns && RowObject(columns, values).Ok? ==>
      var fields := values[ColumnIndex(columns, "data")].fields;
      forall k :: k in fields && (k == "data" || k !in columns) ==>
        k in RowObject(columns, values).value && RowObject(columns, values).value[k] == fields[k]
  {
    if "data" in columns {
      var d := values[ColumnIndex(columns, "data")];
      if d.JObj? {
        OverlaySpec(d.fields, columns, values, |columns|);
      }
    } else {
      OverlaySpec(map[], columns, values, |columns|);
    }
  }

  // ---------------------------------------------------------------------------
  // getRows / getRow

  /** Every row's object, in row order, or the first failure. */
  function RowObjects(rs: RowSet, n: nat): (r: Result<seq<map<string, Json>>, Failure>)
    requires Shaped(rs) && n <= |rs.rows|
    ensures r.Ok? ==> |r.value| == n
    ensures r.Ok? ==> forall i :: 0 <= i < n ==> RowObject(rs.columns, rs.rows[i]) == Ok(r.value[i])
    ensures r.Err? <==> exists i :: 0 <= i < n && RowObject(rs.columns, rs.rows[i]).Err?
  {
    if n == 0 then Ok([])
    else match RowObjects(rs, n - 1)
      case Err(e) => Err(e)
      case Ok(objs) =>
        match RowObject(rs.columns, rs.rows[n - 1])
        case Err(e) => Err(e)
        case Ok(o) => Ok(objs + [o])
  }

  function AsObjects(objs: seq<map<string, Json>>): (r: seq<Json>)
    ensures |r| == |objs| && forall i :: 0 <= i < |objs| ==> r[i] == JObj(objs[i])
  {
    seq(|objs|, i requires 0 <= i < |objs| => JObj(objs[i]))
  }

  /** `getRows`: a JSON array of every row's object, one per row, in order. */
  function GetRows(rs: RowSet): (r: Result<seq<Json>, Failure>)
    requires Shaped(rs)
    ensures r.Ok? ==> |r.value| == |rs.rows|
    ensures r.Ok? ==> forall i :: 0 <= i < |rs.rows| ==>
      RowObject(rs.columns, rs.rows[i]).Ok? && r.value[i] == JObj(RowObject(rs.columns, rs.rows[i]).value)
    ensures r.Err? <==> exists i :: 0 <= i < |rs.rows| && RowObject(rs.columns, rs.rows[i]).Err?
  {
    match RowObjects(rs, |rs.rows|)
    case Err(e) => Err(e)
    case Ok(objs) => Ok(AsObjects(objs))
  }

  /** `getRow`: every row is shaped, then the first row's object is taken, or an empty
      object when there are no rows. */
  function GetRow(rs: RowSet): (r: Result<map<string, Json>, Failure>)
    requires Shaped(rs)
    ensures r.Ok? && rs.rows == [] ==> r.value == map[]
    ensures r.Ok? && rs.rows != [] ==> RowObject(rs.columns, rs.rows[0]) == Ok(r.value)
    ensures r.Err? <==> exists i :: 0 <= i < |rs.rows| && RowObject(rs.columns, rs.rows[i]).Err?
  {
    match RowObjects(rs, |rs.rows|)
    case Err(e) => Err(e)
    case Ok(objs) => if objs == [] then Ok(map[]) else Ok(objs[0])
  }

  // ---------------------------------------------------------------------------
  // The not-found rule

  /** The evident intent of `find` and `delete`: an empty object is reported as a
      ModelNotFoundException with the message and the id as its data. */
  function CheckFound(result: Result<map<string, Json>, Failure>, message: string, id: string)
    : (r: Result<map<string, Json>, Failure>)
    ensures result.Err? ==> r == result
    ensures result.Ok? && result.value != map[] ==> r == result
    ensures result.Ok? && result.value == map[] ==> r == Err(ResponseCode(ModelNotFound, Some(message), [JStr(id)]))
  {
    match result
    case Err(e) => Err(e)
    case Ok(obj) =>
      if obj == map[] then Err(ResponseCode(ModelNotFound, Some(message), [JStr(id)]))
      else Ok(obj)
  }

  /** The not-found rule as written: the exception's data is `JsonArray(id)`, which decodes
      the id as JSON text. For an id that is not a JSON array, such as "42", that throws a
      DecodeException before the ModelNotFoundException exists; for one that is, such as
      "[1]", the ModelNotFoundException carries the decoded elements. */
  function CheckFoundAsWritten(result: Result<map<string, Json>, Failure>, message: string, id: string,
                               decode: string -> Option<seq<Json>>)
    : (r: Result<map<string, Json>, Failure>)
    ensures result.Ok? && result.value == map[] && CannotStartArray(id) ==> r == Err(Thrown(Decode, None))
    ensures result.Ok? && result.value == map[] && DecodeArrayText(id, decode).Err? ==> r == Err(Thrown(Decode, None))
    ensures result.Ok? && result.value == map[] && DecodeArrayText(id, decode).Ok? ==>
      r == Err(ResponseCode(ModelNotFound, Some(message), DecodeArrayText(id, decode).value))
    ensures !(result.Ok? && result.value == map[]) ==> r == CheckFound(result, message, id)
  {
    match result
    case Err(e) => Err(e)
    case Ok(obj) =>
      if obj == map[] then
        match DecodeArrayText(id, decode)
        case Err(e) => Err(e)
        case Ok(data) => Err(ResponseCode(ModelNotFound, Some(message), data))
      else Ok(obj)
  }

  /** For an id such as "42", a missing row as written is a 500 with no JSON body; the
      intended rule gives 404 with the id. */
  lemma MissingRowIs500AsWritten(message: string, id: string, decode: string -> Option<seq<Json>>)
    requires CannotStartArray(id)
    ensures CheckFoundAsWritten(Ok(map[]), message, id, decode) == Err(Thrown(Decode, None))
    ensures ErrorReply(NoStatus, CheckFoundAsWritten(Ok(map[]), message, id, decode).error) == Reply(InternalError, false, Text(""))
    ensures ErrorReply(NoStatus, CheckFound(Ok(map[]), message, id).error) ==
      Reply(404, true, ErrorJson(ModelNotFound, Some(message), [JStr(id)]))
  {
  }

  /** For an id that decodes as a JSON array, such as "[1]", a missing row as written is a
      404 whose data is the decoded elements rather than the id text. */
  lemma ArrayIdIs404AsWritten(message: string, id: string, decode: string -> Option<seq<Json>>)
    requires !CannotStartArray(id) && decode(id).Some?
    ensures ErrorReply(NoStatus, CheckFoundAsWritten(Ok(map[]), message, id, decode).error) ==
      Reply(404, true, ErrorJson(ModelNotFound, Some(message), decode(id).value))
  {
  }

  /** Id "[1]", with a decoder that reads it as the array [1]: as written, the 404 carries
      [1], where the intended rule carries the text "[1]". */
  lemma ArrayIdExample(decode: string -> Option<seq<Json>>)
    requires decode("[1]") == Some([JInt(1)])
    ensures CheckFoundAsWritten(Ok(map[]), "No object found with ID", "[1]", decode) ==
      Err(ResponseCode(ModelNotFound, Some("No object found with ID"), [JInt(1)]))
    ensures CheckFoundAsWritten(Ok(map[]), "No object found with ID", "[1]", decode) !=
      CheckFound(Ok(map[]), "No object found with ID", "[1]")
  {
    assert !CannotStartArray("[1]");
  }

  lemma MissingRowExample(decode: string -> Option<seq<Json>>)
    ensures CheckFoundAsWritten(Ok(map[]), "No object found with ID", "42", decode).Err?
    ensures CheckFoundAsWritten(Ok(map[]), "No object found with ID", "42", decode).error.Thrown?
  {
    assert CannotStartArray("42");
  }

  // ---------------------------------------------------------------------------
  // The repository

  class Repository {
    const table: string
    const schema: string
    /** `tableName`: the schema-qualified table. */
    const tableName: string

    constructor(table: string, schema: string)
      ensures this.table == table && this.schema == schema
      ensures tableName == schema + "." + table
    {
      this.table := table;
      this.schema := schema;
      tableName := schema + "." + table;
    }

    function AllQuery(): string { "SELECT * FROM " + tableName }
    function FindQuery(): string { "SELECT * FROM " + tableName + " WHERE id = $1" }
    function InsertQuery(): string { "INSERT INTO " + tableName + " (data) VALUES ($1::jsonb) RETURNING *" }
    function UpdateQuery(): string { "UPDATE " + tableName + " SET data = $1 WHERE id = $2 RETURNING *" }
    function DeleteQuery(): string { "DELETE FROM " + tableName + " WHERE id = $1 RETURNING id" }

    /** `all`: every row of the table as an array of objects. */
    function All(db: Database): (r: Result<seq<Json>, Failure>)
      requires Shaped(db(AllQuery(), []))
      ensures r.Ok? ==> |r.value| == |db(AllQuery(), []).rows|
      ensures r.Ok? ==> forall i :: 0 <= i < |r.value| ==> r.value[i].JObj?
      ensures var rs := db(AllQuery(), []);
        r.Ok? ==> forall i :: 0 <= i < |rs.rows| ==>
          RowObject(rs.columns, rs.rows[i]).Ok? && r.value[i] == JObj(RowObject(rs.columns, rs.rows[i]).value)
      ensures var rs := db(AllQuery(), []);
        r.Err? <==> exists i :: 0 <= i < |rs.rows| && RowObject(rs.columns, rs.rows[i]).Err?
    {
      GetRows(db(AllQuery(), []))
    }

    /** `find`: the first row with the id, or ModelNotFound when there is none. */
    function Find(id: string, db: Database): (r: Result<map<string, Json>, Failure>)
      requires Shaped(db(FindQuery(), [JStr(id)]))
      ensures db(FindQuery(), [JStr(id)]).rows == [] ==>
        r == Err(ResponseCode(ModelNotFound, Some("No object found with ID"), [JStr(id)]))
      ensures r.Ok? ==> r.value != map[] && Ok(r.value) == RowObject(db(FindQuery(), [JStr(id)]).columns, db(FindQuery(), [JStr(id)]).rows[0])
      ensures var row := GetRow(db(FindQuery(), [JStr(id)]));
        r.Ok? <==> row.Ok? && row.value != map[]
      ensures GetRow(db(FindQuery(), [JStr(id)])).Err? ==> r == GetRow(db(FindQuery(), [JStr(id)]))
    {
      CheckFound(GetRow(db(FindQuery(), [JStr(id)])), "No object found with ID", id)
    }

    /** `insert`: the row the database returns for the inserted data. */
    function Insert(data: map<string, Json>, db: Database): (r: Result<map<string, Json>, Failure>)
      requires Shaped(db(InsertQuery(), [JObj(data)]))
    {
      GetRow(db(InsertQuery(), [JObj(data)]))
    }

    /** `update`: the row the database returns once its data is replaced. */
    function Update(id: string, data: map<string, Json>, db: Database): (r: Result<map<string, Json>, Failure>)
      requires Shaped(db(UpdateQuery(), [JObj(data), JStr(id)]))
    {
      GetRow(db(UpdateQuery(), [JObj(data), JStr(id)]))
    }

    /** `delete`: the deleted row's id, or ModelNotFound when no row had it. */
    function Delete(id: string, db: Database): (r: Result<map<string, Json>, Failure>)
      requires Shaped(db(DeleteQuery(), [JStr(id)]))
      ensures db(DeleteQuery(), [JStr(id)]).rows == [] ==>
        r == Err(ResponseCode(ModelNotFound, Some("Tried to delete an item that does not exist"), [JStr(id)]))
      ensures r.Ok? ==> r.value != map[] && Ok(r.value) == RowObject(db(DeleteQuery(), [JStr(id)]).columns, db(DeleteQuery(), [JStr(id)]).rows[0])
      ensures var row := GetRow(db(DeleteQuery(), [JStr(id)]));
        r.Ok? <==> row.Ok? && row.value != map[]
      ensures GetRow(db(DeleteQuery(), [JStr(id)])).Err? ==> r == GetRow(db(DeleteQuery(), [JStr(id)]))
    {
      CheckFound(GetRow(db(DeleteQuery(), [JStr(id)])), "Tried to delete an item that does not exist", id)
    }
  }
}
