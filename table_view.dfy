/**
 * The table view (src/components/visualization/TableView.tsx): an array
 * whose first element is an object becomes a table with one column per key
 * of that first element; any other object becomes a Key/Value table; all
 * else gets a fallback message. Styling and animation are not modelled: a
 * table is its header and its cells.
 */
module TableView {
  import opened Wrappers
  import opened Strings
  import opened Values

  /**
   * What a cell shows: `String(v)` or `JSON.stringify(v)` of a value.
   * The text of the first is `StringText`; the serialiser is not modelled.
   */
  datatype Cell = StringOf(v: Value) | JsonOf(v: Value)

  datatype Table =
    | RecordTable(columns: seq<string>, rows: seq<seq<Cell>>)
    | KeyValueTable(entries: seq<(string, Cell)>)
    | Fallback(message: string)

  /** The `TypeError` rendering throws for a `null` first row or a nullish later row. */
  datatype RenderError = TypeError

  const FallbackPrefix := "Unable to render data as table. Data type: "

  /** 2^53: below it in magnitude every integer is a double and `String` writes all of its digits. */
  const SafeIntegerLimit: int := 0x20_0000_0000_0000

  /** A whole number of magnitude below 2^53 (`Number.isSafeInteger`). */
  predicate IsSafeInteger(n: real) {
    n == n.Floor as real && -SafeIntegerLimit < n.Floor < SafeIntegerLimit
  }

  /**
   * The numeral `String` gives a safe integer. Fractions, and whole numbers
   * from 2^53 up (shortest round-trip digits, exponent form from 1e21), are
   * not modelled.
   */
  function NumberText(n: real): (t: Option<string>)
    ensures t.Some? <==> IsSafeInteger(n)
  {
    if !IsSafeInteger(n) then None
    else if n < 0.0 then Some("-" + DecimalText(-n.Floor))
    else Some(DecimalText(n.Floor))
  }

  /** `String(k)` of an array index below 2^53 is the key `Object.keys` gives it, and reads back as k. */
  lemma NumberTextOfIndex(k: nat)
    requires k < SafeIntegerLimit
    ensures NumberText(k as real) == Some(DecimalText(k))
    ensures ParseIndex(NumberText(k as real).value) == Some(k)
  {
    assert (k as real).Floor == k;
    DecimalTextParses(k);
  }

  /** `String(v)`, where the model knows it: arrays and numbers other than safe integers are left out. */
  function StringText(v: Value): (t: Option<string>)
    ensures v.Str? ==> t == Some(v.s)
    ensures t.None? <==> v.Arr? || (v.Num? && !IsSafeInteger(v.n))
  {
    match v
    case Undefined => Some("undefined")
    case Null => Some("null")
    case Bool(b) => Some(if b then "true" else "false")
    case Num(n) => NumberText(n)
    case Str(s) => Some(s)
    case Arr(_) => None
    case Obj(_) => Some("[object Object]")
  }

  /** The text a cell shows, where the model knows it. */
  function CellText(c: Cell): Option<string> {
    if c.StringOf? then StringText(c.v) else None
  }

  /** A record-table cell: `String(row[col] ?? '')`. */
  function RecordCell(v: Value): (c: Cell)
    ensures IsNullish(v) ==> CellText(c) == Some("")
    ensures !IsNullish(v) ==> c == StringOf(v)
  {
    StringOf(if IsNullish(v) then Str("") else v)
  }

  /** A Key/Value cell: objects (and null) are serialised, everything else is `String`'d. */
  function KeyValueCell(v: Value): (c: Cell)
    ensures c.JsonOf? <==> v.Null? || v.Arr? || v.Obj?
    ensures c.v == v
  {
    if TypeOf(v) == "object" then JsonOf(v) else StringOf(v)
  }

  /** The first branch's test: a non-empty array whose first element has `typeof` "object". */
  predicate IsRecordArray(data: Value) {
    data.Arr? && |data.items| > 0 && TypeOf(data.items[0]) == "object"
  }

  /** Some row would be read from while being null or undefined. */
  predicate HasNullishRow(rows: seq<Value>) {
    exists i :: 0 <= i < |rows| && IsNullish(rows[i])
  }

  /** The body of a record table: one row per element, one cell per column. */
  function RecordRows(rows: seq<Value>, columns: seq<string>): (r: Result<seq<seq<Cell>>, RenderError>)
    ensures r.Failure? <==> columns != [] && HasNullishRow(rows)
    ensures r.Success? ==> |r.value| == |rows|
    ensures r.Success? ==> forall i :: 0 <= i < |rows| ==> |r.value[i]| == |columns|
    ensures r.Success? ==> forall i, j :: 0 <= i < |rows| && 0 <= j < |columns| ==>
              r.value[i][j] == RecordCell(Prop(rows[i], columns[j]))
  {
    if columns != [] && HasNullishRow(rows) then Failure(TypeError)
    else Success(seq(|rows|, i requires 0 <= i < |rows| =>
                   seq(|columns|, j requires 0 <= j < |columns| => RecordCell(Prop(rows[i], columns[j])))))
  }

  /** What `TableView` renders for `data`, or the error it throws. */
  function Render(data: Value): (r: Result<Table, RenderError>)
    ensures IsRecordArray(data) && data.items[0].Null? ==> r == Failure(TypeError)
    ensures IsRecordArray(data) && !data.items[0].Null? ==>
              var columns := OwnKeys(data.items[0]);
              var body := RecordRows(data.items, columns);
              (r.Failure? <==> body.Failure?) && (r.Success? ==> r.value == RecordTable(columns, body.value))
    ensures !IsRecordArray(data) && data.Obj? ==>
              r.Success? && r.value.KeyValueTable? && |r.value.entries| == |data.entries|
              && forall i :: 0 <= i < |data.entries| ==>
                   r.value.entries[i] == (data.entries[i].0, KeyValueCell(data.entries[i].1))
    ensures !IsRecordArray(data) && !data.Obj? ==> r == Success(Fallback(FallbackPrefix + TypeOf(data)))
  {
    if IsRecordArray(data) then
      var first := data.items[0];
      if first.Null? then Failure(TypeError)
      else
        var columns := OwnKeys(first);
        var body := RecordRows(data.items, columns);
        if body.Failure? then Failure(body.error) else Success(RecordTable(columns, body.value))
    else if data.Obj? then
      Success(KeyValueTable(seq(|data.entries|, i requires 0 <= i < |data.entries| =>
                                  (data.entries[i].0, KeyValueCell(data.entries[i].1)))))
    else
      Success(Fallback(FallbackPrefix + TypeOf(data)))
  }

  /** Only the first row decides the columns: a key no later row can add. */
  lemma ColumnsFromFirstRowOnly(first: Value, rest: seq<Value>, key: string)
    requires first.Obj?
    requires forall i :: 0 <= i < |first.entries| ==> first.entries[i].0 != key
    ensures var r := Render(Arr([first] + rest));
            r.Success? ==> r.value.RecordTable? && key !in r.value.columns
  {
    assert Arr([first] + rest).items[0] == first;
  }

  /** A row lacking a column's key shows an empty cell there. */
  lemma MissingKeyGivesEmptyCell(rows: seq<Value>, columns: seq<string>, i: nat, j: nat)
    requires i < |rows| && j < |columns|
    requires rows[i].Obj? && forall k :: 0 <= k < |rows[i].entries| ==> rows[i].entries[k].0 != columns[j]
    ensures var body := RecordRows(rows, columns);
            body.Success? ==> CellText(body.value[i][j]) == Some("")
  {
    MissingPropIsUndefined(rows[i].entries, columns[j]);
  }

  /** Strings, numbers, booleans, null, undefined and the empty array all fall back. */
  lemma FallbackCases(data: Value)
    requires !data.Obj?
    requires !data.Arr? || data.items == []
    ensures Render(data) == Success(Fallback(FallbackPrefix + TypeOf(data)))
    ensures data.Arr? || data.Null? ==> Render(data) == Success(Fallback(FallbackPrefix + "object"))
  {
  }

  /** An array of objects renders without error whatever the rows hold, as long as none is nullish. */
  lemma RecordArrayRenders(rows: seq<Value>)
    requires |rows| > 0 && rows[0].Obj?
    requires !HasNullishRow(rows)
    ensures var r := Render(Arr(rows));
            r.Success? && r.value.RecordTable? && r.value.columns == KeysOf(rows[0].entries)
            && |r.value.rows| == |rows|
  {
  }

  /** A null first element makes `Object.keys` throw; a later null row throws only when there are columns. */
  lemma NullRows(first: Value, later: seq<Value>)
    requires first.Obj?
    requires Null in later
    ensures Render(Arr([Null] + later)) == Failure(TypeError)
    ensures Render(Arr([first] + later)).Failure? <==> first.entries != []
  {
    var i :| 0 <= i < |later| && later[i] == Null;
    assert ([first] + later)[i + 1] == Null;
    assert ([Null] + later)[0] == Null;
  }

  /** An object with two distinct keys reads each key's own value. */
  lemma PairProps(k1: string, k2: string, v1: Value, v2: Value)
    requires k1 != k2
    ensures Prop(Obj([(k1, v1), (k2, v2)]), k1) == v1
    ensures Prop(Obj([(k1, v1), (k2, v2)]), k2) == v2
  {
    var entries := [(k1, v1), (k2, v2)];
    assert entries[1..] == [(k2, v2)];
    assert Lookup(entries, k2) == Lookup([(k2, v2)], k2);
  }

  /**
   * Two records with the same two keys give those keys as columns and each
   * value as `String` of it, as in the component's example
   * `[{ id: 1, name: 'Alice' }, { id: 2, name: 'Bob' }]`.
   */
  lemma TwoRecordTable(k1: string, k2: string, a1: Value, a2: Value, b1: Value, b2: Value)
    requires k1 != k2
    requires !IsNullish(a1) && !IsNullish(a2) && !IsNullish(b1) && !IsNullish(b2)
    ensures Render(Arr([Obj([(k1, a1), (k2, a2)]), Obj([(k1, b1), (k2, b2)])]))
            == Success(RecordTable([k1, k2], [[StringOf(a1), StringOf(a2)], [StringOf(b1), StringOf(b2)]]))
  {
    var a := Obj([(k1, a1), (k2, a2)]);
    var b := Obj([(k1, b1), (k2, b2)]);
    PairProps(k1, k2, a1, a2);
    PairProps(k1, k2, b1, b2);
    assert OwnKeys(a) == [k1, k2];
    var rows := [a, b];
    assert !HasNullishRow(rows);
    var body := RecordRows(rows, [k1, k2]);
    assert body.value[0] == [StringOf(a1), StringOf(a2)];
    assert body.value[1] == [StringOf(b1), StringOf(b2)];
    assert body.value == [[StringOf(a1), StringOf(a2)], [StringOf(b1), StringOf(b2)]];
  }
}
