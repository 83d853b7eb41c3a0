/** Table rows as text: what `PostgresRepository` sends and reads back (storage/postgres/src). */
module Persistence {
  import opened Wrappers
  import opened Decimal
  import opened Storage

  /** One row of `operation_history`, every column as the text libpq exchanges; NULL is `None`. */
  datatype Row = Row(
    first: string, second: Option<string>, operation: string,
    result: Option<string>, status: string, key: string)

  function ToOptionalString(x: Option<Int32>): Option<string> {
    if x.None? then None else Some(ToString(x.value))
  }

  function ParseOptionalInt(column: Option<string>): Result<Option<Int32>, ParseError> {
    if column.None? then Ok(None)
    else
      match Stoi(column.value)
      case Err(e) => Err(e)
      case Ok(x) => Ok(Some(x))
  }

  function PrintRow(r: Record): Row {
    Row(ToString(r.first), ToOptionalString(r.second), CString(r.operation),
        ToOptionalString(r.result), ToString(r.status), CString(r.key))
  }

  function ReadRow(row: Row): Result<Record, ParseError> {
    match Stoi(row.first)
    case Err(e) => Err(e)
    case Ok(first) =>
      match ParseOptionalInt(row.second)
      case Err(e) => Err(e)
      case Ok(second) =>
        match ParseOptionalInt(row.result)
        case Err(e) => Err(e)
        case Ok(result) =>
          match Stoi(row.status)
          case Err(e) => Err(e)
          case Ok(status) => Ok(Record(first, second, row.operation, result, status, row.key))
  }

  /** Every record comes back from its row, over the full range of 32-bit integers and with absent values. */
  lemma ReadPrintedRow(r: Record)
    ensures ReadRow(PrintRow(r)) == Ok(Stored(r))
  {
    StoiOfToString(r.first);
    StoiOfToString(r.status);
    if r.second.Some? {
      StoiOfToString(r.second.value);
    }
    if r.result.Some? {
      StoiOfToString(r.result.value);
    }
  }

  /** Every column holds its own field: numbers as their decimals, absent ones as NULL, texts up to a NUL. */
  lemma ColumnsHoldTheirFields(r: Record)
    ensures IsDecimal(PrintRow(r).first, r.first) && IsDecimal(PrintRow(r).status, r.status)
    ensures PrintRow(r).second.Some? <==> r.second.Some?
    ensures r.second.Some? ==> IsDecimal(PrintRow(r).second.value, r.second.value)
    ensures PrintRow(r).result.Some? <==> r.result.Some?
    ensures r.result.Some? ==> IsDecimal(PrintRow(r).result.value, r.result.value)
    ensures PrintRow(r).operation == CString(r.operation) && PrintRow(r).key == CString(r.key)
  {
    ToStringIsTheDecimal(r.first, ToString(r.first));
    ToStringIsTheDecimal(r.status, ToString(r.status));
    if r.second.Some? {
      ToStringIsTheDecimal(r.second.value, ToString(r.second.value));
    }
    if r.result.Some? {
      ToStringIsTheDecimal(r.result.value, ToString(r.result.value));
    }
  }

  ghost predicate HasRowKey(rows: seq<Row>, key: string) {
    exists i :: 0 <= i < |rows| && rows[i].key == key
  }

  function RowKeys(rows: seq<Row>): (ks: set<string>)
    ensures forall k :: k in ks <==> HasRowKey(rows, k)
  {
    set i | 0 <= i < |rows| :: rows[i].key
  }

  /** `ON CONFLICT (cache_key) DO NOTHING`, on rows. */
  function InsertRow(rows: seq<Row>, row: Row): seq<Row> {
    if row.key in RowKeys(rows) then rows else rows + [row]
  }

  predicate Readable(rows: seq<Row>) {
    forall i | 0 <= i < |rows| :: ReadRow(rows[i]).Ok?
  }

  function ReadAll(rows: seq<Row>): (records: seq<Record>)
    requires Readable(rows)
    ensures |records| == |rows| && forall i | 0 <= i < |rows| :: records[i] == ReadRow(rows[i]).value
  {
    seq(|rows|, i requires 0 <= i < |rows| => ReadRow(rows[i]).value)
  }

  lemma ReadingKeepsKeys(rows: seq<Row>, i: nat)
    requires Readable(rows) && i < |rows|
    ensures ReadAll(rows)[i].key == rows[i].key
  {
    assert ReadRow(rows[i]).Ok?;
  }

  lemma SameKeys(rows: seq<Row>, key: string)
    requires Readable(rows)
    ensures key in RowKeys(rows) <==> key in Keys(ReadAll(rows))
  {
    if HasRowKey(rows, key) {
      var i :| 0 <= i < |rows| && rows[i].key == key;
      ReadingKeepsKeys(rows, i);
    }
    if HasKey(ReadAll(rows), key) {
      var i :| 0 <= i < |rows| && ReadAll(rows)[i].key == key;
      ReadingKeepsKeys(rows, i);
    }
  }

  /** Inserting a printed row is inserting the record. */
  lemma InsertRowReads(rows: seq<Row>, r: Record)
    requires Readable(rows)
    ensures Readable(InsertRow(rows, PrintRow(r)))
    ensures ReadAll(InsertRow(rows, PrintRow(r))) == Insert(ReadAll(rows), r)
  {
    ReadPrintedRow(r);
    SameKeys(rows, CString(r.key));
    AppendReads(rows, PrintRow(r));
  }

  lemma AppendReads(rows: seq<Row>, row: Row)
    requires Readable(rows) && ReadRow(row).Ok?
    ensures Readable(rows + [row]) && ReadAll(rows + [row]) == ReadAll(rows) + [ReadRow(row).value]
  {
  }

  // Saving a whole sequence of records.

  function SaveAll(records: seq<Record>): (rows: seq<Row>)
    ensures Readable(rows)
  {
    if records == [] then []
    else
      var rows := SaveAll(records[..|records| - 1]);
      InsertRowReads(rows, records[|records| - 1]);
      InsertRow(rows, PrintRow(records[|records| - 1]))
  }

  /** Position `i` holds the first record of its key. */
  ghost predicate FirstOfItsKey(records: seq<Record>, i: nat)
    requires i < |records|
  {
    forall j | 0 <= j < i :: records[j].key != records[i].key
  }

  /** `ps` lists, in order, exactly the positions of the first record of each key. */
  ghost predicate FirstPositions(records: seq<Record>, ps: seq<nat>) {
    && (forall k | 0 <= k < |ps| :: ps[k] < |records|)
    && (forall k, l | 0 <= k < l < |ps| :: ps[k] < ps[l])
    && (forall k | 0 <= k < |ps| :: FirstOfItsKey(records, ps[k]))
    && (forall i: nat | i < |records| && FirstOfItsKey(records, i) :: i in ps)
  }

  ghost predicate NoNul(records: seq<Record>) {
    forall i | 0 <= i < |records| :: '\0' !in records[i].operation && '\0' !in records[i].key
  }

  lemma KeyIsTakenWhenSeen(records: seq<Record>, ps: seq<nat>, table: seq<Record>, key: string)
    requires FirstPositions(records, ps)
    requires Picks(records, ps, table)
    ensures key in Keys(table) <==> Seen(records, key)
  {
    if key in Keys(table) {
      var k :| 0 <= k < |table| && table[k].key == key;
      assert records[ps[k]].key == key;
    }
    if Seen(records, key) {
      var j :| 0 <= j < |records| && records[j].key == key;
      var first := FirstPosition(records, j);
      assert first in ps;
      var k :| 0 <= k < |ps| && ps[k] == first;
      assert table[k].key == key;
    }
  }

  lemma {:induction false} FirstPosition(records: seq<Record>, j: nat) returns (first: nat)
    requires j < |records|
    ensures first <= j && records[first].key == records[j].key && FirstOfItsKey(records, first)
    decreases j
  {
    if FirstOfItsKey(records, j) {
      first := j;
    } else {
      var i :| 0 <= i < j && records[i].key == records[j].key;
      first := FirstPosition(records, i);
    }
  }

  ghost predicate Seen(records: seq<Record>, key: string) {
    exists j :: 0 <= j < |records| && records[j].key == key
  }

  lemma FirstStaysFirst(front: seq<Record>, last: Record, i: nat)
    requires i < |front|
    ensures FirstOfItsKey(front + [last], i) <==> FirstOfItsKey(front, i)
  {
    var records := front + [last];
    assert forall j | 0 <= j <= i :: records[j] == front[j];
  }

  lemma SeenIsNotFirst(front: seq<Record>, last: Record)
    ensures FirstOfItsKey(front + [last], |front|) <==> !Seen(front, last.key)
  {
    var records := front + [last];
    assert records[|front|] == last && forall j | 0 <= j < |front| :: records[j] == front[j];
  }

  lemma FirstPositionsExtend(front: seq<Record>, last: Record, ps: seq<nat>)
    requires FirstPositions(front, ps)
    ensures FirstPositions(front + [last], if Seen(front, last.key) then ps else ps + [|front|])
  {
    var records := front + [last];
    var ps' := if Seen(front, last.key) then ps else ps + [|front|];
    SeenIsNotFirst(front, last);
    forall k | 0 <= k < |ps'| ensures ps'[k] < |records| && FirstOfItsKey(records, ps'[k]) {
      if k < |ps| {
        FirstStaysFirst(front, last, ps[k]);
      }
    }
    forall i: nat | i < |records| && FirstOfItsKey(records, i) ensures i in ps' {
      if i < |front| {
        FirstStaysFirst(front, last, i);
        assert i in ps;
      } else {
        assert ps'[|ps|] == i;
      }
    }
  }

  /** `table` holds the records at the positions `ps`. */
  ghost predicate Picks(records: seq<Record>, ps: seq<nat>, table: seq<Record>) {
    |table| == |ps| && forall k | 0 <= k < |ps| :: ps[k] < |records| && table[k] == records[ps[k]]
  }

  /** What the table makes of records: their texts end at the first NUL. */
  function StoredAll(records: seq<Record>): (stored: seq<Record>)
    ensures |stored| == |records| && forall i | 0 <= i < |records| :: stored[i] == Stored(records[i])
  {
    seq(|records|, i requires 0 <= i < |records| => Stored(records[i]))
  }

  lemma InsertPicks(front: seq<Record>, last: Record, ps: seq<nat>, table: seq<Record>) returns (ps': seq<nat>)
    requires FirstPositions(front, ps) && Picks(front, ps, table)
    ensures FirstPositions(front + [Stored(last)], ps') && Picks(front + [Stored(last)], ps', Insert(table, last))
  {
    var stored := Stored(last);
    KeyIsTakenWhenSeen(front, ps, table, stored.key);
    FirstPositionsExtend(front, stored, ps);
    ps' := if Seen(front, stored.key) then ps else ps + [|front|];
  }

  lemma StoredAllAppend(front: seq<Record>, last: Record)
    ensures StoredAll(front + [last]) == StoredAll(front) + [Stored(last)]
  {
  }

  lemma SaveAllAppend(front: seq<Record>, last: Record)
    ensures ReadAll(SaveAll(front + [last])) == Insert(ReadAll(SaveAll(front)), last)
  {
    assert (front + [last])[..|front|] == front;
    InsertRowReads(SaveAll(front), last);
  }

  /**
   * Persistence round trip, for any records: loading the history gives back the first record stored
   * under each key, in the order of saving, with every field as it was stored.
   */
  lemma {:induction false} PersistenceRoundTrip(records: seq<Record>) returns (ps: seq<nat>)
    ensures FirstPositions(StoredAll(records), ps) && Picks(StoredAll(records), ps, ReadAll(SaveAll(records)))
  {
    if records == [] {
      ps := [];
    } else {
      var front, last := records[..|records| - 1], records[|records| - 1];
      assert records == front + [last];
      ps := PersistenceRoundTrip(front);
      SaveAllAppend(front, last);
      StoredAllAppend(front, last);
      ps := InsertPicks(StoredAll(front), last, ps, ReadAll(SaveAll(front)));
    }
  }

  /** Records without NUL characters, as all keys and operation names are, are stored as they are. */
  lemma NoNulIsStoredAsItIs(records: seq<Record>)
    requires NoNul(records)
    ensures StoredAll(records) == records
  {
    forall i | 0 <= i < |records| ensures Stored(records[i]) == records[i] {
      StoredIsItself(records[i]);
    }
  }
}
