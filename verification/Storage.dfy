/** Stored records and the values the storage layer computes with (storage/src, storage/postgres/src). */
module Storage {
  import opened Wrappers
  import opened ErrorCodes
  import opened OperationKey

  datatype Record = Record(
    first: Int32, second: Option<Int32>, operation: string,
    result: Option<Int32>, status: Int32, key: string)

  type Cache = map<string, Record>

  // The in-memory map: last writer wins.

  function Put(cache: Cache, r: Record): Cache {
    cache[r.key := r]
  }

  function FindByKey(cache: Cache, key: string): Option<Record> {
    if key in cache then Some(cache[key]) else None
  }

  function Find(cache: Cache, q: Query): Result<Option<Record>, Int32> {
    match Make(q)
    case Err(e) => Err(e)
    case Ok(key) => Ok(FindByKey(cache, key))
  }

  function WarmUp(cache: Cache, records: seq<Record>): Cache {
    if records == [] then cache
    else Put(WarmUp(cache, records[..|records| - 1]), records[|records| - 1])
  }

  // The table: rows in order of insertion, unique on the key, first writer wins.

  ghost predicate HasKey(table: seq<Record>, key: string) {
    exists i :: 0 <= i < |table| && table[i].key == key
  }

  function Keys(table: seq<Record>): (ks: set<string>)
    ensures forall k :: k in ks <==> HasKey(table, k)
  {
    set i | 0 <= i < |table| :: table[i].key
  }

  ghost predicate UniqueKeys(table: seq<Record>) {
    forall i, j :: 0 <= i < j < |table| ==> table[i].key != table[j].key
  }

  /** Text parameters reach the server as C strings. */
  function CString(s: string): (t: string)
    ensures |t| <= |s| && t == s[..|t|]
    ensures forall c | c in t :: c != '\0'
    ensures |t| < |s| ==> s[|t|] == '\0'
  {
    if s == [] || s[0] == '\0' then [] else [s[0]] + CString(s[1..])
  }

  /** The row a record becomes. */
  function Stored(r: Record): Record {
    r.(operation := CString(r.operation), key := CString(r.key))
  }

  /** `INSERT ... ON CONFLICT (cache_key) DO NOTHING`. */
  function Insert(table: seq<Record>, r: Record): seq<Record> {
    if Stored(r).key in Keys(table) then table else table + [Stored(r)]
  }

  /** The keys whose database saves may fail. */
  type Faults = iset<string>

  /** How one database save can end. */
  datatype DbOutcome =
    | Committed        // took effect, reported as done
    | Lost             // no effect, reported as failed
    | Unacknowledged   // took effect, reported as failed

  function Save(table: seq<Record>, r: Record, outcome: DbOutcome): seq<Record> {
    if outcome.Lost? then table else Insert(table, r)
  }

  /** Cache and table together, as `StorageService` keeps them. */
  datatype Store = Store(cache: Cache, table: seq<Record>)

  /** What a storage call is asked to do. */
  datatype StorageCall = FindCall(query: Query) | SaveCall(record: Record)

  datatype Exception = CalculatorException(code: Int32) | RuntimeError

  /** What a storage call gives back. */
  datatype Reply = Found(record: Option<Record>) | Saved | Threw(exception: Exception)

  function FindReply(cache: Cache, q: Query): Reply {
    match Find(cache, q)
    case Err(e) => Threw(CalculatorException(e))
    case Ok(record) => Found(record)
  }

  function SaveReply(outcome: DbOutcome): Reply {
    if outcome.Committed? then Saved else Threw(CalculatorException(ERROR_STORAGE))
  }

  /** `StorageService::save` puts the record in the cache before it reaches the database. */
  function Execute(store: Store, call: StorageCall, outcome: DbOutcome): (Store, Reply) {
    match call
    case FindCall(q) => (store, FindReply(store.cache, q))
    case SaveCall(r) => (Store(Put(store.cache, r), Save(store.table, r, outcome)), SaveReply(outcome))
  }

  /** `StorageService::initialize`: a fresh cache filled from the table. */
  function Initialise(table: seq<Record>): Store {
    Store(WarmUp(map[], table), table)
  }

  /** Only a save under one of the keys may end otherwise than committed. */
  ghost predicate OutcomeAllowed(faults: Faults, call: StorageCall, outcome: DbOutcome) {
    call.SaveCall? && call.record.key !in faults ==> outcome.Committed?
  }

  // Facts about warm-up and insertion.

  lemma KeysOfAppend(table: seq<Record>, r: Record)
    ensures Keys(table + [r]) == Keys(table) + {r.key}
  {
    var after := table + [r];
    forall k ensures k in Keys(after) <==> k in Keys(table) || k == r.key {
      if HasKey(table, k) {
        var i :| 0 <= i < |table| && table[i].key == k;
        assert after[i].key == k;
      }
      if k == r.key {
        assert after[|table|].key == k;
      }
    }
  }

  lemma {:induction false} WarmUpKeys(cache: Cache, records: seq<Record>)
    ensures WarmUp(cache, records).Keys == cache.Keys + Keys(records)
  {
    if records != [] {
      var front, last := records[..|records| - 1], records[|records| - 1];
      WarmUpKeys(cache, front);
      assert records == front + [last];
      KeysOfAppend(front, last);
    }
  }

  /** Position `i` holds the last record of its key. */
  ghost predicate LastOfItsKey(records: seq<Record>, i: nat)
    requires i < |records|
  {
    forall j | i < j < |records| :: records[j].key != records[i].key
  }

  /** Warm-up puts the last record of each key. */
  lemma {:induction false} WarmUpHoldsLast(cache: Cache, records: seq<Record>, i: nat)
    requires i < |records| && LastOfItsKey(records, i)
    ensures FindByKey(WarmUp(cache, records), records[i].key) == Some(records[i])
  {
    var front := records[..|records| - 1];
    if i < |front| {
      assert forall j | 0 <= j < |front| :: front[j] == records[j];
      WarmUpHoldsLast(cache, front, i);
    }
  }

  /** Keys of no record keep what the cache held. */
  lemma {:induction false} WarmUpKeepsOthers(cache: Cache, records: seq<Record>, key: string)
    requires !HasKey(records, key)
    ensures FindByKey(WarmUp(cache, records), key) == FindByKey(cache, key)
  {
    if records != [] {
      var front := records[..|records| - 1];
      assert forall j | 0 <= j < |front| :: front[j] == records[j];
      assert records[|records| - 1].key != key;
      WarmUpKeepsOthers(cache, front, key);
    }
  }

  lemma WarmUpFromTable(table: seq<Record>)
    requires UniqueKeys(table)
    ensures WarmUp(map[], table).Keys == Keys(table)
    ensures forall i | 0 <= i < |table| :: FindByKey(WarmUp(map[], table), table[i].key) == Some(table[i])
  {
    WarmUpKeys(map[], table);
    forall i | 0 <= i < |table| ensures FindByKey(WarmUp(map[], table), table[i].key) == Some(table[i]) {
      WarmUpHoldsLast(map[], table, i);
    }
  }

  lemma SameRowsSameKeys(table: seq<Record>, rows: seq<Record>)
    requires forall r :: r in table ==> r in rows
    ensures Keys(table) <= Keys(rows)
  {
    forall k | k in Keys(table) ensures k in Keys(rows) {
      var i :| 0 <= i < |table| && table[i].key == k;
      assert table[i] in rows;
    }
  }

  lemma WarmUpSameRows(table: seq<Record>, rows: seq<Record>, k: string)
    requires UniqueKeys(table) && UniqueKeys(rows)
    requires forall r :: r in table <==> r in rows
    ensures FindByKey(WarmUp(map[], rows), k) == FindByKey(WarmUp(map[], table), k)
  {
    WarmUpKeys(map[], table);
    WarmUpKeys(map[], rows);
    SameRowsSameKeys(table, rows);
    SameRowsSameKeys(rows, table);
    if k in Keys(table) {
      var i :| 0 <= i < |table| && table[i].key == k;
      assert table[i] in rows;
      var j :| 0 <= j < |rows| && rows[j] == table[i];
      WarmUpHoldsLast(map[], table, i);
      WarmUpHoldsLast(map[], rows, j);
    }
  }

  /** Straight after initialisation the cache is the table, row for row, whatever order the rows come in. */
  lemma InitialCacheIsTable(table: seq<Record>, rows: seq<Record>)
    requires UniqueKeys(table) && UniqueKeys(rows)
    requires forall r :: r in table <==> r in rows
    ensures WarmUp(map[], rows) == WarmUp(map[], table)
    ensures WarmUp(map[], table).Keys == Keys(table)
    ensures forall r | r in table :: FindByKey(WarmUp(map[], table), r.key) == Some(r)
  {
    WarmUpFromTable(table);
    var m, m' := WarmUp(map[], table), WarmUp(map[], rows);
    forall k ensures FindByKey(m, k) == FindByKey(m', k) {
      WarmUpSameRows(table, rows, k);
    }
    assert forall k :: k in m <==> FindByKey(m, k).Some?;
    assert forall k :: k in m' <==> FindByKey(m', k).Some?;
    assert m' == m;
  }

  lemma InsertKeys(table: seq<Record>, r: Record)
    ensures Keys(Insert(table, r)) == Keys(table) + {Stored(r).key}
    ensures UniqueKeys(table) ==> UniqueKeys(Insert(table, r))
  {
    KeysOfAppend(table, Stored(r));
    assert Stored(r).key !in Keys(table) ==> !HasKey(table, Stored(r).key);
  }

  /** A stored record keeps its numbers; its texts are cut at the first NUL and nowhere else. */
  lemma StoredCutsTexts(r: Record)
    ensures var s := Stored(r);
            && s.first == r.first && s.second == r.second && s.result == r.result && s.status == r.status
            && '\0' !in s.operation && s.operation <= r.operation
            && '\0' !in s.key && s.key <= r.key
            && (s.operation != r.operation ==> r.operation[|s.operation|] == '\0')
            && (s.key != r.key ==> r.key[|s.key|] == '\0')
  {
  }

  lemma StoredIsItself(r: Record)
    requires '\0' !in r.operation && '\0' !in r.key
    ensures Stored(r) == r
  {
  }

  // Replaying a history of calls on the single in-memory map.

  /** One executed storage job: what was asked, how its database part ended, what was answered. */
  datatype Entry = Entry(call: StorageCall, outcome: DbOutcome, reply: Reply)

  function Apply(cache: Cache, call: StorageCall): Cache {
    match call
    case FindCall(_) => cache
    case SaveCall(r) => Put(cache, r)
  }

  function Replay(cache: Cache, history: seq<Entry>): Cache {
    if history == [] then cache
    else Apply(Replay(cache, history[..|history| - 1]), history[|history| - 1].call)
  }

  predicate Saves(e: Entry, key: string) {
    e.call.SaveCall? && e.call.record.key == key
  }

  ghost predicate NoSave(history: seq<Entry>, from: nat, key: string)
    requires from <= |history|
  {
    forall j | from <= j < |history| :: !Saves(history[j], key)
  }

  /** A key no entry saves keeps its record. */
  lemma {:induction false} ReplayKeepsOthers(cache: Cache, history: seq<Entry>, key: string)
    requires NoSave(history, 0, key)
    ensures FindByKey(Replay(cache, history), key) == FindByKey(cache, key)
  {
    if history != [] {
      var front := history[..|history| - 1];
      assert forall j | 0 <= j < |front| :: front[j] == history[j];
      assert !Saves(history[|history| - 1], key);
      ReplayKeepsOthers(cache, front, key);
    }
  }

  /** A replayed map holds, per key, the record of the latest save. */
  lemma {:induction false} ReplayHoldsLatestSave(cache: Cache, history: seq<Entry>, i: nat, key: string)
    requires i < |history| && Saves(history[i], key) && NoSave(history, i + 1, key)
    ensures FindByKey(Replay(cache, history), key) == Some(history[i].call.record)
  {
    var front := history[..|history| - 1];
    if i < |front| {
      assert forall j | 0 <= j < |front| :: front[j] == history[j];
      assert !Saves(history[|history| - 1], key);
      ReplayHoldsLatestSave(cache, front, i, key);
    }
  }
}
