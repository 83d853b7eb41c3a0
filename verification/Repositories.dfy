/** The storage objects as the service updates them, proved against the values of `Storage`. */
module Repositories {
  import opened Wrappers
  import opened Decimal
  import opened ErrorCodes
  import opened OperationKey
  import opened Storage
  import opened Persistence

  /** `CacheRepository` (storage/src/cache-repository.cpp). */
  class CacheRepository {
    var cache: Cache

    constructor ()
      ensures cache == map[]
    {
      cache := map[];
    }

    method Put(r: Record)
      modifies this
      ensures cache == Storage.Put(old(cache), r)
      ensures Storage.FindByKey(cache, r.key) == Some(r)
      ensures forall k | k != r.key :: Storage.FindByKey(cache, k) == Storage.FindByKey(old(cache), k)
    {
      cache := cache[r.key := r];
    }

    method WarmUp(records: seq<Record>)
      modifies this
      ensures cache == Storage.WarmUp(old(cache), records)
    {
      var i := 0;
      while i < |records|
        invariant i <= |records|
        invariant cache == Storage.WarmUp(old(cache), records[..i])
      {
        Put(records[i]);
        assert records[..i + 1][..i] == records[..i];
        i := i + 1;
      }
      assert records[..i] == records;
    }

    method FindByKey(key: string) returns (found: Option<Record>)
      ensures found.Some? <==> key in cache
      ensures found.Some? ==> found.value == cache[key]
    {
      if key in cache {
        return Some(cache[key]);
      }
      return None;
    }

    method Find(q: Query) returns (reply: Reply)
      ensures reply == FindReply(cache, q)
    {
      var key := Make(q);
      if key.Err? {
        return Threw(CalculatorException(key.error));
      }
      var found := FindByKey(key.value);
      return Found(found);
    }
  }

  /**
   * `PostgresRepository` (storage/postgres/src/postgres-repository.cpp) over rows of text. How the
   * database ends a save is a parameter.
   */
  class PostgresRepository {
    var rows: seq<Row>

    ghost predicate Valid()
      reads this
    {
      Readable(rows)
    }

    ghost function Contents(): seq<Record>
      requires Valid()
      reads this
    {
      ReadAll(rows)
    }

    constructor ()
      ensures Valid() && Contents() == []
    {
      rows := [];
    }

    method Save(r: Record, outcome: DbOutcome) returns (reply: Reply)
      requires Valid()
      modifies this
      ensures Valid() && Contents() == Storage.Save(old(Contents()), r, outcome)
      ensures reply == SaveReply(outcome)
    {
      InsertRowReads(rows, r);
      if !outcome.Lost? {
        rows := InsertRow(rows, PrintRow(r));
      }
      if outcome.Committed? {
        return Saved;
      }
      return Threw(CalculatorException(ERROR_STORAGE));
    }

    /** Fails on the first row that does not parse; rows this class wrote all parse. */
    method LoadHistory() returns (records: Result<seq<Record>, ParseError>)
      ensures Valid() ==> records == Ok(Contents())
      ensures records.Ok? ==> Valid()
      ensures records.Err? ==>
                exists i :: 0 <= i < |rows| && Readable(rows[..i]) && ReadRow(rows[i]) == Err(records.error)
    {
      var loaded: seq<Record> := [];
      var row := 0;
      while row < |rows|
        invariant row <= |rows|
        invariant Readable(rows[..row]) && loaded == ReadAll(rows[..row])
      {
        var record := ReadRow(rows[row]);
        if record.Err? {
          return Err(record.error);
        }
        AppendReads(rows[..row], rows[row]);
        assert rows[..row + 1] == rows[..row] + [rows[row]];
        loaded := loaded + [record.value];
        row := row + 1;
      }
      assert rows[..row] == rows;
      return Ok(loaded);
    }
  }

  /** `StorageService` (storage/src/storage-service.cpp): the cache in front of the database. */
  class StorageService {
    const cacheRepository: CacheRepository
    const postgresRepository: PostgresRepository

    ghost predicate Valid()
      reads this, postgresRepository
    {
      postgresRepository.Valid()
    }

    ghost function Value(): Store
      requires Valid()
      reads this, cacheRepository, postgresRepository
    {
      Store(cacheRepository.cache, postgresRepository.Contents())
    }

    constructor (cacheRepository: CacheRepository, postgresRepository: PostgresRepository)
      ensures this.cacheRepository == cacheRepository && this.postgresRepository == postgresRepository
    {
      this.cacheRepository := cacheRepository;
      this.postgresRepository := postgresRepository;
    }

    /** Throws what loading throws, before the cache is touched. */
    method Initialize() returns (r: Result<(), ParseError>)
      modifies cacheRepository
      ensures r.Ok? <==> Valid()
      ensures r.Err? ==> cacheRepository.cache == old(cacheRepository.cache)
      ensures r.Ok? ==>
                && Value().table == postgresRepository.Contents()
                && Value().cache == Storage.WarmUp(old(cacheRepository.cache), postgresRepository.Contents())
                && (old(cacheRepository.cache) == map[] ==> Value() == Initialise(postgresRepository.Contents()))
    {
      var history := postgresRepository.LoadHistory();
      if history.Err? {
        return Err(history.error);
      }
      cacheRepository.WarmUp(history.value);
      return Ok(());
    }

    method Find(q: Query) returns (reply: Reply)
      requires Valid()
      ensures reply == Execute(Value(), FindCall(q), Committed).1
    {
      reply := cacheRepository.Find(q);
    }

    method Save(r: Record, outcome: DbOutcome) returns (reply: Reply)
      requires Valid()
      modifies cacheRepository, postgresRepository
      ensures Valid() && (Value(), reply) == Execute(old(Value()), SaveCall(r), outcome)
    {
      cacheRepository.Put(r);
      reply := postgresRepository.Save(r, outcome);
    }
  }

  /** `InMemoryOperationStorage` (server/src/in-memory-operation-storage.cpp). */
  class InMemoryOperationStorage {
    var records: Cache

    constructor ()
      ensures records == map[]
    {
      records := map[];
    }

    method Find(q: Query) returns (reply: Reply)
      ensures reply == FindReply(records, q)
    {
      var key := Make(q);
      if key.Err? {
        return Threw(CalculatorException(key.error));
      }
      if key.value in records {
        return Found(Some(records[key.value]));
      }
      return Found(None);
    }

    method Save(r: Record)
      modifies this
      ensures records == Apply(old(records), SaveCall(r))
      ensures Storage.FindByKey(records, r.key) == Some(r)
      ensures forall k | k != r.key :: Storage.FindByKey(records, k) == Storage.FindByKey(old(records), k)
    {
      records := records[r.key := r];
    }
  }
}
