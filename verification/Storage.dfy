// The data directory (storage.cpp) and the key-value store (statemachine.cpp).
module Storage {
  import opened RaftTypes
  import opened Crc
  import opened Codec
  import opened LogFile
  import opened EntryCodec

  /** What a crash leaves of a data directory. */
  datatype Durable = Durable(meta: MetaData, log: Bytes)

  /** metadata.bin is replaced as a whole, logs.bin is appended to, cut, or replaced by renaming. */
  class Disk {
    var meta: MetaData
    var log: Bytes
    const table: ChecksumTable
    ghost var trail: seq<Durable>   // what the directory held after each durable write so far

    ghost predicate Valid()
      reads this, table, table.table
    {
      table.Valid()
    }

    /** initStorage in an empty directory. */
    constructor ()
      ensures Valid() && meta == MetaData(0, 0, 0, 0) && log == [] && fresh(table) && fresh(table.table)
    {
      meta, log, trail := MetaData(0, 0, 0, 0), [], [];
      table := new ChecksumTable();
    }

    method UpdateMetaData(m: MetaData)
      modifies this`meta, this`trail
      ensures meta == m && trail == old(trail) + [Durable(meta, log)]
    {
      meta := m;
      trail := trail + [Durable(meta, log)];
    }

    method GetMetaData() returns (m: MetaData)
      ensures m == meta
    {
      m := meta;
    }

    method WriteLog(e: Entry)
      requires Valid()
      modifies this`log, this`trail, table, table.table
      ensures Valid() && log == old(log) + EntryBytes(e) && trail == old(trail) + [Durable(meta, log)]
    {
      var bytes := SerializeLogEntry(table, e);
      log := log + bytes;
      trail := trail + [Durable(meta, log)];
    }

    method ReadLogs() returns (entries: seq<Entry>, validBytes: nat)
      requires Valid()
      modifies table, table.table
      ensures Valid() && ParsedLog(entries, validBytes) == ParseAll(log)
    {
      if |log| == 0 { return [], 0; }
      entries, validBytes := DeserializeLogEntry(table, log);
    }

    method TruncateLogFile(validBytes: nat)
      requires validBytes <= |log|
      modifies this`log, this`trail
      ensures log == old(log)[..validBytes] && trail == old(trail) + [Durable(meta, log)]
    {
      log := log[..validBytes];
      trail := trail + [Durable(meta, log)];
    }

    /** Each entry is written to a temporary file, which then takes the log's place. */
    method RewriteLog(entries: seq<Entry>)
      requires Valid()
      modifies this`log, this`trail, table, table.table
      ensures Valid() && log == LogBytes(entries) && trail == old(trail) + [Durable(meta, log)]
    {
      var temporary: Bytes := [];
      for i := 0 to |entries|
        invariant Valid() && temporary == LogBytes(entries[..i]) && log == old(log) && trail == old(trail)
                  && meta == old(meta)
      {
        var bytes := SerializeLogEntry(table, entries[i]);
        AppendedBytes(entries[..i], entries[i]);
        assert entries[..i + 1] == entries[..i] + [entries[i]];
        temporary := temporary + bytes;
      }
      assert entries[..|entries|] == entries;
      log := temporary;
      trail := trail + [Durable(meta, log)];
    }
  }

  class KeyValueStore {
    var store: Store

    constructor ()
      ensures store == map[]
    {
      store := map[];
    }

    method ApplyCommand(c: Command)
      modifies this
      ensures store == Apply(old(store), c)
      ensures forall k :: k != c.key ==> (k in store <==> k in old(store)) && (k in store ==> store[k] == old(store)[k])
    {
      if c.operation == OP_PUT {
        store := store[c.key := c.value];
      } else if c.operation == OP_DELETE {
        store := store - {c.key};
      }
    }

    /** The value, or the empty string if there is none. */
    method Get(key: Bytes) returns (value: Bytes)
      ensures value == if key in store then store[key] else []
    {
      value := if key in store then store[key] else [];
    }

    method Has(key: Bytes) returns (present: bool)
      ensures present == (key in store)
    {
      present := key in store;
    }
  }
}
