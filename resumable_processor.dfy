/**
 * `MapResumableProcessor`: an in-memory table from a download's key to the number of
 * bytes already transferred, used by resumable downloads in tests.
 */
module ResumableProcessor {

  /** Java's `long`. */
  newtype Long = x: int | -0x8000_0000_0000_0000 <= x < 0x8000_0000_0000_0000

  class MapResumableProcessor {
    /** The `map` field: key to transferred bytes. */
    var table: map<string, Long>

    constructor ()
      ensures table == map[]
    {
      table := map[];
    }

    /** `put`: records `transferredBytes` for `key`, replacing any earlier value. */
    method Put(key: string, transferredBytes: Long)
      modifies this
      ensures table == old(table)[key := transferredBytes]
      ensures key in table && table[key] == transferredBytes
      ensures forall k :: k != key ==> (k in table <==> k in old(table))
      ensures forall k :: k != key && k in old(table) ==> table[k] == old(table)[k]
    {
      table := table[key := transferredBytes];
    }

    /** `remove`: forgets `key`; removing an absent key changes nothing. */
    method Remove(key: string)
      modifies this
      ensures table == old(table) - {key}
      ensures key !in table
      ensures forall k :: k != key ==> (k in table <==> k in old(table))
      ensures forall k :: k != key && k in old(table) ==> table[k] == old(table)[k]
      ensures key !in old(table) ==> table == old(table)
    {
      table := table - {key};
    }

    /** `save`: a no-op; the table is left as it is, whatever `m` holds. */
    method Save(m: map<string, Long>)
      ensures unchanged(this)
    {
    }

    /** `load`: the current table, exactly. */
    method Load() returns (m: map<string, Long>)
      ensures m == table
    {
      m := table;
    }
  }

  /** A `put` followed by a `load` yields a table holding the value just put. */
  method PutThenLoad(processor: MapResumableProcessor, key: string, transferredBytes: Long)
    returns (loaded: map<string, Long>)
    modifies processor
    ensures key in loaded && loaded[key] == transferredBytes
    ensures loaded == old(processor.table)[key := transferredBytes]
  {
    processor.Put(key, transferredBytes);
    loaded := processor.Load();
  }
}
