/** The file-backed OAuth state provider of `src/oauth/state.ts`: one store of entries, swept of what has
    expired whenever it is loaded. */
module OAuthState {
  import opened Wrappers

  /** The entries that have not expired: an entry still counts in the very second it expires. */
  function Swept<V>(entries: map<string, V>, expiry: V -> int, now: int): map<string, V> {
    map key | key in entries && !(expiry(entries[key]) < now) :: entries[key]
  }

  /** An entry lives through the very second it expires in. */
  lemma SweptMeans<V>(entries: map<string, V>, expiry: V -> int, now: int, key: string)
    ensures key in Swept(entries, expiry, now) <==> key in entries && now <= expiry(entries[key])
    ensures key in Swept(entries, expiry, now) ==> Swept(entries, expiry, now)[key] == entries[key]
  {
  }

  class FileStateProvider<V(==)> {
    const expiry: V -> int
    /** The file of one store. */
    var file: map<string, V>

    constructor (expiry: V -> int)
      ensures this.expiry == expiry && file == map[]
    {
      this.expiry, file := expiry, map[];
    }

    /** `load`: what the file holds, swept entry by entry; the file itself is left alone. */
    method Load(now: int) returns (entries: map<string, V>)
      ensures entries == Swept(file, expiry, now)
    {
      entries := file;
      var keys := file.Keys;
      while keys != {}
        invariant keys <= file.Keys
        invariant forall k :: k in entries <==> k in file && (k in keys || !(expiry(file[k]) < now))
        invariant forall k :: k in entries ==> entries[k] == file[k]
        decreases keys
      {
        var key :| key in keys;
        if expiry(file[key]) < now { entries := entries - {key}; }
        keys := keys - {key};
      }
    }

    method Get(key: string, now: int) returns (value: Option<V>)
      ensures value == if key in Swept(file, expiry, now) then Some(file[key]) else None
    {
      var entries := Load(now);
      return if key in entries then Some(entries[key]) else None;
    }

    method Put(key: string, value: V, now: int)
      modifies this
      ensures file == Swept(old(file), expiry, now)[key := value]
    {
      var entries := Load(now);
      file := entries[key := value];
    }

    method Del(key: string, now: int) returns (had: bool)
      modifies this
      ensures had == (key in Swept(old(file), expiry, now))
      ensures file == if had then Swept(old(file), expiry, now) - {key} else old(file)
    {
      var entries := Load(now);
      had := key in entries;
      if had { file := entries - {key}; }
    }

    /** `consumeOnce`: the value is answered and gone in one step. */
    method ConsumeOnce(key: string, now: int) returns (value: Option<V>)
      modifies this
      ensures value == if key in Swept(old(file), expiry, now) then Some(old(file)[key]) else None
      ensures file == if value.Some? then Swept(old(file), expiry, now) - {key} else old(file)
      ensures key !in Swept(file, expiry, now)
    {
      var entries := Load(now);
      if key !in entries { return None; }
      value := Some(entries[key]);
      file := entries - {key};
    }

    method CleanupExpired(now: int)
      modifies this
      ensures file == Swept(old(file), expiry, now)
    {
      file := Load(now);
    }
  }
}
