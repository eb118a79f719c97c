/** The cache of nodes kept in a ConfigMap. */
module NodeCache {
  import opened Common

  /** Instants in nanoseconds since Go's zero time, and durations in nanoseconds. */
  type Time = int
  const ZERO_TIME: Time := 0
  const HOUR: int := 3_600_000_000_000

  datatype CacheEntry = CacheEntry(
    instance: string,
    ipAddress: string,
    lastSeen: Time,
    lastMarked: Time)

  /** A value of the ConfigMap: the JSON of an entry, or text that does not parse as one. */
  datatype Raw = Encoded(entry: CacheEntry) | Malformed(text: string)

  type Contents = map<string, Raw>

  datatype Lookup = Found(entry: CacheEntry) | NotFound | Corrupt

  class Cache {
    /** None is Go's nil map. */
    var data: Option<Contents>
    /** Whether the ConfigMap still has to be created. */
    const create: bool
    var upd: bool

    constructor (data: Option<Contents>, create: bool)
      ensures this.data == data && this.create == create && !upd
    {
      this.data, this.create, upd := data, create, false;
    }

    function Entries(): Contents
      reads this
    {
      if data.Some? then data.value else map[]
    }

    /** Unless flagged as changed, the cache still holds what it was loaded with. */
    ghost predicate FlagsChanges(loaded: Contents)
      reads this
    {
      !Changed() ==> Entries() == loaded
    }

    function Get(node: string): (r: Lookup)
      reads this
      ensures r.NotFound? <==> node !in Entries()
      ensures r.Found? <==> node in Entries() && Entries()[node].Encoded?
      ensures r.Found? ==> Entries()[node] == Encoded(r.entry)
    {
      if data.None? || node !in data.value then NotFound
      else
        match data.value[node]
        case Encoded(entry) => Found(entry)
        case Malformed(_) => Corrupt
    }

    method Set(node: string, entry: CacheEntry)
      modifies this
      ensures Entries() == old(Entries())[node := Encoded(entry)]
      ensures Changed()
    {
      if data.None? {
        data := Some(map[]);
      }
      data := Some(data.value[node := Encoded(entry)]);
      upd := true;
    }

    method Delete(node: string)
      modifies this
      ensures Entries() == old(Entries()) - {node}
      ensures Changed() == (old(Changed()) || old(data).Some?)
    {
      if data.Some? {
        data := Some(data.value - {node});
        upd := true;
      }
    }

    function Keys(): (keys: set<string>)
      reads this
      ensures keys == Entries().Keys
    {
      if data.None? then {} else data.value.Keys
    }

    predicate Changed()
      reads this
    {
      create || upd
    }
  }
}
