/** The state file and the per-box runtimes, changed in place. */
module Host {
  import opened PortForward
  import opened Records

  /** How a replacement of the state file ends (internal/state/store.go): done,
      failed before the rename, or failed after it. */
  datatype SaveResult = Saved | Lost | Torn

  function SaveEffect(result: SaveResult, disk: State, current: State): State
  {
    if result.Lost? then disk else current
  }

  class World {
    const ip: AddressParser
    const hash: seq<string> -> string
    var disk: State
    var runtimes: map<string, Runtime>
    /** Every value the state file has held, oldest first. */
    ghost var log: seq<Entry>

    ghost predicate Valid()
      reads this
    {
      HistoryInv(ip, hash, log, disk)
    }

    constructor (ip: AddressParser, hash: seq<string> -> string)
      ensures Valid() && disk == State(map[], map[]) && runtimes == map[]
      ensures this.ip == ip && this.hash == hash
    {
      this.ip, this.hash := ip, hash;
      disk := State(map[], map[]);
      runtimes := map[];
      log := [Entry(Plain, State(map[], map[]), map[])];
    }

    function RuntimeOf(id: string): Runtime
      reads this
    {
      RuntimeIn(runtimes, id)
    }

    /** An atomic replacement with a failing tail: the temporary file is
        written, renamed over the state file, and the directory synced. The
        history keeps the runtimes as they are. */
    method Save(current: State, result: SaveResult, ghost reason: Reason) returns (ok: bool)
      requires Valid() && Inv(hash, current) && Follows(ip, disk, Entry(reason, current, runtimes))
      modifies this`disk, this`log
      ensures Valid()
      ensures ok <==> result.Saved?
      ensures disk == SaveEffect(result, old(disk), current)
      ensures log == if result.Lost? then old(log) else old(log) + [Entry(reason, current, runtimes)]
    {
      if result.Lost? {
        return false;
      }
      disk := current;
      log := log + [Entry(reason, current, runtimes)];
      return result.Saved?;
    }

    method SetRuntime(id: string, runtime: Runtime)
      modifies this`runtimes
      ensures runtimes == old(runtimes)[id := runtime]
    {
      runtimes := runtimes[id := runtime];
    }
  }
}
