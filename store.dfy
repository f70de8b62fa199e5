/**
 * An in-memory stand-in for the key-value server and for one client
 * connection to it: plain SET, WATCH, GET, a MULTI/EXEC holding one SET,
 * and UNWATCH.
 */
module KeyValueStore {
  import opened Wrappers

  /** The server: the number stored under each key, and how many writes each key has seen. */
  class Server {
    var cells: map<string, int>
    var versions: map<string, nat>

    constructor ()
      ensures cells == map[] && versions == map[]
    {
      cells := map[];
      versions := map[];
    }

    /** The server's reply to GET: nothing for an unset key. */
    function Lookup(key: string): Option<int>
      reads this
    {
      if key in cells then Some(cells[key]) else None
    }

    function VersionOf(key: string): nat
      reads this
    {
      if key in versions then versions[key] else 0
    }

    /** SET from any client: last writer wins, and the key's version moves on. */
    method Set(key: string, value: int)
      modifies this
      ensures Lookup(key) == Some(value)
      ensures cells == old(cells)[key := value]
      ensures VersionOf(key) == old(VersionOf(key)) + 1
      ensures versions == old(versions)[key := VersionOf(key)]
    {
      cells := cells[key := value];
      versions := versions[key := VersionOf(key) + 1];
    }
  }

  /** One connection to the server, with its watch state. */
  class Client {
    const server: Server
    var watching: bool
    var watchedKey: string
    var watchedVersion: nat
    /** How many UNWATCH commands this connection has sent. */
    ghost var unwatchCalls: nat
    /** How many transactions this connection has committed. */
    ghost var commits: nat

    constructor (server: Server)
      ensures this.server == server && !watching
      ensures unwatchCalls == 0 && commits == 0
    {
      this.server := server;
      watching := false;
      watchedKey := "";
      watchedVersion := 0;
      unwatchCalls := 0;
      commits := 0;
    }

    /** WATCH: remember the key's version so that a later EXEC can tell whether anyone wrote it. */
    method Watch(key: string)
      modifies this
      ensures watching && watchedKey == key && watchedVersion == server.VersionOf(key)
      ensures unwatchCalls == old(unwatchCalls) && commits == old(commits)
    {
      watching := true;
      watchedKey := key;
      watchedVersion := server.VersionOf(key);
    }

    /** GET. */
    method Get(key: string) returns (reply: Option<int>)
      ensures reply.Some? <==> key in server.cells
      ensures reply.Some? ==> reply.value == server.cells[key]
    {
      reply := server.Lookup(key);
    }

    /** SET outside a transaction. */
    method Set(key: string, value: int)
      modifies server
      ensures server.cells == old(server.cells)[key := value]
      ensures server.versions == old(server.versions)[key := old(server.VersionOf(key)) + 1]
    {
      server.Set(key, value);
    }

    /**
     * MULTI; SET key value; EXEC. The write lands only if no watched key was
     * written since WATCH; either way EXEC drops the watch.
     */
    method CommitSet(key: string, value: int) returns (committed: bool)
      modifies this, server
      ensures committed <==> !old(watching) || old(server.VersionOf(watchedKey)) == old(watchedVersion)
      ensures committed ==> server.cells == old(server.cells)[key := value]
      ensures committed ==> server.versions == old(server.versions)[key := old(server.VersionOf(key)) + 1]
      ensures !committed ==> server.cells == old(server.cells) && server.versions == old(server.versions)
      ensures !watching
      ensures unwatchCalls == old(unwatchCalls)
      ensures commits == old(commits) + (if committed then 1 else 0)
    {
      committed := !watching || server.VersionOf(watchedKey) == watchedVersion;
      if committed {
        server.Set(key, value);
        commits := commits + 1;
      }
      watching := false;
    }

    /** UNWATCH. */
    method Unwatch()
      modifies this
      ensures !watching
      ensures unwatchCalls == old(unwatchCalls) + 1 && commits == old(commits)
    {
      watching := false;
      unwatchCalls := unwatchCalls + 1;
    }
  }
}
