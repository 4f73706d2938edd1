/** The registry object itself: the fields the source updates in place, the read-only
    lookups, and the loading and reloading methods, each proved to leave the object
    in the state the matching function of Registry describes. */
module FlatBufferComponent {
  import opened Wrappers
  import opened Paths
  import opened Registry
  import opened RegistryProperties

  /** The constructor's `opts`; a missing `opts` is all `None`. */
  datatype Options = Options(
    serverProtos: Option<string>,
    clientProtos: Option<string>,
    serverFBPath: Option<string>,
    clientFBPath: Option<string>)

  /** `opts.x || fallback`: an absent or empty setting falls back. */
  function Setting(configured: Option<string>, fallback: string): (v: string)
    ensures v == fallback || (configured == Some(v) && v != "")
    ensures configured.Some? && configured.value != "" ==> v == configured.value
    ensures v == "" ==> fallback == ""
  {
    if configured.Some? && configured.value != "" then configured.value else fallback
  }

  /** What `getProtos` returns. */
  datatype Protos = Protos(server: Option<Doc>, client: Option<Doc>, version: int)

  class FlatBuffer {
    var version: int
    var serverProtos: Option<Doc>
    var clientProtos: Option<Doc>
    var serverFBCheck: AliasTable
    var clientFBCheck: AliasTable
    var serverFlatBuffer: SchemaStore
    var clientFlatBuffer: SchemaStore
    var watchers: map<string, Watcher>
    var closed: set<nat>
    var nextWatcher: nat

    const serverProtosPath: Path
    const clientProtosPath: Path
    const serverFBPath: Path
    const clientFBPath: Path

    /** The object's fields as a RegistryState value. */
    function Snapshot(): RegistryState
      reads this
    {
      RegistryState(version, serverProtos, clientProtos, serverFBCheck, clientFBCheck,
                    serverFlatBuffer, clientFlatBuffer, watchers, closed, nextWatcher)
    }

    ghost predicate Valid()
      reads this
    {
      WatchersValid(Snapshot())
    }

    constructor (opts: Options)
      ensures Valid() && Snapshot() == Initial
      ensures serverProtosPath == Setting(opts.serverProtos, "/config/serverProtos.json")
      ensures clientProtosPath == Setting(opts.clientProtos, "/config/clientProtos.json")
      ensures serverFBPath == Setting(opts.serverFBPath, "/config/serverBFBS")
      ensures clientFBPath == Setting(opts.clientFBPath, "/config/clientBFBS")
    {
      version := 0;
      watchers := map[];
      serverFlatBuffer := map[];
      clientFlatBuffer := map[];
      serverFBCheck := map[];
      clientFBCheck := map[];
      serverProtos := None;
      clientProtos := None;
      closed := {};
      nextWatcher := 0;
      serverProtosPath := Setting(opts.serverProtos, "/config/serverProtos.json");
      clientProtosPath := Setting(opts.clientProtos, "/config/clientProtos.json");
      serverFBPath := Setting(opts.serverFBPath, "/config/serverBFBS");
      clientFBPath := Setting(opts.clientFBPath, "/config/clientBFBS");
      new;
      InitialWatchersValid();
    }

    /** `start(cb)` with the application's base directory as `base`; `ok` is false
        when an exception escaped, in which case the callback is never scheduled. */
    method Start(base: Path, fs: FileSystem, c: Codecs) returns (ok: bool)
      requires Valid()
      modifies this
      ensures Valid()
      ensures Outcome(Snapshot(), ok) ==
              StartStep(old(Snapshot()), base, Config(serverProtosPath, clientProtosPath, serverFBPath, clientFBPath), fs, c)
    {
      ghost var before := Snapshot();
      ok := SetProtos(Server, Join(base, serverProtosPath), fs, c);
      if ok {
        ok := SetProtos(Server, Join(base, clientProtosPath), fs, c);
        if ok {
          ok := SetProtos(ServerFB, Join(base, serverFBPath), fs, c);
          if ok {
            ok := SetProtos(ClientFB, Join(base, clientFBPath), fs, c);
          }
        }
      }
      StartKeepsWatchersValid(before, base, Config(serverProtosPath, clientProtosPath, serverFBPath, clientFBPath), fs, c);
    }

    /** `encode(route, message)`: the compiled schema whose `generate(message)` is
        returned, or `None` for `null`. */
    function Encode(route: string): (h: Option<SchemaId>)
      reads this
      ensures h.None? <==> Resolve(serverFBCheck, route) !in serverFlatBuffer
      ensures h.Some? ==> h.value == serverFlatBuffer[Resolve(serverFBCheck, route)]
    {
      Dispatch(serverFBCheck, serverFlatBuffer, route)
    }

    /** `decode(route, message)`: the compiled schema whose `parse(message)` is
        returned, or `None` for `null`. */
    function Decode(route: string): (h: Option<SchemaId>)
      reads this
      ensures h.None? <==> Resolve(clientFBCheck, route) !in clientFlatBuffer
      ensures h.Some? ==> h.value == clientFlatBuffer[Resolve(clientFBCheck, route)]
    {
      Dispatch(clientFBCheck, clientFlatBuffer, route)
    }

    function GetProtos(): (p: Protos)
      reads this
      ensures p.server == serverProtos && p.client == clientProtos && p.version == GetVersion()
    {
      Protos(serverProtos, clientProtos, version)
    }

    function GetVersion(): (v: int)
      reads this
      ensures v == Snapshot().version
    {
      version
    }

    /** `setProtos(type, filePath)`; `ok` is false when an exception escaped. */
    method SetProtos(t: Category, p: Path, fs: FileSystem, c: Codecs) returns (ok: bool)
      modifies this
      ensures Outcome(Snapshot(), ok) == SetProtosStep(old(Snapshot()), t, p, fs, c)
      decreases if p in fs && fs[p].Dir? then 2 else 0
    {
      if p !in fs {
        return true;
      }
      match fs[p]
      case File(_, _) =>
        ok := LoadFile(t, p, fs, c);
      case Dir(entries) =>
        ok := LoadEntries(t, p, entries, fs, c);
      case Other =>
        ok := true;
    }

    /** The `forEach` over a directory's entries in `setProtos`: each entry is
        `statSync`ed and, when it is a regular file, loaded through `setProtos`; the
        first exception ends the loop. */
    method LoadEntries(t: Category, dir: Path, entries: seq<string>, fs: FileSystem, c: Codecs) returns (ok: bool)
      modifies this
      ensures Outcome(Snapshot(), ok) == LoadEntriesStep(old(Snapshot()), t, dir, entries, fs, c)
      decreases 1
    {
      ghost var start := Snapshot();
      var i := 0;
      while i < |entries|
        invariant 0 <= i <= |entries|
        invariant LoadEntriesStep(Snapshot(), t, dir, entries[i..], fs, c) == LoadEntriesStep(start, t, dir, entries, fs, c)
      {
        var child := Join(dir, entries[i]);
        LoadEntriesFrom(Snapshot(), t, dir, entries, i, fs, c);
        if child !in fs {
          return false;
        }
        if fs[child].File? {
          var loaded := SetProtos(t, child, fs, c);
          if !loaded {
            return false;
          }
        }
        i := i + 1;
      }
      ok := true;
    }

    /** The regular-file branch of `setProtos`. */
    method LoadFile(t: Category, p: Path, fs: FileSystem, c: Codecs) returns (ok: bool)
      requires p in fs && fs[p].File?
      modifies this
      ensures Outcome(Snapshot(), ok) == LoadFileStep(old(Snapshot()), t, p, fs, c)
    {
      ok := LoadContent(t, p, fs, c);
      if ok {
        var time := fs[p].mtime;
        if version < time {
          version := time;
        }
        Watch(t, p);
      }
    }

    /** The `fs.watch` part of the file branch of `setProtos`: the watcher stored
        under the file's base name is closed and replaced by a new one. */
    method Watch(t: Category, p: Path)
      modifies this
      ensures Snapshot() == WatchStep(old(Snapshot()), t, p)
    {
      var baseName := Basename(p);
      var watcher := Watcher(nextWatcher, t, p);
      nextWatcher := nextWatcher + 1;
      if baseName in watchers {
        closed := closed + {watchers[baseName].id};
      }
      watchers := watchers[baseName := watcher];
    }

    /** Loading a file's content into the table its category names (the first part
        of both the file branch of `setProtos` and the body of `onUpdate`). */
    method LoadContent(t: Category, p: Path, fs: FileSystem, c: Codecs) returns (ok: bool)
      modifies this
      ensures Outcome(Snapshot(), ok) == LoadContentStep(old(Snapshot()), t, p, fs, c)
    {
      match t
      case Server =>
        var data := ReadFile(fs, p);
        if data.None? {
          return false;
        }
        var doc := c.parseJson(data.value);
        if doc.None? {
          return false;
        }
        serverProtos := doc;
        ok := true;
      case Client =>
        var data := ReadFile(fs, p);
        if data.None? {
          return false;
        }
        var doc := c.parseJson(data.value);
        if doc.None? {
          return false;
        }
        clientProtos := doc;
        ok := true;
      case _ =>
        ok := FlatBufferData(t, p, fs, c);
    }

    /** `onUpdate(type, filePath, event)`. No exception escapes: the final
        `fs.statSync(path)` is handed the `path` module and throws, so the version
        is never assigned and the content already stored stays. */
    method OnUpdate(t: Category, p: Path, event: string, fs: FileSystem, c: Codecs)
      requires Valid()
      modifies this
      ensures Valid()
      ensures Snapshot() == OnUpdateStep(old(Snapshot()), t, p, event, fs, c)
    {
      ghost var before := Snapshot();
      if event == "change" {
        var loaded := LoadContent(t, p, fs, c);
      }
      OnUpdateKeepsWatchersValid(before, t, p, event, fs, c);
    }

    /** `setFlatBufferData(type, filePath)`; `ok` is false when an exception escaped. */
    method FlatBufferData(t: Category, p: Path, fs: FileSystem, c: Codecs) returns (ok: bool)
      modifies this
      ensures Outcome(Snapshot(), ok) == FlatBufferDataStep(old(Snapshot()), t, p, fs, c)
    {
      var extName := Extname(p);
      var baseName := Stem(p);
      var data := ReadFile(fs, p);
      if data.None? {
        return false;
      }
      if extName == ".json" {
        var table := c.parseAliases(data.value);
        if table.None? {
          return false;
        }
        if t == ServerFB {
          serverFBCheck := table.value;
        } else if t == ClientFB {
          clientFBCheck := table.value;
        }
      } else {
        var flatBuild := c.compile(data.value);
        if flatBuild.None? {
          return false;
        }
        if t == ServerFB {
          serverFlatBuffer := serverFlatBuffer[baseName := flatBuild.value];
        } else if t == ClientFB {
          clientFlatBuffer := clientFlatBuffer[baseName := flatBuild.value];
        }
      }
      ok := true;
    }
  }

}
