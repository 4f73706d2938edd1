/** The state of the schema registry as a value, and the effect of each of its
    operations on that value. The class in FlatBufferComponent keeps the same state
    in fields and is proved to follow these functions step for step.

    Outside collaborators are inputs: the file system is a snapshot map from path to
    node, and `JSON.parse`/`require` and the schema compiler are total functions
    that answer `None` where the real call throws. */
module Registry {
  import opened Wrappers
  import opened Paths

  /** The four load categories, the string constants SERVER, CLIENT, SERVERFB and CLIENTFB. */
  datatype Category = Server | Client | ServerFB | ClientFB

  /** A parsed plain-schema document, kept opaque. */
  datatype Doc = Doc(id: nat)

  /** A compiled schema, whose `generate` and `parse` belong to the schema library. */
  datatype SchemaId = SchemaId(id: nat)

  /** An alias manifest: route name to canonical schema name. */
  type AliasTable = map<string, string>

  /** Compiled schemas by canonical name. */
  type SchemaStore = map<string, SchemaId>

  type Bytes = seq<bv8>

  /** What `fs.statSync` finds at a path: a regular file, a directory with its entry
      names, or anything else (socket, device, ...). */
  datatype Node = File(mtime: int, data: Bytes) | Dir(entries: seq<string>) | Other

  type FileSystem = map<Path, Node>

  /** The parsers and the compiler the registry calls; `None` stands for a throw. */
  datatype Codecs = Codecs(
    parseJson: Bytes -> Option<Doc>,
    parseAliases: Bytes -> Option<AliasTable>,
    compile: Bytes -> Option<SchemaId>)

  /** An `fs.watch` subscription together with the arguments bound into its
      `onUpdate` callback. Each call of `fs.watch` yields a new id. */
  datatype Watcher = Watcher(id: nat, category: Category, path: Path)

  /** Every field of the registry object that its operations read or write.
      `closed` holds the ids of the watchers on which `close()` has been called;
      `nextWatcher` is the id the next `fs.watch` will return. */
  datatype RegistryState = RegistryState(
    version: int,
    serverProtos: Option<Doc>,
    clientProtos: Option<Doc>,
    serverFBCheck: AliasTable,
    clientFBCheck: AliasTable,
    serverFlatBuffer: SchemaStore,
    clientFlatBuffer: SchemaStore,
    watchers: map<string, Watcher>,
    closed: set<nat>,
    nextWatcher: nat)

  /** The state an operation leaves behind, and whether it returned normally
      (`ok`) or an exception escaped from it (the state is then as it was at the throw). */
  datatype Outcome = Outcome(state: RegistryState, ok: bool)

  /** The configured roots, relative to the application's base directory. */
  datatype Config = Config(serverProtosPath: Path, clientProtosPath: Path, serverFBPath: Path, clientFBPath: Path)

  /** The state the constructor establishes. */
  const Initial := RegistryState(0, None, None, map[], map[], map[], map[], map[], {}, 0)

  /** The watcher bookkeeping of `s` and `s'` agrees. */
  predicate WatchersUnchanged(s: RegistryState, s': RegistryState)
  {
    s'.watchers == s.watchers && s'.closed == s.closed && s'.nextWatcher == s.nextWatcher
  }

  /** `fs.readFileSync(p)`, which throws unless `p` is a regular file. */
  function ReadFile(fs: FileSystem, p: Path): (r: Option<Bytes>)
    ensures r.Some? <==> p in fs && fs[p].File?
    ensures r.Some? ==> r.value == fs[p].data
  {
    if p in fs && fs[p].File? then Some(fs[p].data) else None
  }

  // ---------------------------------------------------------------------------
  // Route resolution (encode / decode)
  // ---------------------------------------------------------------------------

  /** The key a route is looked up under: its alias when the alias table maps it to
      a truthy (non-empty) name, the route itself otherwise. One hop at most. */
  function Resolve(aliases: AliasTable, route: string): (key: string)
    ensures route in aliases && aliases[route] != "" ==> key == aliases[route]
    ensures route !in aliases || aliases[route] == "" ==> key == route
  {
    if route in aliases && aliases[route] != "" then aliases[route] else route
  }

  /** The compiled schema whose `generate`/`parse` a route is dispatched to, or
      `None` for the source's `null` result. */
  function Dispatch(aliases: AliasTable, store: SchemaStore, route: string): (h: Option<SchemaId>)
    ensures h.None? <==> Resolve(aliases, route) !in store
    ensures h.Some? ==> h.value == store[Resolve(aliases, route)] && h.value in store.Values
  {
    var key := Resolve(aliases, route);
    if key in store then Some(store[key]) else None
  }

  // ---------------------------------------------------------------------------
  // Loading one file
  // ---------------------------------------------------------------------------

  /** `setFlatBufferData`: a `.json` file is an alias manifest that replaces its
      side's alias table; any other file is compiled and stored under its stem. */
  function FlatBufferDataStep(s: RegistryState, t: Category, p: Path, fs: FileSystem, c: Codecs): (o: Outcome)
    // an unreadable file, a malformed manifest or a rejected schema changes nothing
    ensures !o.ok ==> o.state == s
    ensures o.ok <==> (ReadFile(fs, p).Some? &&
                       if Extname(p) == ".json" then c.parseAliases(ReadFile(fs, p).value).Some?
                       else c.compile(ReadFile(fs, p).value).Some?)
    // only the alias tables and the schema stores can change
    ensures o.state.(serverFBCheck := s.serverFBCheck, clientFBCheck := s.clientFBCheck,
                     serverFlatBuffer := s.serverFlatBuffer, clientFlatBuffer := s.clientFlatBuffer) == s
    // a manifest replaces one alias table wholesale and touches no store
    ensures Extname(p) == ".json" ==>
      o.state.serverFlatBuffer == s.serverFlatBuffer && o.state.clientFlatBuffer == s.clientFlatBuffer
    ensures o.ok && Extname(p) == ".json" && t == ServerFB ==>
      o.state.serverFBCheck == c.parseAliases(ReadFile(fs, p).value).value && o.state.clientFBCheck == s.clientFBCheck
    ensures o.ok && Extname(p) == ".json" && t == ClientFB ==>
      o.state.clientFBCheck == c.parseAliases(ReadFile(fs, p).value).value && o.state.serverFBCheck == s.serverFBCheck
    // a schema file overwrites the one slot named by its stem, on its own side
    ensures Extname(p) != ".json" ==>
      o.state.serverFBCheck == s.serverFBCheck && o.state.clientFBCheck == s.clientFBCheck
    ensures o.state.serverFlatBuffer - {Stem(p)} == s.serverFlatBuffer - {Stem(p)}
    ensures o.state.clientFlatBuffer - {Stem(p)} == s.clientFlatBuffer - {Stem(p)}
    ensures o.ok && Extname(p) != ".json" && t == ServerFB ==>
      o.state.serverFlatBuffer == s.serverFlatBuffer[Stem(p) := c.compile(ReadFile(fs, p).value).value] &&
      o.state.clientFlatBuffer == s.clientFlatBuffer
    ensures o.ok && Extname(p) != ".json" && t == ClientFB ==>
      o.state.clientFlatBuffer == s.clientFlatBuffer[Stem(p) := c.compile(ReadFile(fs, p).value).value] &&
      o.state.serverFlatBuffer == s.serverFlatBuffer
    // a category without a table of its own only runs the parser or the compiler
    ensures t == Server || t == Client ==> o.state == s
  {
    var ext := Extname(p);
    var base := Stem(p);
    match ReadFile(fs, p)
    case None => Outcome(s, false)
    case Some(data) =>
      if ext == ".json" then
        match c.parseAliases(data)
        case None => Outcome(s, false)
        case Some(table) =>
          if t == ServerFB then Outcome(s.(serverFBCheck := table), true)
          else if t == ClientFB then Outcome(s.(clientFBCheck := table), true)
          else Outcome(s, true)
      else
        match c.compile(data)
        case None => Outcome(s, false)
        case Some(schema) =>
          if t == ServerFB then Outcome(s.(serverFlatBuffer := s.serverFlatBuffer[base := schema]), true)
          else if t == ClientFB then Outcome(s.(clientFlatBuffer := s.clientFlatBuffer[base := schema]), true)
          else Outcome(s, true)
  }

  /** The content half of loading a file, shared by `setProtos` (through `require`)
      and `onUpdate` (through `readFileSync` and `JSON.parse`): a plain-schema file
      replaces its side's document, anything else goes to `setFlatBufferData`. */
  function LoadContentStep(s: RegistryState, t: Category, p: Path, fs: FileSystem, c: Codecs): (o: Outcome)
    ensures !o.ok ==> o.state == s
    ensures o.state.version == s.version && WatchersUnchanged(s, o.state)
    ensures t != Server ==> o.state.serverProtos == s.serverProtos
    ensures t != Client ==> o.state.clientProtos == s.clientProtos
    ensures t == Server || t == Client ==>
      (o.ok <==> ReadFile(fs, p).Some? && c.parseJson(ReadFile(fs, p).value).Some?)
    ensures o.ok && t == Server ==> o.state.serverProtos == c.parseJson(ReadFile(fs, p).value)
    ensures o.ok && t == Client ==> o.state.clientProtos == c.parseJson(ReadFile(fs, p).value)
    ensures t == Server || t == Client ==>
      o.state.(serverProtos := s.serverProtos, clientProtos := s.clientProtos) == s
    // the binary categories are handed to setFlatBufferData as they are
    ensures t == ServerFB || t == ClientFB ==> o == FlatBufferDataStep(s, t, p, fs, c)
  {
    match t
    case Server =>
      if ReadFile(fs, p).Some? && c.parseJson(ReadFile(fs, p).value).Some?
      then Outcome(s.(serverProtos := c.parseJson(ReadFile(fs, p).value)), true)
      else Outcome(s, false)
    case Client =>
      if ReadFile(fs, p).Some? && c.parseJson(ReadFile(fs, p).value).Some?
      then Outcome(s.(clientProtos := c.parseJson(ReadFile(fs, p).value)), true)
      else Outcome(s, false)
    case _ => FlatBufferDataStep(s, t, p, fs, c)
  }

  /** Installing the watcher for `p`: a new watcher goes under the base name of `p`,
      and the watcher it displaces, if any, is closed. */
  function WatchStep(s: RegistryState, t: Category, p: Path): (s': RegistryState)
    ensures s'.watchers.Keys == s.watchers.Keys + {Basename(p)}
    ensures s'.watchers[Basename(p)] == Watcher(s.nextWatcher, t, p)
    ensures forall k | k in s.watchers && k != Basename(p) :: s'.watchers[k] == s.watchers[k]
    ensures s'.closed == s.closed + (if Basename(p) in s.watchers then {s.watchers[Basename(p)].id} else {})
    ensures s'.nextWatcher == s.nextWatcher + 1
    ensures s'.(watchers := s.watchers, closed := s.closed, nextWatcher := s.nextWatcher) == s
  {
    var baseName := Basename(p);
    var watcher := Watcher(s.nextWatcher, t, p);
    var closed := if baseName in s.watchers then s.closed + {s.watchers[baseName].id} else s.closed;
    s.(watchers := s.watchers[baseName := watcher], closed := closed, nextWatcher := s.nextWatcher + 1)
  }

  /** The branch of `setProtos` for a regular file: load its content, raise the
      version to the file's modification time, then watch it. */
  function LoadFileStep(s: RegistryState, t: Category, p: Path, fs: FileSystem, c: Codecs): (o: Outcome)
    requires p in fs && fs[p].File?
    ensures !o.ok ==> o.state == s
    ensures o.ok == LoadContentStep(s, t, p, fs, c).ok
    ensures o.state.version >= s.version
    ensures o.ok ==> o.state.version >= fs[p].mtime && (o.state.version == s.version || o.state.version == fs[p].mtime)
    ensures o.ok ==> o.state.watchers == s.watchers[Basename(p) := Watcher(s.nextWatcher, t, p)]
    ensures o.ok ==> o.state.closed == s.closed + (if Basename(p) in s.watchers then {s.watchers[Basename(p)].id} else {})
    ensures o.ok ==> o.state.nextWatcher == s.nextWatcher + 1
    // apart from the version and the watcher bookkeeping, a load stores what the content step stores
    ensures o.ok ==> o.state.(version := s.version, watchers := s.watchers, closed := s.closed, nextWatcher := s.nextWatcher)
                     == LoadContentStep(s, t, p, fs, c).state
    ensures t != Server ==> o.state.serverProtos == s.serverProtos
    ensures t != Client ==> o.state.clientProtos == s.clientProtos
  {
    var content := LoadContentStep(s, t, p, fs, c);
    if !content.ok then content
    else
      var time := fs[p].mtime;
      var bumped := content.state.(version := if content.state.version < time then time else content.state.version);
      Outcome(WatchStep(bumped, t, p), true)
  }

  // ---------------------------------------------------------------------------
  // setProtos and start
  // ---------------------------------------------------------------------------

  /** One iteration of the directory loop: `statSync` the joined child path (it
      throws if the entry has gone) and load it only if it is a regular file. */
  function LoadEntryStep(s: RegistryState, t: Category, dir: Path, name: string, fs: FileSystem, c: Codecs): (o: Outcome)
    ensures Join(dir, name) !in fs ==> o == Outcome(s, false)
    ensures Join(dir, name) in fs && fs[Join(dir, name)].File? ==> o == LoadFileStep(s, t, Join(dir, name), fs, c)
    ensures Join(dir, name) in fs && !fs[Join(dir, name)].File? ==> o == Outcome(s, true)
    ensures o.state.version >= s.version
    ensures !o.ok ==> o.state == s
    ensures t != Server ==> o.state.serverProtos == s.serverProtos
    ensures t != Client ==> o.state.clientProtos == s.clientProtos
  {
    var child := Join(dir, name);
    if child !in fs then Outcome(s, false)
    else if fs[child].File? then LoadFileStep(s, t, child, fs, c)
    else Outcome(s, true)
  }

  /** The directory loop, in entry order; an exception from one entry ends the loop
      and leaves `setProtos`. */
  function LoadEntriesStep(s: RegistryState, t: Category, dir: Path, entries: seq<string>, fs: FileSystem, c: Codecs): (o: Outcome)
    ensures o.state.version >= s.version
    ensures t != Server ==> o.state.serverProtos == s.serverProtos
    ensures t != Client ==> o.state.clientProtos == s.clientProtos
    decreases |entries|
  {
    if entries == [] then Outcome(s, true)
    else
      var first := LoadEntryStep(s, t, dir, entries[0], fs, c);
      if !first.ok then first
      else LoadEntriesStep(first.state, t, dir, entries[1..], fs, c)
  }

  /** `setProtos(type, filePath)`: nothing for a missing path, one file for a regular
      file, the direct child files (one level) for a directory. */
  function SetProtosStep(s: RegistryState, t: Category, p: Path, fs: FileSystem, c: Codecs): (o: Outcome)
    ensures p !in fs ==> o == Outcome(s, true)
    ensures o.state.version >= s.version
    ensures t != Server ==> o.state.serverProtos == s.serverProtos
    ensures t != Client ==> o.state.clientProtos == s.clientProtos
  {
    if p !in fs then Outcome(s, true)
    else match fs[p]
      case File(_, _) => LoadFileStep(s, t, p, fs, c)
      case Dir(entries) => LoadEntriesStep(s, t, p, entries, fs, c)
      case Other => Outcome(s, true)
  }

  /** `start`: the four roots in order, the client plain-schema root loaded as
      SERVER as the source does; an exception ends `start` before its callback. */
  function StartStep(s: RegistryState, base: Path, cfg: Config, fs: FileSystem, c: Codecs): (o: Outcome)
    ensures o.state.version >= s.version
    ensures o.state.clientProtos == s.clientProtos
  {
    var first := SetProtosStep(s, Server, Join(base, cfg.serverProtosPath), fs, c);
    if !first.ok then first
    else
      var second := SetProtosStep(first.state, Server, Join(base, cfg.clientProtosPath), fs, c);
      if !second.ok then second
      else
        var third := SetProtosStep(second.state, ServerFB, Join(base, cfg.serverFBPath), fs, c);
        if !third.ok then third
        else SetProtosStep(third.state, ClientFB, Join(base, cfg.clientFBPath), fs, c)
  }

  // ---------------------------------------------------------------------------
  // onUpdate
  // ---------------------------------------------------------------------------

  /** The watcher callback. Only 'change' events reload, and every failure is
      caught. The content step runs first; then `fs.statSync(path)` is handed the
      `path` module instead of the file path, and a non-path argument makes it throw.
      The catch keeps whatever the content step stored, and the version is never
      assigned. */
  function OnUpdateStep(s: RegistryState, t: Category, p: Path, event: string, fs: FileSystem, c: Codecs): (s': RegistryState)
    ensures event != "change" ==> s' == s
    ensures !LoadContentStep(s, t, p, fs, c).ok ==> s' == s
    ensures WatchersUnchanged(s, s') && s'.version == s.version
    ensures event == "change" ==> s' == LoadContentStep(s, t, p, fs, c).state
  {
    if event != "change" then s
    else
      // the state at the throw from `statSync`, or at the content step's own throw
      LoadContentStep(s, t, p, fs, c).state
  }

}
