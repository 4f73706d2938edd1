# FlatBuffer schema registry, modelled in Dafny

This project models the `FlatBuffer` component of pomelo-flatbuffer. The component is a
hot-reloadable registry of message schemas for a Pomelo server. At start-up it loads:

- two plain JSON schema tables (`serverProtos`, `clientProtos`);
- two sets of compiled binary schemas, one per direction;
- two alias manifests that map route names to schema names.

It watches every file it loads and reloads a file when the file changes. It keeps a version
stamp taken from the files' modification times. `encode`/`decode` resolve a route, through at
most one alias, to the compiled schema that serialises or parses the message.

The project has five modules.

- `Wrappers`: the `Option` type.
- `Paths`: the `basename`, `extname` (with the stem derived from it) and `join` of Node's `path` module, on POSIX paths.
- `Registry`: the component's state as a value (`RegistryState`), and one function per operation giving its effect.
  - Operations that can throw return an `Outcome`. `ok == false` means an exception escaped, and the state is then the one at the throw.
  - The file system is a snapshot map from path to `File(mtime, data)`, `Dir(entries)` or `Other`.
  - `require`/`JSON.parse` and the schema compiler form a `Codecs` record of total functions. They answer `None` where the real call throws.
  - Watchers are ids from a counter, and `closed` records the ids on which `close()` was called.
- `RegistryProperties`: lemmas that relate several operations:
  - the watcher table never leaks or duplicates a subscription;
  - the directory scan is one level deep and watches every child file;
  - the version covers every loaded file;
  - what a load makes `encode`/`decode` find;
  - the source's quirks.
- `FlatBufferComponent`: the class `FlatBuffer`, with the source's fields updated in place. Each mutating method is proved to leave the object in exactly the state the matching `Registry` function computes. The directory loop carries its own invariant.

The source shows what the version is for. The comment at flatbuffer.js:112 says it is set to the modification time, and :114-117 raise it to the newest file loaded. The model follows the code wherever the code falls short of that intent or is otherwise surprising:

- A reload never moves the version. At :164 it calls `fs.statSync(path)`, and `path` there is the `path` module from :8, not the file path; `statSync` throws on an argument that is not a path. The `catch` at :167 swallows the throw, so the content just reloaded stays and the version is never assigned. A reload of a file newer than the version therefore leaves the version behind that file's modification time, where a `setProtos` of the same file would raise it (`ReloadLeavesVersionBehind`).
- Directories are scanned one level deep. Subdirectories are skipped, not descended into.
- `setProtos` has no `try`. An unreadable or malformed file at start-up aborts `start`, and in a directory the loop stops at the first failing entry.
- `start` loads the configured client schema file as `SERVER` (flatbuffer.js:35). `clientProtos` is therefore never set at start-up, and the client file's content ends up as `serverProtos` (`StartLoadsClientFileAsServer`).
- Watchers are keyed by base name alone. Files with the same name in different roots displace each other's watchers (`SameBasenameDisplacesWatcher`).

## Model

| member | source | states |
|---|---|---|
| Paths.LastIndexOfIsLast | lib/components/flatbuffer.js:98 | the index found holds the character and no later index does, or it is -1 when the character is absent; the search that `basename` and `extname` rest on |
| Paths.BasenameIsLastSegment | lib/components/flatbuffer.js:98 | `path.basename` yields the longest tail of the path that contains no separator: the whole path, or the part after a separator |
| Paths.ExtnameSplitsBasename | lib/components/flatbuffer.js:176-177 | the extension is empty, or a dot followed by dot-free text that is a proper tail of the base name; the stem followed by the extension is the base name; a file with an extension has a non-empty stem; the extension is empty only when no dot follows the first character of the base name, or the base name is `..` |
| Paths.Basename | lib/components/flatbuffer.js:98 | `path.basename(filePath)`, the watcher key: everything after the last separator; no contract of its own, its properties are those of `BasenameIsLastSegment` |
| Paths.Extname | lib/components/flatbuffer.js:176 | `path.extname(filePath)`: the base name from its last dot on, empty for a name without a dot after its first character and for `..`; no contract of its own, its properties are those of `ExtnameSplitsBasename` |
| Paths.Stem | lib/components/flatbuffer.js:177 | `path.basename(filePath, extName)`, the schema slot name: the base name with the extension removed; no contract of its own, its properties are those of `ExtnameSplitsBasename` |
| Paths.Join | lib/components/flatbuffer.js:34-37 | `path.join(base, root)` and `path.join(filePath, val)` (:132), with a single separator between the parts; no contract of its own, its properties are those of `BasenameOfJoin` |
| Registry.ReadFile | lib/components/flatbuffer.js:178 | `fs.readFileSync` (also :150): it returns the file's bytes exactly when the path is a regular file, and throws (`None`) otherwise |
| Paths.BasenameOfJoin | lib/components/flatbuffer.js:132 | a directory entry joined to its directory has the entry name as its base name |
| Registry.Resolve | lib/components/flatbuffer.js:48-51 | a route maps to its alias exactly when the alias table holds a truthy (non-empty) name for it; otherwise it maps to itself |
| Registry.Dispatch | lib/components/flatbuffer.js:52-57 | the result is `None` (the source's `null`) exactly when nothing is stored under the resolved name; otherwise it is the stored schema |
| Registry.FlatBufferDataStep | lib/components/flatbuffer.js:174-202 | succeeds iff the file is readable and its manifest parses (`.json`) or its schema compiles (otherwise); a failure changes nothing; only alias tables and stores change; a manifest replaces its own side's table wholesale and touches no store; a schema overwrites the slot named by the file's stem on its own side only; every other slot is unchanged; SERVER and CLIENT change nothing |
| Registry.LoadContentStep | lib/components/flatbuffer.js:99-110 | a plain-schema file replaces its own side's document iff it is readable and parses; SERVERFB and CLIENTFB files go to `setFlatBufferData` with the same outcome; a failure changes nothing; the version and watchers never change; the other side's document never changes |
| Registry.WatchStep | lib/components/flatbuffer.js:119-125 | the new watcher is stored under the path's base name; the one it displaces, if any, is closed; entries under other names are untouched; the counter advances by one; no other field changes |
| Registry.LoadFileStep | lib/components/flatbuffer.js:96-126 | a failure changes nothing; success iff the content loads; the version never decreases and, on success, is the larger of the old version and the file's mtime; on success the watcher table, closed set and counter are as `WatchStep` leaves them, and every other field is what the content step stores; the document of any other category is untouched |
| Registry.LoadEntryStep | lib/components/flatbuffer.js:132-134 | an entry that has vanished throws and changes nothing; a regular-file entry is loaded as `LoadFileStep` loads it; any other entry is skipped without error; the version never decreases; other categories' documents are untouched |
| Registry.LoadEntriesStep | lib/components/flatbuffer.js:129-135 | the version never decreases across the scan; other categories' documents are untouched |
| Registry.SetProtosStep | lib/components/flatbuffer.js:88-138 | a path that does not exist is a no-op that changes no field; the version never decreases; other categories' documents are untouched |
| Registry.StartStep | lib/components/flatbuffer.js:32-39 | the version never decreases; `clientProtos` is never changed, because all four loads use SERVER, SERVERFB or CLIENTFB |
| Registry.OnUpdateStep | lib/components/flatbuffer.js:140-172 | events other than 'change' change nothing; a failed read, parse or compile changes nothing; the watcher table is never touched; the version never changes, because the final `statSync` always throws and the throw is caught; after a 'change' the state is what the content step leaves |
| RegistryProperties.AliasedRouteSharesSchema | lib/components/flatbuffer.js:46-72 | a route aliased to an unaliased canonical name dispatches to the same schema as that name |
| RegistryProperties.AliasIsFollowedOnce | lib/components/flatbuffer.js:48-52 | an aliased route is looked up under its alias even when the alias is itself aliased: no chaining |
| RegistryProperties.LoadedSchemaIsEncoded | lib/components/flatbuffer.js:192-195 | after an outbound schema file is loaded, `encode` of its stem (when not aliased) dispatches to the compiled schema |
| RegistryProperties.LoadedManifestRedirectsDecode | lib/components/flatbuffer.js:185-188 | after an inbound manifest is loaded, `decode` sends every route it aliases to the slot of its alias and every other route to its own slot; the store is unchanged |
| RegistryProperties.InitialWatchersValid | lib/components/flatbuffer.js:20 | the constructor's empty watcher table satisfies the watcher invariant |
| RegistryProperties.InsertKeepsIdsOpen | lib/components/flatbuffer.js:120-125 | storing a watcher with the next id and closing the one it displaces leaves every stored watcher open and created, and every closed id created |
| RegistryProperties.InsertKeepsNoDuplicateNoLeak | lib/components/flatbuffer.js:120-125 | storing a watcher with the next id and closing the one it displaces stores no watcher under two names, and leaves every watcher ever created stored or closed |
| RegistryProperties.WatchStepKeepsWatchersValid | lib/components/flatbuffer.js:119-125 | installing a watcher preserves the watcher invariant (no leak, no duplicate, keys are base names) |
| RegistryProperties.LoadFileKeepsWatchersValid | lib/components/flatbuffer.js:96-126 | loading one file preserves the watcher invariant, whether it succeeds or throws |
| RegistryProperties.LoadEntriesKeepsWatchersValid | lib/components/flatbuffer.js:127-136 | a directory scan preserves the watcher invariant, including when it stops at a throw |
| RegistryProperties.SetProtosKeepsWatchersValid | lib/components/flatbuffer.js:88-138 | `setProtos` preserves the watcher invariant for a missing path, a file, a directory or anything else |
| RegistryProperties.SameBasenameDisplacesWatcher | lib/components/flatbuffer.js:98 | loading two files with the same base name, in any categories, closes the first watcher and leaves the second stored |
| RegistryProperties.LoadEntriesFrom | lib/components/flatbuffer.js:130-135 | one turn of the directory loop: an entry that has vanished throws, a regular-file entry goes through `setProtos` and the loop continues only if that returned normally, and any other entry is skipped |
| RegistryProperties.LoadEntryWatchesOnlyItself | lib/components/flatbuffer.js:132-134 | one directory entry changes the watcher table at most under its own name, with a fresh watcher on its own path, and only when that path is a regular file; no key is removed |
| RegistryProperties.LoadEntriesWatchesOnlyDirectChildren | lib/components/flatbuffer.js:127-136 | a directory scan removes no key, and every key it adds or changes is an entry name whose watcher is on that entry's path directly in the directory, a regular file, in the scan's category: nothing deeper is watched |
| RegistryProperties.LoadEntriesWatchesEveryChildFile | lib/components/flatbuffer.js:129-134 | a scan that completes leaves every regular-file entry watched under its own name, on its own path, in the scan's category |
| RegistryProperties.LoadEntriesVersionCoversChildren | lib/components/flatbuffer.js:112-117 | a scan that completes leaves the version at least the mtime of every regular file directly in the directory |
| RegistryProperties.StartKeepsWatchersValid | lib/components/flatbuffer.js:32-39 | `start` preserves the watcher invariant |
| RegistryProperties.StartLoadsClientFileAsServer | lib/components/flatbuffer.js:35 | `start` never sets `clientProtos`; when it completes and the client path is a file, `serverProtos` holds that file's document |
| RegistryProperties.OnUpdateKeepsWatchersValid | lib/components/flatbuffer.js:140-172 | a reload preserves the watcher invariant |
| RegistryProperties.ReloadLeavesVersionBehind | lib/components/flatbuffer.js:140-172 | a successful reload of a file newer than the version stores the file's new document, yet leaves the version below the file's modification time; a `setProtos` of the same file would raise the version to that time |
| FlatBufferComponent.Setting | lib/components/flatbuffer.js:25-29 | a non-empty option is used as given; an absent or empty one gives the default |
| FlatBufferComponent.FlatBuffer.constructor | lib/components/flatbuffer.js:16-30 | the new object is in the initial state (version 0, empty tables, stores and watchers) with the watcher invariant, and each path is its option or its default |
| FlatBufferComponent.FlatBuffer.Start | lib/components/flatbuffer.js:32-39 | the object ends in the state `StartStep` gives, reports whether an exception escaped, and keeps the watcher invariant |
| FlatBufferComponent.FlatBuffer.Encode | lib/components/flatbuffer.js:46-58 | the schema under the outbound-resolved route, or `None` exactly when there is none; reads only |
| FlatBufferComponent.FlatBuffer.Decode | lib/components/flatbuffer.js:60-72 | the schema under the inbound-resolved route, or `None` exactly when there is none; reads only |
| FlatBufferComponent.FlatBuffer.GetProtos | lib/components/flatbuffer.js:74-81 | both documents and the current version |
| FlatBufferComponent.FlatBuffer.GetVersion | lib/components/flatbuffer.js:83-86 | the current version |
| FlatBufferComponent.FlatBuffer.SetProtos | lib/components/flatbuffer.js:88-138 | the object ends in the state `SetProtosStep` gives, and the method reports whether an exception escaped |
| FlatBufferComponent.FlatBuffer.LoadEntries | lib/components/flatbuffer.js:129-135 | the directory loop, which recurses into `setProtos` for each child file and stops at the first exception, leaves the object in the state `LoadEntriesStep` gives |
| FlatBufferComponent.FlatBuffer.LoadFile | lib/components/flatbuffer.js:96-126 | the object ends in the state `LoadFileStep` gives |
| FlatBufferComponent.FlatBuffer.Watch | lib/components/flatbuffer.js:119-125 | the object ends in the state `WatchStep` gives |
| FlatBufferComponent.FlatBuffer.LoadContent | lib/components/flatbuffer.js:99-110 | the object ends in the state `LoadContentStep` gives |
| FlatBufferComponent.FlatBuffer.OnUpdate | lib/components/flatbuffer.js:140-172 | the object ends in the state `OnUpdateStep` gives, no exception escapes, and the watcher invariant is kept |
| FlatBufferComponent.FlatBuffer.FlatBufferData | lib/components/flatbuffer.js:174-202 | the object ends in the state `FlatBufferDataStep` gives |

## Left out

- `stop` (flatbuffer.js:204-216): it iterates the properties of each watcher object rather than the watchers, and then clears a different field (`this.watchers`) from the symbol-keyed table, so there is no coherent effect to model.
- The empty `check`, the `name` set on the prototype, the logger calls and the `process.nextTick` callback of `start`: none of them changes state.
- File-system calls (`existsSync`, `statSync`, `readdirSync`, `readFileSync`, `fs.watch`) are I/O. They read a snapshot map given as a parameter. `fs.watch` always succeeds and yields a fresh id. A watcher that fails to open is not modelled.
- `require(filePath)`, `JSON.parse` and `FlatBufferIndex.compileSchema` are opaque functions given as parameters.
  - The module cache of `require` is not modelled: a repeated `require` of a path answers what the parser answers, not the cached object.
  - `require` executing a non-JSON file is not modelled.
  - `generate`/`parse` of a compiled schema are not modelled. `encode`/`decode` return the schema handle they would call.
- Alias-table values that are not strings, and keys inherited from `Object.prototype` (`"constructor"`, `"toString"`), are outside the model. Tables are plain string maps.
- `Paths.Join`: only the separator between the two parts is normalised. `.`/`..` segments and repeated separators inside either part are kept as given.
- `Paths.Basename` and `Paths.Extname` differ from Node's on a path with a trailing separator: Node gives `basename("/a/b/") == "b"`, the model gives `""`. Such a path names a directory, never the regular file that the base name and extension are taken from, so the difference cannot arise here.
- Watch events arrive asynchronously, concurrently with `encode`/`decode`. The model treats each callback as one atomic step.
- FlatBufferComponent.FlatBuffer.SetProtos: its own contract does not carry the watcher invariant. `SetProtosKeepsWatchersValid` proves that `SetProtosStep` preserves it, and the same goes for `LoadFile`, `LoadContent`, `FlatBufferData` and `Watch` through their own lemmas.
