/** What the registry's operations guarantee across calls: alias resolution, the
    watcher table never leaking or duplicating a subscription, the version stamp,
    the one-level directory scan, and the quirks the source has. */
module RegistryProperties {
  import opened Wrappers
  import opened Paths
  import opened Registry

  // ---------------------------------------------------------------------------
  // Route resolution
  // ---------------------------------------------------------------------------

  /** A route aliased to a canonical name that is not itself aliased reaches the
      same compiled schema as the canonical name. */
  lemma AliasedRouteSharesSchema(aliases: AliasTable, store: SchemaStore, route: string, canonical: string)
    requires route in aliases && aliases[route] == canonical && canonical != ""
    requires canonical !in aliases || aliases[canonical] == ""
    ensures Dispatch(aliases, store, route) == Dispatch(aliases, store, canonical)
  {
  }

  /** Aliases are not chained: an aliased route is looked up under its alias even
      when that alias is itself a key of the table. */
  lemma AliasIsFollowedOnce(aliases: AliasTable, store: SchemaStore, route: string)
    requires route in aliases && aliases[route] != ""
    ensures Dispatch(aliases, store, route) == (if aliases[route] in store then Some(store[aliases[route]]) else None)
  {
  }

  /** A schema file loaded for the outbound side is what `encode` then finds under
      the file's stem, unless that stem is itself aliased. */
  lemma LoadedSchemaIsEncoded(s: RegistryState, p: Path, fs: FileSystem, c: Codecs)
    requires Extname(p) != ".json" && FlatBufferDataStep(s, ServerFB, p, fs, c).ok
    requires Stem(p) !in s.serverFBCheck || s.serverFBCheck[Stem(p)] == ""
    ensures var o := FlatBufferDataStep(s, ServerFB, p, fs, c).state;
      Dispatch(o.serverFBCheck, o.serverFlatBuffer, Stem(p)) == c.compile(ReadFile(fs, p).value)
  {
  }

  /** Once an inbound manifest is loaded, `decode` sends every route it aliases to
      the schema stored under the alias, and every other route to its own slot. */
  lemma LoadedManifestRedirectsDecode(s: RegistryState, p: Path, fs: FileSystem, c: Codecs, route: string)
    requires Extname(p) == ".json" && FlatBufferDataStep(s, ClientFB, p, fs, c).ok
    ensures var o := FlatBufferDataStep(s, ClientFB, p, fs, c).state;
      var table := c.parseAliases(ReadFile(fs, p).value).value;
      && o.clientFlatBuffer == s.clientFlatBuffer
      && Dispatch(o.clientFBCheck, o.clientFlatBuffer, route) ==
         (if route in table && table[route] != "" then Dispatch(map[], s.clientFlatBuffer, table[route])
          else Dispatch(map[], s.clientFlatBuffer, route))
  {
  }

  // ---------------------------------------------------------------------------
  // The watcher table
  // ---------------------------------------------------------------------------

  /** The ids of the watchers currently stored in the table. */
  function LiveIds(watchers: map<string, Watcher>): set<nat>
  {
    set k | k in watchers :: watchers[k].id
  }

  /** Every watcher ever created is either stored under exactly one key or closed,
      never both; every stored watcher sits under the base name of its path. */
  ghost predicate WatchTableValid(watchers: map<string, Watcher>, closed: set<nat>, nextWatcher: nat)
  {
    && (forall k | k in watchers :: Basename(watchers[k].path) == k)
    && (forall k | k in watchers :: watchers[k].id < nextWatcher && watchers[k].id !in closed)
    && (forall k1, k2 | k1 in watchers && k2 in watchers && watchers[k1].id == watchers[k2].id :: k1 == k2)
    && (forall i | i in closed :: i < nextWatcher)
    && (forall i: nat | i < nextWatcher :: i in closed || i in LiveIds(watchers))
  }

  ghost predicate WatchersValid(s: RegistryState)
  {
    WatchTableValid(s.watchers, s.closed, s.nextWatcher)
  }

  lemma InitialWatchersValid()
    ensures WatchersValid(Initial)
  {
  }

  /** The table after storing `w` under `key`, and the closed set after closing the
      watcher it displaces. */
  function Inserted(watchers: map<string, Watcher>, key: string, w: Watcher): map<string, Watcher>
  {
    watchers[key := w]
  }

  function ClosedAfterInsert(watchers: map<string, Watcher>, closed: set<nat>, key: string): set<nat>
  {
    if key in watchers then closed + {watchers[key].id} else closed
  }

  /** Storing a watcher with the next id, and closing the one displaced, keeps every
      stored watcher open and below the counter, and every closed id below it. */
  lemma InsertKeepsIdsOpen(watchers: map<string, Watcher>, closed: set<nat>, next: nat, key: string, w: Watcher)
    requires forall k | k in watchers :: watchers[k].id < next && watchers[k].id !in closed
    requires forall k1, k2 | k1 in watchers && k2 in watchers && watchers[k1].id == watchers[k2].id :: k1 == k2
    requires forall i | i in closed :: i < next
    requires w.id == next
    ensures var watchers', closed' := Inserted(watchers, key, w), ClosedAfterInsert(watchers, closed, key);
      && (forall k | k in watchers' :: watchers'[k].id < next + 1 && watchers'[k].id !in closed')
      && (forall i | i in closed' :: i < next + 1)
  {
    var watchers', closed' := Inserted(watchers, key, w), ClosedAfterInsert(watchers, closed, key);
    forall k | k in watchers'
      ensures watchers'[k].id < next + 1 && watchers'[k].id !in closed'
    {
      if k != key {
        assert watchers'[k] == watchers[k];
        if key in watchers {
          assert watchers[k].id != watchers[key].id;
        }
      }
    }
  }

  /** Storing a watcher with the next id, and closing the one displaced, stores no
      watcher twice and loses none. */
  lemma InsertKeepsNoDuplicateNoLeak(watchers: map<string, Watcher>, closed: set<nat>, next: nat, key: string, w: Watcher)
    requires forall k | k in watchers :: watchers[k].id < next
    requires forall k1, k2 | k1 in watchers && k2 in watchers && watchers[k1].id == watchers[k2].id :: k1 == k2
    requires forall i: nat | i < next :: i in closed || i in LiveIds(watchers)
    requires w.id == next
    ensures var watchers', closed' := Inserted(watchers, key, w), ClosedAfterInsert(watchers, closed, key);
      && (forall k1, k2 | k1 in watchers' && k2 in watchers' && watchers'[k1].id == watchers'[k2].id :: k1 == k2)
      && (forall i: nat | i < next + 1 :: i in closed' || i in LiveIds(watchers'))
  {
    var watchers', closed' := Inserted(watchers, key, w), ClosedAfterInsert(watchers, closed, key);
    forall i: nat | i < next + 1
      ensures i in closed' || i in LiveIds(watchers')
    {
      if i == next {
        assert watchers'[key].id == i;
      } else if i !in closed {
        assert i in LiveIds(watchers);
        var k :| k in watchers && watchers[k].id == i;
        if k != key {
          assert watchers'[k].id == i;
        }
      }
    }
  }

  /** Storing a fresh watcher for `p` under its base name and closing the one it
      displaces keeps the table free of leaks and duplicates. */
  lemma InsertKeepsWatchTableValid(watchers: map<string, Watcher>, closed: set<nat>, next: nat, t: Category, p: Path)
    requires WatchTableValid(watchers, closed, next)
    ensures WatchTableValid(Inserted(watchers, Basename(p), Watcher(next, t, p)),
                            ClosedAfterInsert(watchers, closed, Basename(p)), next + 1)
  {
    var w := Watcher(next, t, p);
    InsertKeepsIdsOpen(watchers, closed, next, Basename(p), w);
    InsertKeepsNoDuplicateNoLeak(watchers, closed, next, Basename(p), w);
  }

  /** Installing a watcher keeps the table free of leaks and duplicates. */
  lemma WatchStepKeepsWatchersValid(s: RegistryState, t: Category, p: Path)
    requires WatchersValid(s)
    ensures WatchersValid(WatchStep(s, t, p))
  {
    var s' := WatchStep(s, t, p);
    assert s'.watchers == Inserted(s.watchers, Basename(p), Watcher(s.nextWatcher, t, p));
    assert s'.closed == ClosedAfterInsert(s.watchers, s.closed, Basename(p));
    InsertKeepsWatchTableValid(s.watchers, s.closed, s.nextWatcher, t, p);
  }

  lemma LoadFileKeepsWatchersValid(s: RegistryState, t: Category, p: Path, fs: FileSystem, c: Codecs)
    requires p in fs && fs[p].File?
    requires WatchersValid(s)
    ensures WatchersValid(LoadFileStep(s, t, p, fs, c).state)
  {
    var o := LoadFileStep(s, t, p, fs, c);
    if o.ok {
      assert o.state.watchers == Inserted(s.watchers, Basename(p), Watcher(s.nextWatcher, t, p));
      assert o.state.closed == ClosedAfterInsert(s.watchers, s.closed, Basename(p));
      InsertKeepsWatchTableValid(s.watchers, s.closed, s.nextWatcher, t, p);
    }
  }

  lemma {:induction false} LoadEntriesKeepsWatchersValid(s: RegistryState, t: Category, dir: Path, entries: seq<string>, fs: FileSystem, c: Codecs)
    requires WatchersValid(s)
    ensures WatchersValid(LoadEntriesStep(s, t, dir, entries, fs, c).state)
    decreases |entries|
  {
    if entries != [] {
      var child := Join(dir, entries[0]);
      if child in fs && fs[child].File? {
        LoadFileKeepsWatchersValid(s, t, child, fs, c);
      }
      var first := LoadEntryStep(s, t, dir, entries[0], fs, c);
      if first.ok {
        LoadEntriesKeepsWatchersValid(first.state, t, dir, entries[1..], fs, c);
      }
    }
  }

  /** One turn of the directory loop, from entry `i` on: the entry is loaded through
      `setProtos` when it is a regular file, and the loop goes on only if that
      returned normally. */
  lemma LoadEntriesFrom(s: RegistryState, t: Category, dir: Path, entries: seq<string>, i: nat, fs: FileSystem, c: Codecs)
    requires i < |entries|
    ensures var child := Join(dir, entries[i]);
      var first := if child !in fs then Outcome(s, false)
                   else if fs[child].File? then SetProtosStep(s, t, child, fs, c)
                   else Outcome(s, true);
      LoadEntriesStep(s, t, dir, entries[i..], fs, c) ==
        (if first.ok then LoadEntriesStep(first.state, t, dir, entries[i + 1..], fs, c) else first)
  {
    assert entries[i..][0] == entries[i] && entries[i..][1..] == entries[i + 1..];
  }

  /** `setProtos` never leaks or duplicates a watcher, whatever it loads and
      wherever it throws. */
  lemma SetProtosKeepsWatchersValid(s: RegistryState, t: Category, p: Path, fs: FileSystem, c: Codecs)
    requires WatchersValid(s)
    ensures WatchersValid(SetProtosStep(s, t, p, fs, c).state)
  {
    if p in fs {
      match fs[p]
      case File(_, _) =>
        assert SetProtosStep(s, t, p, fs, c) == LoadFileStep(s, t, p, fs, c);
        LoadFileKeepsWatchersValid(s, t, p, fs, c);
      case Dir(entries) =>
        assert SetProtosStep(s, t, p, fs, c) == LoadEntriesStep(s, t, p, entries, fs, c);
        LoadEntriesKeepsWatchersValid(s, t, p, entries, fs, c);
      case Other =>
        assert SetProtosStep(s, t, p, fs, c).state == s;
    }
  }

  /** Loading two different files with the same base name, in any categories,
      leaves only the second watched: the key is not scoped by category or
      directory, so the first file's watcher is closed. */
  lemma SameBasenameDisplacesWatcher(s: RegistryState, t1: Category, p1: Path, t2: Category, p2: Path, fs: FileSystem, c: Codecs)
    requires p1 in fs && fs[p1].File? && p2 in fs && fs[p2].File?
    requires Basename(p1) == Basename(p2)
    requires LoadFileStep(s, t1, p1, fs, c).ok
    requires LoadFileStep(LoadFileStep(s, t1, p1, fs, c).state, t2, p2, fs, c).ok
    ensures var s2 := LoadFileStep(LoadFileStep(s, t1, p1, fs, c).state, t2, p2, fs, c).state;
      s.nextWatcher in s2.closed && s2.watchers[Basename(p1)] == Watcher(s.nextWatcher + 1, t2, p2)
  {
  }

  // ---------------------------------------------------------------------------
  // Directories: one level, every child file
  // ---------------------------------------------------------------------------

  /** Directory entry names as `readdirSync` returns them: no separators. */
  ghost predicate PlainNames(entries: seq<string>)
  {
    forall e | e in entries :: '/' !in e
  }

  /** One directory entry touches the watcher table at most under its own name,
      with a fresh watcher on its own path, and only when that path is a regular file. */
  lemma LoadEntryWatchesOnlyItself(s: RegistryState, t: Category, dir: Path, name: string, fs: FileSystem, c: Codecs)
    requires '/' !in name
    ensures var o := LoadEntryStep(s, t, dir, name, fs, c);
      && s.watchers.Keys <= o.state.watchers.Keys
      && forall k | k in o.state.watchers ::
           (k in s.watchers && o.state.watchers[k] == s.watchers[k])
           || (k == name && o.state.watchers[k] == Watcher(s.nextWatcher, t, Join(dir, name))
               && Join(dir, name) in fs && fs[Join(dir, name)].File?)
  {
    var child := Join(dir, name);
    if child in fs && fs[child].File? {
      BasenameOfJoin(dir, name);
      var o := LoadFileStep(s, t, child, fs, c);
      if o.ok {
        assert o.state.watchers == s.watchers[name := Watcher(s.nextWatcher, t, child)];
      }
    }
  }

  /** The directory loop touches the watcher table only under the names of its
      entries, each time with a watcher on that entry's own path in the directory,
      which is a regular file: nothing below a subdirectory is watched. No key is
      ever removed. */
  lemma {:induction false} LoadEntriesWatchesOnlyDirectChildren(s: RegistryState, t: Category, dir: Path, entries: seq<string>, fs: FileSystem, c: Codecs)
    requires PlainNames(entries)
    ensures var o := LoadEntriesStep(s, t, dir, entries, fs, c);
      && s.watchers.Keys <= o.state.watchers.Keys
      && forall k | k in o.state.watchers ::
           (k in s.watchers && o.state.watchers[k] == s.watchers[k])
           || (k in entries && o.state.watchers[k].path == Join(dir, k) && o.state.watchers[k].category == t
               && Join(dir, k) in fs && fs[Join(dir, k)].File?)
    decreases |entries|
  {
    if entries != [] {
      var name := entries[0];
      var first := LoadEntryStep(s, t, dir, name, fs, c);
      if first.ok {
        LoadEntryWatchesOnlyItself(s, t, dir, name, fs, c);
        assert PlainNames(entries[1..]) by {
          forall e | e in entries[1..] ensures '/' !in e { assert e in entries; }
        }
        LoadEntriesWatchesOnlyDirectChildren(first.state, t, dir, entries[1..], fs, c);
        var o := LoadEntriesStep(first.state, t, dir, entries[1..], fs, c);
        assert LoadEntriesStep(s, t, dir, entries, fs, c) == o;
        forall k | k in o.state.watchers
          ensures (k in s.watchers && o.state.watchers[k] == s.watchers[k])
                  || (k in entries && o.state.watchers[k].path == Join(dir, k) && o.state.watchers[k].category == t
                      && Join(dir, k) in fs && fs[Join(dir, k)].File?)
        {
          if k in first.state.watchers && o.state.watchers[k] == first.state.watchers[k] {
            if k == name {
              assert k in entries;
            }
          } else {
            assert k in entries[1..];
            assert k in entries;
          }
        }
      }
    }
  }

  /** When the directory loop finishes normally, every entry that is a regular file
      is watched, under its own name, by a watcher on its path. */
  lemma {:induction false} LoadEntriesWatchesEveryChildFile(s: RegistryState, t: Category, dir: Path, entries: seq<string>, fs: FileSystem, c: Codecs)
    requires PlainNames(entries)
    ensures var o := LoadEntriesStep(s, t, dir, entries, fs, c);
      o.ok ==> forall e | e in entries && Join(dir, e) in fs && fs[Join(dir, e)].File? ::
        e in o.state.watchers && o.state.watchers[e].path == Join(dir, e) && o.state.watchers[e].category == t
    decreases |entries|
  {
    if entries != [] {
      var name := entries[0];
      var child := Join(dir, name);
      var first := LoadEntryStep(s, t, dir, name, fs, c);
      var o := LoadEntriesStep(s, t, dir, entries, fs, c);
      if first.ok {
        assert PlainNames(entries[1..]) by {
          forall e | e in entries[1..] ensures '/' !in e { assert e in entries; }
        }
        LoadEntriesWatchesEveryChildFile(first.state, t, dir, entries[1..], fs, c);
        LoadEntriesWatchesOnlyDirectChildren(first.state, t, dir, entries[1..], fs, c);
        if o.ok && child in fs && fs[child].File? {
          BasenameOfJoin(dir, name);
          assert first.state.watchers[name] == Watcher(s.nextWatcher, t, child);
          assert name in o.state.watchers;
        }
        forall e | o.ok && e in entries && Join(dir, e) in fs && fs[Join(dir, e)].File?
          ensures e in o.state.watchers && o.state.watchers[e].path == Join(dir, e) && o.state.watchers[e].category == t
        {
          if e != name {
            assert e in entries[1..];
          }
        }
      }
    }
  }

  /** Once the directory loop finishes normally, the version is at least the
      modification time of every regular file directly in the directory. */
  lemma {:induction false} LoadEntriesVersionCoversChildren(s: RegistryState, t: Category, dir: Path, entries: seq<string>, fs: FileSystem, c: Codecs)
    ensures var o := LoadEntriesStep(s, t, dir, entries, fs, c);
      o.ok ==> forall e | e in entries && Join(dir, e) in fs && fs[Join(dir, e)].File? ::
        o.state.version >= fs[Join(dir, e)].mtime
    decreases |entries|
  {
    if entries != [] {
      var first := LoadEntryStep(s, t, dir, entries[0], fs, c);
      if first.ok {
        LoadEntriesVersionCoversChildren(first.state, t, dir, entries[1..], fs, c);
        var o := LoadEntriesStep(s, t, dir, entries, fs, c);
        forall e | o.ok && e in entries && Join(dir, e) in fs && fs[Join(dir, e)].File?
          ensures o.state.version >= fs[Join(dir, e)].mtime
        {
          if e != entries[0] {
            assert e in entries[1..];
          }
        }
      }
    }
  }

  // ---------------------------------------------------------------------------
  // start
  // ---------------------------------------------------------------------------

  /** `start` keeps the watcher table free of leaks and duplicates. */
  lemma StartKeepsWatchersValid(s: RegistryState, base: Path, cfg: Config, fs: FileSystem, c: Codecs)
    requires WatchersValid(s)
    ensures WatchersValid(StartStep(s, base, cfg, fs, c).state)
  {
    var first := SetProtosStep(s, Server, Join(base, cfg.serverProtosPath), fs, c);
    SetProtosKeepsWatchersValid(s, Server, Join(base, cfg.serverProtosPath), fs, c);
    if first.ok {
      var second := SetProtosStep(first.state, Server, Join(base, cfg.clientProtosPath), fs, c);
      SetProtosKeepsWatchersValid(first.state, Server, Join(base, cfg.clientProtosPath), fs, c);
      if second.ok {
        var third := SetProtosStep(second.state, ServerFB, Join(base, cfg.serverFBPath), fs, c);
        SetProtosKeepsWatchersValid(second.state, ServerFB, Join(base, cfg.serverFBPath), fs, c);
        if third.ok {
          SetProtosKeepsWatchersValid(third.state, ClientFB, Join(base, cfg.clientFBPath), fs, c);
        }
      }
    }
  }

  /** Because `start` loads the client plain-schema file as SERVER, a `start` that
      completes leaves that file's document as the server plain-schema table and
      the client table as it was (undefined after construction). */
  lemma StartLoadsClientFileAsServer(s: RegistryState, base: Path, cfg: Config, fs: FileSystem, c: Codecs)
    requires Join(base, cfg.clientProtosPath) in fs && fs[Join(base, cfg.clientProtosPath)].File?
    ensures var o := StartStep(s, base, cfg, fs, c);
      && o.state.clientProtos == s.clientProtos
      && (o.ok ==> o.state.serverProtos == c.parseJson(fs[Join(base, cfg.clientProtosPath)].data))
  {
  }

  // ---------------------------------------------------------------------------
  // onUpdate
  // ---------------------------------------------------------------------------

  /** A reload never touches the watcher table. */
  lemma OnUpdateKeepsWatchersValid(s: RegistryState, t: Category, p: Path, event: string, fs: FileSystem, c: Codecs)
    requires WatchersValid(s)
    ensures WatchersValid(OnUpdateStep(s, t, p, event, fs, c))
  {
  }

  /** A reload of a file newer than the version stores the new content but leaves
      the version behind the file's modification time, whereas loading the same
      file through `setProtos` raises the version to it. */
  lemma ReloadLeavesVersionBehind(s: RegistryState, t: Category, p: Path, fs: FileSystem, c: Codecs)
    requires p in fs && fs[p].File? && s.version < fs[p].mtime
    requires LoadContentStep(s, t, p, fs, c).ok
    ensures var s' := OnUpdateStep(s, t, p, "change", fs, c);
      && s'.version == s.version < fs[p].mtime
      && (t == Server ==> s'.serverProtos == c.parseJson(fs[p].data))
      && (t == Client ==> s'.clientProtos == c.parseJson(fs[p].data))
      && LoadFileStep(s, t, p, fs, c).state.version == fs[p].mtime
  {
  }

}
