/** The ordered key store of the sync engine: one row per (kind, library, file), listed by a
    key range, beside one configuration entry per library. */
module RowStore {
  import opened Collections
  import opened Options

  datatype Entry = Entry(text: string)

  /** A configuration; older versions kept the three file maps inside it. */
  datatype Config = Config(text: string, legacy: map<string, map<string, Entry>>)

  datatype Value = ConfigValue(config: Config) | Row(entry: Entry)

  type Bee = map<string, Value>

  const LAST := '\U{FFFF}'
  const REMOVED_KINDS := ["index", "sent", "remote", "delivered", "snapshot"]
  const LOADED_KINDS := ["index", "sent", "remote"]

  // ─── Keys and the order of the store ──────────────────────────────────────

  predicate SlashFree(s: string) {
    forall i :: 0 <= i < |s| ==> s[i] != '/'
  }

  function Prefix(kind: string, lib: string): string {
    kind + "/" + lib + "/"
  }

  function Key(kind: string, lib: string, rel: string): string {
    Prefix(kind, lib) + rel
  }

  // Keys compare by the bytes of UTF-8, which is the order of code points.
  predicate Leq(a: string, b: string) {
    a == "" || (b != "" && (a[0] < b[0] || (a[0] == b[0] && Leq(a[1..], b[1..]))))
  }

  predicate InRange(kind: string, lib: string, key: string) {
    Leq(Prefix(kind, lib), key) && Leq(key, Prefix(kind, lib) + [LAST])
  }

  /** The paths whose rows the range reaches. */
  predicate Listable(rel: string) {
    rel == "" || rel[0] < '\U{FFFF}' || rel == "\U{FFFF}"
  }

  lemma {:induction false} RangeOfPrefix(prefix: string, key: string)
    ensures Leq(prefix, key) && Leq(key, prefix + [LAST]) <==> prefix <= key && Listable(key[|prefix|..])
  {
    if prefix == "" {
      assert prefix + [LAST] == [LAST];
      assert key != "" ==> (Leq(key[1..], []) <==> key[1..] == "");
      assert key != "" ==> key == [key[0]] + key[1..];
    } else if key == "" {
    } else {
      RangeOfPrefix(prefix[1..], key[1..]);
      assert (prefix + [LAST])[1..] == prefix[1..] + [LAST];
      assert prefix <= key <==> prefix[0] == key[0] && prefix[1..] <= key[1..];
      if prefix <= key {
        assert key[1..][|prefix[1..]|..] == key[|prefix|..];
      }
    }
  }

  /** The range of a (kind, library) holds exactly the keys of its listable rows. */
  lemma RangeExact(kind: string, lib: string, key: string)
    ensures InRange(kind, lib, key) <==> Prefix(kind, lib) <= key && Listable(key[|Prefix(kind, lib)|..])
    ensures InRange(kind, lib, key) ==> key == Key(kind, lib, key[|Prefix(kind, lib)|..])
  {
    RangeOfPrefix(Prefix(kind, lib), key);
  }

  lemma FirstSlashDecides(a: string, b: string, x: string, y: string)
    requires SlashFree(a) && SlashFree(b) && a + "/" + x == b + "/" + y
    ensures a == b && x == y
  {
    var s := a + "/" + x;
    assert s[|a|] == '/' && s[|b|] == '/';
    assert |a| == |b|;
    assert a == s[..|a|] && b == s[..|a|] && x == s[|a| + 1..] && y == s[|a| + 1..];
  }

  /** Keys of different rows differ, and no row key is a configuration key. */
  lemma KeysApart(kind: string, lib: string, rel: string, kind': string, lib': string, rel': string)
    requires SlashFree(kind) && SlashFree(kind') && SlashFree(lib) && SlashFree(lib')
    ensures Key(kind, lib, rel) == Key(kind', lib', rel') ==> kind == kind' && lib == lib' && rel == rel'
    ensures !SlashFree(Key(kind, lib, rel))
  {
    assert Key(kind, lib, rel) == kind + "/" + (lib + "/" + rel);
    assert Key(kind', lib', rel') == kind' + "/" + (lib' + "/" + rel');
    if Key(kind, lib, rel) == Key(kind', lib', rel') {
      FirstSlashDecides(kind, kind', lib + "/" + rel, lib' + "/" + rel');
      FirstSlashDecides(lib, lib', rel, rel');
    }
    var k := Key(kind, lib, rel);
    assert k[|kind|] == '/';
  }

  /** The keys of another kind or library never have this one's prefix. */
  lemma OthersApart(kind: string, lib: string, kind': string, lib': string, rel: string)
    requires SlashFree(kind) && SlashFree(kind') && SlashFree(lib) && SlashFree(lib') && (kind != kind' || lib != lib')
    ensures !OwnRow(kind, lib, Key(kind', lib', rel))
  {
    var k := Key(kind', lib', rel);
    if OwnRow(kind, lib, k) {
      assert k == Key(kind, lib, k[|Prefix(kind, lib)|..]);
      KeysApart(kind, lib, k[|Prefix(kind, lib)|..], kind', lib', rel);
    }
  }

  // ─── The store as a map of rows ───────────────────────────────────────────

  ghost predicate BeeOk(bee: Bee) {
    forall k :: k in bee ==> (bee[k].ConfigValue? <==> SlashFree(k))
  }

  ghost function RowAt(bee: Bee, kind: string, lib: string, rel: string): Option<Entry> {
    var k := Key(kind, lib, rel);
    if k in bee && bee[k].Row? then Some(bee[k].entry) else None
  }

  ghost predicate OwnRow(kind: string, lib: string, k: string) {
    Prefix(kind, lib) <= k
  }

  function Over<V>(a: Option<V>, b: Option<V>): Option<V> {
    if a.Some? then a else b
  }

  function LastOf(entries: seq<(string, Entry)>, rel: string): Option<Entry> {
    if entries == [] then None
    else if entries[|entries| - 1].0 == rel then Some(entries[|entries| - 1].1)
    else LastOf(entries[..|entries| - 1], rel)
  }

  lemma LastOfNone()
    ensures forall rel :: LastOf([], rel) == None
  {
  }

  lemma LastOfMore(entries: seq<(string, Entry)>, e: (string, Entry))
    ensures forall rel :: LastOf(entries + [e], rel) == if e.0 == rel then Some(e.1) else LastOf(entries, rel)
  {
    assert (entries + [e])[..|entries|] == entries;
  }

  function Written(bee: Bee, kind: string, lib: string, entries: seq<(string, Entry)>): Bee {
    if entries == [] then bee
    else
      var e := entries[|entries| - 1];
      Written(bee, kind, lib, entries[..|entries| - 1])[Key(kind, lib, e.0) := Row(e.1)]
  }

  lemma {:induction false} WrittenAt(bee: Bee, kind: string, lib: string, entries: seq<(string, Entry)>)
    requires BeeOk(bee) && SlashFree(kind) && SlashFree(lib)
    ensures var after := Written(bee, kind, lib, entries);
      && BeeOk(after)
      && (forall rel :: RowAt(after, kind, lib, rel) == Over(LastOf(entries, rel), RowAt(bee, kind, lib, rel)))
      && (forall k :: !OwnRow(kind, lib, k) ==> Find(after, k) == Find(bee, k))
  {
    if entries != [] {
      var init, e := entries[..|entries| - 1], entries[|entries| - 1];
      WrittenAt(bee, kind, lib, init);
      KeysApart(kind, lib, e.0, kind, lib, e.0);
      forall rel | rel != e.0 ensures Key(kind, lib, rel) != Key(kind, lib, e.0) {
        KeysApart(kind, lib, rel, kind, lib, e.0);
      }
      assert OwnRow(kind, lib, Key(kind, lib, e.0));
    }
  }

  class SnapshotStore {
    var bee: Bee

    /** The rows listed for a library are those stored whose paths the range reaches. */
    method IterRows(kind: string, lib: string) returns (out: map<string, Entry>)
      requires BeeOk(bee) && SlashFree(kind) && SlashFree(lib)
      ensures forall rel :: rel in out <==> Listable(rel) && RowAt(bee, kind, lib, rel).Some?
      ensures forall rel :: rel in out ==> RowAt(bee, kind, lib, rel) == Some(out[rel])
    {
      out := map[];
      var skip := |Prefix(kind, lib)|;
      var todo := bee.Keys;
      while todo != {}
        invariant todo <= bee.Keys
        invariant forall rel :: rel in out <==> Listable(rel) && RowAt(bee, kind, lib, rel).Some? && Key(kind, lib, rel) !in todo
        invariant forall rel :: rel in out ==> RowAt(bee, kind, lib, rel) == Some(out[rel])
        decreases |todo|
      {
        var k :| k in todo;
        todo := todo - {k};
        RangeExact(kind, lib, k);
        if InRange(kind, lib, k) {
          KeysApart(kind, lib, k[skip..], kind, lib, k[skip..]);
          out := out[k[skip..] := bee[k].entry];
        }
        forall rel | Key(kind, lib, rel) == k ensures rel == k[skip..] && (Listable(rel) ==> InRange(kind, lib, k)) {
        }
      }
    }

    method WriteRows(kind: string, lib: string, entries: seq<(string, Entry)>)
      requires BeeOk(bee) && SlashFree(kind) && SlashFree(lib)
      modifies this
      ensures BeeOk(bee)
      ensures forall rel :: RowAt(bee, kind, lib, rel) == Over(LastOf(entries, rel), RowAt(old(bee), kind, lib, rel))
      ensures forall k :: !OwnRow(kind, lib, k) ==> Find(bee, k) == Find(old(bee), k)
    {
      WrittenAt(bee, kind, lib, entries);
      if |entries| == 0 { return; }
      var batch := bee;
      for i := 0 to |entries|
        invariant batch == Written(bee, kind, lib, entries[..i])
        invariant bee == old(bee)
      {
        assert entries[..i + 1][..i] == entries[..i];
        batch := batch[Key(kind, lib, entries[i].0) := Row(entries[i].1)];
      }
      assert entries[..|entries|] == entries;
      bee := batch;
    }

    method DelRows(kind: string, lib: string, rels: seq<string>)
      requires BeeOk(bee) && SlashFree(kind) && SlashFree(lib)
      modifies this
      ensures BeeOk(bee)
      ensures forall rel :: RowAt(bee, kind, lib, rel) == if rel in rels then None else RowAt(old(bee), kind, lib, rel)
      ensures forall k :: !OwnRow(kind, lib, k) ==> Find(bee, k) == Find(old(bee), k)
    {
      if |rels| == 0 { return; }
      var batch := bee;
      for i := 0 to |rels|
        invariant BeeOk(batch) && bee == old(bee)
        invariant forall rel :: RowAt(batch, kind, lib, rel) == if rel in rels[..i] then None else RowAt(bee, kind, lib, rel)
        invariant forall k :: !OwnRow(kind, lib, k) ==> Find(batch, k) == Find(bee, k)
      {
        var k := Key(kind, lib, rels[i]);
        assert rels[..i + 1] == rels[..i] + [rels[i]];
        forall rel | rel != rels[i] ensures Key(kind, lib, rel) != k {
          KeysApart(kind, lib, rel, kind, lib, rels[i]);
        }
        assert OwnRow(kind, lib, k);
        batch := batch - {k};
      }
      bee := batch;
    }

    method PersistConfig(lib: string, config: Config)
      requires BeeOk(bee) && SlashFree(lib)
      modifies this
      ensures BeeOk(bee) && bee == old(bee)[lib := ConfigValue(config)]
    {
      bee := bee[lib := ConfigValue(config)];
    }

    // Embedded entries that have no listed row become rows and join the loaded map.
    method Migrate(kind: string, lib: string, rows: map<string, Entry>, legacy: map<string, Entry>)
      returns (loaded: map<string, Entry>)
      requires BeeOk(bee) && SlashFree(kind) && SlashFree(lib)
      requires forall rel :: Find(rows, rel) == ListedAt(bee, kind, lib, rel)
      modifies this
      ensures forall rel :: Find(loaded, rel) == Over(Find(rows, rel), Find(legacy, rel))
      ensures Migrated(old(bee), kind, lib, legacy, bee)
    {
      var entries;
      loaded, entries := Adopt(rows, legacy);
      hide LastOf;
      WriteRows(kind, lib, entries);
    }

    // The loaded map with the embedded entries it lacks, and those entries.
    static method Adopt(rows: map<string, Entry>, legacy: map<string, Entry>)
      returns (loaded: map<string, Entry>, entries: seq<(string, Entry)>)
      ensures forall rel :: Find(loaded, rel) == Over(Find(rows, rel), Find(legacy, rel))
      ensures forall rel :: LastOf(entries, rel) == if rel in rows then None else Find(legacy, rel)
    {
      hide LastOf;
      loaded, entries := rows, [];
      LastOfNone();
      var todo := legacy.Keys;
      while todo != {}
        invariant todo <= legacy.Keys
        invariant forall rel :: Find(loaded, rel) == Over(Find(rows, rel), if rel in todo then None else Find(legacy, rel))
        invariant forall rel :: LastOf(entries, rel) == if rel in todo || rel in rows then None else Find(legacy, rel)
        decreases |todo|
      {
        var rel :| rel in todo;
        todo := todo - {rel};
        if rel !in loaded {
          loaded := loaded[rel := legacy[rel]];
          LastOfMore(entries, (rel, legacy[rel]));
          entries := entries + [(rel, legacy[rel])];
        }
      }
    }

    method LoadLibrary(lib: string) returns (index: map<string, Entry>, sent: map<string, Entry>, remote: map<string, Entry>)
      requires BeeOk(bee) && SlashFree(lib) && lib in bee
      modifies this
      ensures forall rel :: Find(index, rel) == LoadedAt(old(bee), "index", lib, rel)
      ensures forall rel :: Find(sent, rel) == LoadedAt(old(bee), "sent", lib, rel)
      ensures forall rel :: Find(remote, rel) == LoadedAt(old(bee), "remote", lib, rel)
      ensures AfterLoad(old(bee), lib, bee)
    {
      var config := bee[lib].config;
      ghost var b0 := bee;
      assert SlashFree("index") && SlashFree("sent") && SlashFree("remote");
      assert "index" in LOADED_KINDS && "sent" in LOADED_KINDS && "remote" in LOADED_KINDS;
      index := IterRows("index", lib);
      sent := IterRows("sent", lib);
      remote := IterRows("remote", lib);
      hide RowAt, SlashFree, LegacyOf, Migrated, AfterLoad;
      index := Migrate("index", lib, index, LegacyOf(config, "index"));
      ghost var b1 := bee;
      MigrationApart(b0, "index", lib, LegacyOf(config, "index"), b1);
      sent := Migrate("sent", lib, sent, LegacyOf(config, "sent"));
      ghost var b2 := bee;
      MigrationApart(b1, "sent", lib, LegacyOf(config, "sent"), b2);
      remote := Migrate("remote", lib, remote, LegacyOf(config, "remote"));
      MigrationApart(b2, "remote", lib, LegacyOf(config, "remote"), bee);
      MigratedAll(b0, b1, b2, bee, lib);
      if HasLegacy(config) { PersistConfig(lib, Config(config.text, map[])); }
    }

    /** The configuration and every listable row of the library are gone, a row the range
        does not reach stays, and nothing of another library changes. */
    method RemoveLibrary(lib: string)
      requires BeeOk(bee) && SlashFree(lib)
      modifies this
      ensures BeeOk(bee) && lib !in bee
      ensures Removed(old(bee), lib, bee)
    {
      var batch := bee - {lib};
      for i := 0 to |REMOVED_KINDS|
        invariant bee == old(bee)
        invariant forall k :: k in batch <==>
          k in bee && k != lib && !exists j :: 0 <= j < i && InRange(REMOVED_KINDS[j], lib, k)
        invariant forall k :: k in batch ==> batch[k] == bee[k]
      {
        var found := set k | k in bee && InRange(REMOVED_KINDS[i], lib, k);
        batch := batch - found;
      }
      bee := batch;
      forall k: string ensures Reached(lib, k) <==> exists i :: 0 <= i < |REMOVED_KINDS| && InRange(REMOVED_KINDS[i], lib, k) {
        RangesRemoved(lib, k);
      }
    }
  }

  // A kind of row a library has.
  predicate Of(kind: string) {
    kind in {"index", "sent", "remote", "delivered", "snapshot"}
  }

  // The range of one of the library's kinds of row reaches the key.
  ghost predicate Reached(lib: string, k: string) {
    exists kind :: Of(kind) && InRange(kind, lib, k)
  }

  lemma RangesRemoved(lib: string, k: string)
    ensures Reached(lib, k) <==> exists i :: 0 <= i < |REMOVED_KINDS| && InRange(REMOVED_KINDS[i], lib, k)
  {
    assert REMOVED_KINDS[0] == "index" && REMOVED_KINDS[1] == "sent" && REMOVED_KINDS[2] == "remote";
    assert REMOVED_KINDS[3] == "delivered" && REMOVED_KINDS[4] == "snapshot" && |REMOVED_KINDS| == 5;
    assert forall i :: 0 <= i < |REMOVED_KINDS| ==> Of(REMOVED_KINDS[i]);
  }

  // The configuration and the rows the five ranges reach are gone, and nothing else.
  ghost predicate Removed(before: Bee, lib: string, after: Bee) {
    && (forall k :: k in after <==> k in before && k != lib && !Reached(lib, k))
    && (forall k :: k in after ==> after[k] == before[k])
  }

  // ─── Loading, with migration of embedded maps ─────────────────────────────

  function LegacyOf(config: Config, kind: string): map<string, Entry> {
    if kind in config.legacy then config.legacy[kind] else map[]
  }

  ghost function ListedAt(bee: Bee, kind: string, lib: string, rel: string): Option<Entry> {
    if Listable(rel) then RowAt(bee, kind, lib, rel) else None
  }

  ghost function LegacyAt(bee: Bee, kind: string, lib: string, rel: string): Option<Entry> {
    if lib in bee && bee[lib].ConfigValue? then Find(LegacyOf(bee[lib].config, kind), rel) else None
  }

  /** What a load finds: the listed row, or else the embedded entry. */
  ghost function LoadedAt(bee: Bee, kind: string, lib: string, rel: string): Option<Entry> {
    Over(ListedAt(bee, kind, lib, rel), LegacyAt(bee, kind, lib, rel))
  }

  // One kind's embedded entries have become rows.
  ghost predicate Migrated(bee: Bee, kind: string, lib: string, legacy: map<string, Entry>, after: Bee) {
    && BeeOk(after)
    && (forall rel :: RowAt(after, kind, lib, rel) ==
         if ListedAt(bee, kind, lib, rel).Some? then RowAt(bee, kind, lib, rel)
         else Over(Find(legacy, rel), RowAt(bee, kind, lib, rel)))
    && (forall k :: !OwnRow(kind, lib, k) ==> Find(after, k) == Find(bee, k))
  }

  lemma MigrationApart(bee: Bee, kind: string, lib: string, legacy: map<string, Entry>, after: Bee)
    requires BeeOk(bee) && SlashFree(kind) && SlashFree(lib) && Migrated(bee, kind, lib, legacy, after)
    ensures BeeOk(after) && Find(after, lib) == Find(bee, lib)
    ensures forall other, rel :: other in LOADED_KINDS && other != kind ==> RowAt(after, other, lib, rel) == RowAt(bee, other, lib, rel)
  {
    assert Prefix(kind, lib)[|kind|] == '/';
    forall other, rel | other in LOADED_KINDS && other != kind ensures RowAt(after, other, lib, rel) == RowAt(bee, other, lib, rel) {
      OthersApart(kind, lib, other, lib, rel);
      assert Find(after, Key(other, lib, rel)) == Find(bee, Key(other, lib, rel));
    }
  }

  // All three kinds, one after the other, and then the configuration.
  lemma MigratedAll(b0: Bee, b1: Bee, b2: Bee, b3: Bee, lib: string)
    requires SlashFree(lib) && BeeOk(b0) && lib in b0 && b0[lib].ConfigValue?
    requires var config := b0[lib].config;
      && Migrated(b0, "index", lib, LegacyOf(config, "index"), b1)
      && Migrated(b1, "sent", lib, LegacyOf(config, "sent"), b2)
      && Migrated(b2, "remote", lib, LegacyOf(config, "remote"), b3)
    ensures BeeOk(b3) && Find(b3, lib) == Find(b0, lib)
    ensures var config := b0[lib].config;
      AfterLoad(b0, lib, if HasLegacy(config) then b3[lib := ConfigValue(Config(config.text, map[]))] else b3)
  {
    hide RowAt, Migrated, ListedAt, OwnRow, HasLegacy, LegacyOf;
    var config := b0[lib].config;
    AllMigrated(b0, b1, b2, b3, lib, config);
    ConfigApart(b3, lib, config);
    assert forall k :: OwnRow("index", lib, k) || OwnRow("sent", lib, k) || OwnRow("remote", lib, k) || Find(b3, k) == Find(b0, k);
  }

  // Storing the configuration changes no row.
  lemma ConfigApart(bee: Bee, lib: string, config: Config)
    requires BeeOk(bee) && SlashFree(lib)
    ensures var after := bee[lib := ConfigValue(Config(config.text, map[]))];
      && BeeOk(after)
      && (forall kind, rel :: RowAt(after, kind, lib, rel) == RowAt(bee, kind, lib, rel))
      && (forall k :: k != lib ==> Find(after, k) == Find(bee, k))
  {
    var after := bee[lib := ConfigValue(Config(config.text, map[]))];
    forall kind, rel ensures RowAt(after, kind, lib, rel) == RowAt(bee, kind, lib, rel) {
      assert Key(kind, lib, rel)[|kind|] == '/';
    }
  }

  // The rows after the three migrations.
  lemma AllMigrated(b0: Bee, b1: Bee, b2: Bee, b3: Bee, lib: string, config: Config)
    requires SlashFree(lib) && BeeOk(b0)
    requires
      && Migrated(b0, "index", lib, LegacyOf(config, "index"), b1)
      && Migrated(b1, "sent", lib, LegacyOf(config, "sent"), b2)
      && Migrated(b2, "remote", lib, LegacyOf(config, "remote"), b3)
    ensures BeeOk(b3) && Find(b3, lib) == Find(b0, lib)
    ensures forall kind, rel :: kind in LOADED_KINDS ==>
      RowAt(b3, kind, lib, rel) ==
        if ListedAt(b0, kind, lib, rel).Some? then RowAt(b0, kind, lib, rel)
        else Over(Find(LegacyOf(config, kind), rel), RowAt(b0, kind, lib, rel))
    ensures forall k :: OwnRow("index", lib, k) || OwnRow("sent", lib, k) || OwnRow("remote", lib, k) || Find(b3, k) == Find(b0, k)
  {
    hide RowAt, OwnRow, LegacyOf, BeeOk, SlashFree;
    LoadedKindsSlashFree();
    MigrationApart(b0, "index", lib, LegacyOf(config, "index"), b1);
    MigrationApart(b1, "sent", lib, LegacyOf(config, "sent"), b2);
    MigrationApart(b2, "remote", lib, LegacyOf(config, "remote"), b3);
  }

  lemma LoadedKindsSlashFree()
    ensures SlashFree("index") && SlashFree("sent") && SlashFree("remote")
  {
  }

  predicate HasLegacy(config: Config) {
    exists kind :: kind in LOADED_KINDS && LegacyOf(config, kind) != map[]
  }

  /** The store after a load: embedded entries that had no listed row became rows, and the
      configuration no longer embeds any. */
  ghost predicate AfterLoad(bee: Bee, lib: string, after: Bee)
    requires lib in bee && bee[lib].ConfigValue?
  {
    && BeeOk(after)
    && (forall kind, rel :: kind in LOADED_KINDS ==>
         RowAt(after, kind, lib, rel) ==
           if ListedAt(bee, kind, lib, rel).Some? then RowAt(bee, kind, lib, rel)
           else Over(LegacyAt(bee, kind, lib, rel), RowAt(bee, kind, lib, rel)))
    && (forall k :: k != lib && (forall kind :: kind in LOADED_KINDS ==> !OwnRow(kind, lib, k)) ==> Find(after, k) == Find(bee, k))
    && Find(after, lib) == Some(ConfigValue(if HasLegacy(bee[lib].config) then Config(bee[lib].config.text, map[]) else bee[lib].config))
  }

  /** A second load finds what the first one found if and only if the range reaches every
      embedded path. */
  lemma SecondLoad(bee: Bee, lib: string, after: Bee)
    requires BeeOk(bee) && SlashFree(lib) && lib in bee && AfterLoad(bee, lib, after)
    ensures (forall kind, rel :: kind in LOADED_KINDS ==> LoadedAt(after, kind, lib, rel) == LoadedAt(bee, kind, lib, rel))
       <==> (forall kind, rel :: kind in LOADED_KINDS && LegacyAt(bee, kind, lib, rel).Some? ==> Listable(rel))
  {
    forall kind, rel | kind in LOADED_KINDS
      ensures LoadedAt(after, kind, lib, rel) == LoadedAt(bee, kind, lib, rel)
         <==> (LegacyAt(bee, kind, lib, rel).Some? ==> Listable(rel))
    {
      SecondLoadAt(bee, lib, after, kind, rel);
    }
  }

  lemma SecondLoadAt(bee: Bee, lib: string, after: Bee, kind: string, rel: string)
    requires BeeOk(bee) && SlashFree(lib) && lib in bee && AfterLoad(bee, lib, after) && kind in LOADED_KINDS
    ensures LoadedAt(after, kind, lib, rel) == LoadedAt(bee, kind, lib, rel)
       <==> (LegacyAt(bee, kind, lib, rel).Some? ==> Listable(rel))
  {
    assert lib in after && after[lib].ConfigValue?;
    if HasLegacy(bee[lib].config) {
      assert LegacyAt(after, kind, lib, rel) == None;
    } else {
      assert LegacyOf(bee[lib].config, kind) == map[];
      assert LegacyAt(bee, kind, lib, rel) == None && LegacyAt(after, kind, lib, rel) == None;
    }
  }

  /** A file whose name begins beyond the basic plane is found by the first load and lost
      to the second. */
  lemma EmojiNameLost(e: Entry)
    ensures var bee: Bee := map["sync-1" := ConfigValue(Config("", map["index" := map["\U{1F600}.jpg" := e]]))];
      LoadedAt(bee, "index", "sync-1", "\U{1F600}.jpg") == Some(e)
      && forall after :: AfterLoad(bee, "sync-1", after) ==> LoadedAt(after, "index", "sync-1", "\U{1F600}.jpg") == None
  {
    var bee: Bee := map["sync-1" := ConfigValue(Config("", map["index" := map["\U{1F600}.jpg" := e]]))];
    assert "index" in LOADED_KINDS;
    assert "\U{1F600}.jpg" in LegacyOf(bee["sync-1"].config, "index");
    assert HasLegacy(bee["sync-1"].config);
    forall after | AfterLoad(bee, "sync-1", after)
      ensures LoadedAt(after, "index", "sync-1", "\U{1F600}.jpg") == None
    {
      assert Find(after, "sync-1") == Some(ConfigValue(Config("", map[])));
    }
  }

  /** What removal leaves, seen as rows. */
  lemma RemovedRows(before: Bee, after: Bee, lib: string, kind: string, other: string, rel: string)
    requires BeeOk(before) && SlashFree(lib) && SlashFree(kind) && SlashFree(other)
    requires Removed(before, lib, after)
    ensures RowAt(after, kind, other, rel) ==
      if other == lib && kind in {"index", "sent", "remote", "delivered", "snapshot"} && Listable(rel) then None else RowAt(before, kind, other, rel)
  {
    var k := Key(kind, other, rel);
    KeysApart(kind, other, rel, kind, other, rel);
    assert rel == k[|Prefix(kind, other)|..];
    RangeExact(kind, lib, k);
    assert k != lib;
    forall own | Of(own) ensures InRange(own, lib, k) <==> own == kind && other == lib && Listable(rel) {
      RangeExact(own, lib, k);
      assert SlashFree(own);
      if InRange(own, lib, k) {
        KeysApart(own, lib, k[|Prefix(own, lib)|..], kind, other, rel);
      }
    }
  }
}
