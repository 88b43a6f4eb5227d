/** Folder scanning: an incremental scan of the paths a watcher reported, or a walk of the
    whole folder; the index it leaves in memory; and the rows it writes. */
module SyncScan {
  import opened Collections
  import opened Options

  const MAX_LIBRARY_FILES := 50000
  const MAX_DIRTY := 200

  // `${size}-${mtimeMs}`, or the empty string.
  datatype Sig = Sig(size: nat, mtimeMs: nat) | NoSig

  datatype FileEntry = FileEntry(size: nat, mtimeMs: nat, sig: Sig, author: string, deleted: bool)
  datatype Meta = Meta(size: nat, mtimeMs: nat, sig: Sig, deleted: bool)

  // What a stat of a path reports, following links.
  datatype Node = Folder | File(size: nat, mtimeMs: nat)

  /** The library folder: what each existing path is, and which files the walk lists.  The
      walk skips ignored names and links, a stat of one path does not. */
  datatype Disk = Disk(present: bool, nodes: map<string, Node>, listed: set<string>)

  ghost predicate DiskOk(d: Disk) {
    && (forall rel :: rel in d.listed ==> rel in d.nodes && d.nodes[rel].File?)
    && (forall rel, i :: rel in d.nodes && 0 <= i < |rel| && rel[i] == '/' ==> rel[..i] in d.nodes && d.nodes[rel[..i]].Folder?)
    && "" !in d.nodes
    && (!d.present ==> d.nodes == map[])
  }

  function SigOf(n: Node): Sig
    requires n.File?
  {
    Sig(n.size, n.mtimeMs)
  }

  function MetaOf(n: Node): Meta
    requires n.File?
  {
    Meta(n.size, n.mtimeMs, SigOf(n), false)
  }

  /** The files a reader of the folder would list, with their signatures. */
  ghost function OnDisk(d: Disk): map<string, Sig>
    requires DiskOk(d)
  {
    map rel | rel in d.listed :: SigOf(d.nodes[rel])
  }

  ghost function Live(index: map<string, FileEntry>): map<string, Sig> {
    map rel | rel in index && !index[rel].deleted :: index[rel].sig
  }

  // ─── Dirty paths ──────────────────────────────────────────────────────────

  ghost predicate Above(dir: string, rel: string) {
    exists i :: 0 <= i < |rel| && rel[i] == '/' && rel[..i] == dir
  }

  ghost predicate DirtyOrUnder(dirty: set<string>, rel: string) {
    rel in dirty || exists d :: d in dirty && Above(d, rel)
  }

  function FirstSlash(s: string): (i: nat)
    ensures i <= |s| && (forall j :: 0 <= j < i ==> s[j] != '/') && (i < |s| ==> s[i] == '/')
  {
    if s == "" || s[0] == '/' then 0 else 1 + FirstSlash(s[1..])
  }

  function Split(s: string): (parts: seq<string>)
    ensures parts != []
    decreases |s|
  {
    var i := FirstSlash(s);
    if i == |s| then [s] else [s[..i]] + Split(s[i + 1..])
  }

  lemma JoinHead(h: string, tail: seq<string>)
    requires tail != []
    ensures Join([h] + tail, '/') == h + "/" + Join(tail, '/')
  {
    assert ([h] + tail)[1..] == tail;
  }

  lemma CutAtSlash(s: string, k: nat, j: nat)
    requires k < |s| && s[k] == '/' && k + 1 + j <= |s|
    ensures s[..k + 1 + j] == s[..k] + "/" + s[k + 1..][..j]
  {
  }

  lemma SplitFirst(s: string, i: nat)
    requires FirstSlash(s) < |s| && 0 < i <= |Split(s[FirstSlash(s) + 1..])|
    ensures |Split(s)| == 1 + |Split(s[FirstSlash(s) + 1..])|
    ensures Join(Split(s)[..i + 1], '/') == s[..FirstSlash(s)] + "/" + Join(Split(s[FirstSlash(s) + 1..])[..i], '/')
  {
    var k := FirstSlash(s);
    var tail := Split(s[k + 1..]);
    assert Split(s)[..i + 1] == [s[..k]] + tail[..i];
    JoinHead(s[..k], tail[..i]);
  }

  // The joined proper prefixes of the parts are the texts before each slash.
  lemma {:induction false} PartsToText(s: string, i: nat)
    requires 0 < i < |Split(s)|
    ensures Above(Join(Split(s)[..i], '/'), s)
    decreases |s|
  {
    var k := FirstSlash(s);
    if i == 1 {
      assert Split(s)[..1] == [s[..k]] && s[k] == '/';
    } else {
      hide Split, Join, Above;
      var rest := s[k + 1..];
      PartsToText(rest, i - 1);
      SplitFirst(s, i - 1);
      AboveShift(s, k, Join(Split(rest)[..i - 1], '/'));
    }
  }

  lemma AboveShift(s: string, k: nat, dir: string)
    requires k < |s| && s[k] == '/' && Above(dir, s[k + 1..])
    ensures Above(s[..k] + "/" + dir, s)
  {
    var rest := s[k + 1..];
    var j :| 0 <= j < |rest| && rest[j] == '/' && rest[..j] == dir;
    CutAtSlash(s, k, j);
    assert s[k + 1 + j] == '/';
  }

  lemma FirstPart(s: string)
    requires FirstSlash(s) < |s|
    ensures |Split(s)| > 1 && Join(Split(s)[..1], '/') == s[..FirstSlash(s)]
  {
    assert Split(s)[..1] == [s[..FirstSlash(s)]];
  }

  lemma {:induction false} TextToParts(s: string, j: nat)
    requires j < |s| && s[j] == '/'
    ensures exists i :: 0 < i < |Split(s)| && Join(Split(s)[..i], '/') == s[..j]
    decreases |s|
  {
    hide Split, Join;
    var k := FirstSlash(s);
    if j == k {
      FirstPart(s);
      assert 1 < |Split(s)| && Join(Split(s)[..1], '/') == s[..j];
    } else {
      var rest := s[k + 1..];
      TextToParts(rest, j - k - 1);
      var i :| 0 < i < |Split(rest)| && Join(Split(rest)[..i], '/') == rest[..j - k - 1];
      SplitFirst(s, i);
      CutAtSlash(s, k, j - k - 1);
      assert Join(Split(s)[..i + 1], '/') == s[..j];
    }
  }

  method IsDirtyOrUnder(dirty: set<string>, rel: string) returns (yes: bool)
    ensures yes <==> DirtyOrUnder(dirty, rel)
  {
    if rel in dirty { return true; }
    var parts := Split(rel);
    for i := 1 to |parts|
      invariant forall j :: 0 < j < i ==> Join(parts[..j], '/') !in dirty
    {
      if Join(parts[..i], '/') in dirty {
        PartsToText(rel, i);
        return true;
      }
    }
    forall d | d in dirty ensures !Above(d, rel) {
      if Above(d, rel) {
        var j :| 0 <= j < |rel| && rel[j] == '/' && rel[..j] == d;
        TextToParts(rel, j);
        assert false;
      }
    }
    return false;
  }

  // ─── The two scanners ─────────────────────────────────────────────────────

  /** A stat of each dirty path: a vanished one becomes a tombstone. */
  ghost function Probed(d: Disk, dirty: set<string>, now: nat): map<string, Meta> {
    map rel | rel in dirty && rel != "" && !(rel in d.nodes && d.nodes[rel].Folder?) ::
      if rel in d.nodes then MetaOf(d.nodes[rel]) else Meta(0, now, NoSig, true)
  }

  ghost predicate HasFolder(d: Disk, dirty: set<string>) {
    exists rel :: rel in dirty && rel != "" && rel in d.nodes && d.nodes[rel].Folder?
  }

  lemma ProbedOneMore(d: Disk, dirty: set<string>, rel: string, now: nat)
    ensures Probed(d, dirty + {rel}, now) ==
      if rel == "" || (rel in d.nodes && d.nodes[rel].Folder?) then Probed(d, dirty, now)
      else Probed(d, dirty, now)[rel := if rel in d.nodes then MetaOf(d.nodes[rel]) else Meta(0, now, NoSig, true)]
    ensures HasFolder(d, dirty + {rel}) <==> HasFolder(d, dirty) || (rel != "" && rel in d.nodes && d.nodes[rel].Folder?)
    ensures Probed(d, dirty, now).Keys <= dirty
  {
  }

  method StatDirtyPaths(d: Disk, dirty: set<string>, now: nat) returns (out: map<string, Meta>, sawDir: bool)
    requires |dirty| <= MAX_DIRTY
    ensures out == Probed(d, dirty, now)
    ensures sawDir <==> HasFolder(d, dirty)
  {
    out, sawDir := map[], false;
    var todo := dirty;
    assert dirty - todo == {} && Probed(d, {}, now) == map[];
    hide Probed, HasFolder;
    while todo != {}
      invariant todo <= dirty
      invariant out == Probed(d, dirty - todo, now)
      invariant sawDir <==> HasFolder(d, dirty - todo)
      decreases |todo|
    {
      var rel :| rel in todo;
      ProbedOneMore(d, dirty - todo, rel, now);
      SubsetSize(out.Keys, dirty);
      assert dirty - (todo - {rel}) == (dirty - todo) + {rel};
      todo := todo - {rel};
      if rel == "" || |out| >= MAX_LIBRARY_FILES { continue; }
      if rel !in d.nodes {
        out := out[rel := Meta(0, now, NoSig, true)];
      } else if d.nodes[rel].Folder? {
        sawDir := true;
      } else {
        out := out[rel := MetaOf(d.nodes[rel])];
      }
    }
    assert dirty - todo == dirty;
  }

  /** The walk, in whatever order it meets the files, until its limit. */
  method ScanFolder(d: Disk) returns (out: map<string, Meta>)
    requires DiskOk(d)
    ensures out.Keys <= d.listed
    ensures forall rel :: rel in out ==> out[rel] == MetaOf(d.nodes[rel])
    ensures |out| == Min(|d.listed|, MAX_LIBRARY_FILES)
    ensures |d.listed| <= MAX_LIBRARY_FILES ==> out.Keys == d.listed
  {
    out := map[];
    var todo := d.listed;
    while todo != {} && |out| < MAX_LIBRARY_FILES
      invariant todo <= d.listed && out.Keys == d.listed - todo
      invariant |out| + |todo| == |d.listed| && |out| <= MAX_LIBRARY_FILES
      invariant forall rel :: rel in out ==> out[rel] == MetaOf(d.nodes[rel])
      decreases |todo|
    {
      var rel :| rel in todo;
      todo := todo - {rel};
      out := out[rel := MetaOf(d.nodes[rel])];
    }
    assert todo == {} ==> d.listed - todo == d.listed;
  }

  // ─── The next index ───────────────────────────────────────────────────────

  function Scanned(prev: Option<FileEntry>, m: Meta, me: string, now: nat): FileEntry {
    if m.deleted then
      FileEntry(if m.size > 0 then m.size else if prev.Some? then prev.value.size else 0, now,
            if prev.Some? then prev.value.sig else NoSig, me, true)
    else if prev.Some? && !prev.value.deleted && prev.value.sig == m.sig then prev.value
    else FileEntry(m.size, m.mtimeMs, m.sig, me, false)
  }

  function Gone(prev: FileEntry, me: string, now: nat): FileEntry {
    FileEntry(prev.size, now, prev.sig, me, true)
  }

  /** `within` is the dirty set of an incremental scan, None for a full one. */
  ghost predicate Outside(within: Option<set<string>>, rel: string) {
    within.Some? && !DirtyOrUnder(within.value, rel)
  }

  // A full scan forgets old tombstones, an incremental one keeps them.
  ghost predicate Vanishes(index: map<string, FileEntry>, within: Option<set<string>>, rel: string)
    requires rel in index
  {
    index[rel].deleted && within.None?
  }

  ghost function NextIndex(index: map<string, FileEntry>, out: map<string, Meta>, within: Option<set<string>>, me: string, now: nat)
    : map<string, FileEntry>
  {
    map rel | rel in index.Keys + out.Keys && (rel in out || !Vanishes(index, within, rel)) ::
      if rel in out then Scanned(Find(index, rel), out[rel], me, now)
      else if index[rel].deleted || Outside(within, rel) then index[rel]
      else Gone(index[rel], me, now)
  }

  predicate Changes(index: map<string, FileEntry>, rel: string, e: FileEntry) {
    rel !in index || index[rel].sig != e.sig || index[rel].deleted != e.deleted
  }

  ghost function Changed(index: map<string, FileEntry>, next: map<string, FileEntry>): map<string, FileEntry> {
    map rel | rel in next && Changes(index, rel, next[rel]) :: next[rel]
  }

  method BuildIndex(index: map<string, FileEntry>, out: map<string, Meta>, within: Option<set<string>>, me: string, now: nat)
    returns (next: map<string, FileEntry>)
    ensures next == NextIndex(index, out, within, me, now)
  {
    next := AddScanned(index, out, within.Some?, me, now);
    next := AddGone(index, out, within, me, now, next);
    assert next.Keys == NextIndex(index, out, within, me, now).Keys;
  }

  method AddScanned(index: map<string, FileEntry>, out: map<string, Meta>, incremental: bool, me: string, now: nat)
    returns (next: map<string, FileEntry>)
    ensures forall rel :: rel in next <==> rel in out || (incremental && rel in index)
    ensures forall rel :: rel in out ==> next[rel] == Scanned(Find(index, rel), out[rel], me, now)
    ensures forall rel :: rel in next && rel !in out ==> next[rel] == index[rel]
  {
    next := if incremental then index else map[];
    var todo := out.Keys;
    while todo != {}
      invariant todo <= out.Keys
      invariant forall rel :: rel in next <==> (rel in out && rel !in todo) || (incremental && rel in index)
      invariant forall rel :: rel in out && rel !in todo ==> next[rel] == Scanned(Find(index, rel), out[rel], me, now)
      invariant forall rel :: rel in next && (rel !in out || rel in todo) ==> next[rel] == index[rel]
      decreases |todo|
    {
      var rel :| rel in todo;
      todo := todo - {rel};
      next := next[rel := Scanned(Find(index, rel), out[rel], me, now)];
    }
  }

  // A live entry the scan should have met and did not becomes a tombstone.
  ghost predicate Unmet(index: map<string, FileEntry>, out: map<string, Meta>, within: Option<set<string>>, rel: string) {
    rel in index && !index[rel].deleted && rel !in out && !Outside(within, rel)
  }

  method AddGone(index: map<string, FileEntry>, out: map<string, Meta>, within: Option<set<string>>, me: string, now: nat,
                 before: map<string, FileEntry>)
    returns (next: map<string, FileEntry>)
    ensures forall rel :: rel in next <==> rel in before || Unmet(index, out, within, rel)
    ensures forall rel :: Unmet(index, out, within, rel) ==> next[rel] == Gone(index[rel], me, now)
    ensures forall rel :: rel in before && !Unmet(index, out, within, rel) ==> next[rel] == before[rel]
  {
    next := before;
    var todo := index.Keys;
    while todo != {}
      invariant todo <= index.Keys
      invariant forall rel :: rel in next <==> rel in before || (rel !in todo && Unmet(index, out, within, rel))
      invariant forall rel :: rel !in todo && Unmet(index, out, within, rel) ==> next[rel] == Gone(index[rel], me, now)
      invariant forall rel :: rel in before && (rel in todo || !Unmet(index, out, within, rel)) ==> next[rel] == before[rel]
      decreases |todo|
    {
      var rel :| rel in todo;
      todo := todo - {rel};
      var prev := index[rel];
      if prev.deleted || rel in out { continue; }
      if within.Some? {
        var inside := IsDirtyOrUnder(within.value, rel);
        if !inside { continue; }
      }
      next := next[rel := Gone(prev, me, now)];
    }
  }

  method CollectChanged(index: map<string, FileEntry>, next: map<string, FileEntry>) returns (changed: map<string, FileEntry>)
    ensures changed == Changed(index, next)
  {
    changed := map[];
    var todo := next.Keys;
    while todo != {}
      invariant todo <= next.Keys
      invariant forall rel :: rel in changed <==> rel in next && rel !in todo && Changes(index, rel, next[rel])
      invariant forall rel :: rel in changed ==> changed[rel] == next[rel]
      decreases |todo|
    {
      var rel :| rel in todo;
      todo := todo - {rel};
      if Changes(index, rel, next[rel]) { changed := changed[rel := next[rel]]; }
    }
  }

  // ─── What a scan leaves live ──────────────────────────────────────────────

  ghost function LiveAt(index: map<string, FileEntry>, rel: string): Option<Sig> {
    if rel in index && !index[rel].deleted then Some(index[rel].sig) else None
  }

  ghost function DiskAt(d: Disk, rel: string): Option<Sig>
    requires DiskOk(d)
  {
    if rel in d.listed then Some(SigOf(d.nodes[rel])) else None
  }

  ghost predicate Mirrors(index: map<string, FileEntry>, d: Disk)
    requires DiskOk(d)
  {
    forall rel :: LiveAt(index, rel) == DiskAt(d, rel)
  }

  lemma MirrorsMeansEqual(index: map<string, FileEntry>, d: Disk)
    requires DiskOk(d)
    ensures Mirrors(index, d) <==> Live(index) == OnDisk(d)
  {
    if Live(index) == OnDisk(d) {
      forall rel ensures LiveAt(index, rel) == DiskAt(d, rel) {
        assert rel in Live(index) <==> rel in OnDisk(d);
      }
    }
    if Mirrors(index, d) {
      forall rel ensures rel in Live(index) <==> rel in OnDisk(d) {
        assert LiveAt(index, rel) == DiskAt(d, rel);
      }
      forall rel | rel in OnDisk(d) ensures Live(index)[rel] == OnDisk(d)[rel] {
        assert LiveAt(index, rel) == DiskAt(d, rel);
      }
    }
  }

  ghost predicate Walked(d: Disk, out: map<string, Meta>)
    requires DiskOk(d)
  {
    && out.Keys <= d.listed && |out| == Min(|d.listed|, MAX_LIBRARY_FILES)
    && forall rel :: rel in out ==> out[rel] == MetaOf(d.nodes[rel])
  }

  /** A full scan leaves exactly the files of the folder live, with their signatures, if and
      only if the folder holds no more files than the walk's limit. */
  lemma FullScanExact(index: map<string, FileEntry>, d: Disk, out: map<string, Meta>, me: string, now: nat)
    requires DiskOk(d) && Walked(d, out)
    ensures Live(NextIndex(index, out, None, me, now)) == OnDisk(d) <==> |d.listed| <= 50000
  {
    var next := NextIndex(index, out, None, me, now);
    MirrorsMeansEqual(next, d);
    forall rel ensures LiveAt(next, rel) == DiskAt(d, rel) <==> (rel in d.listed ==> rel in out.Keys) {
      FullAt(index, d, out, me, now, rel);
    }
    SameSize(out.Keys, d.listed);
  }

  lemma FullAt(index: map<string, FileEntry>, d: Disk, out: map<string, Meta>, me: string, now: nat, rel: string)
    requires DiskOk(d) && Walked(d, out)
    ensures LiveAt(NextIndex(index, out, None, me, now), rel) == if rel in out.Keys then DiskAt(d, rel) else None
  {
  }

  lemma SameSize<T>(a: set<T>, b: set<T>)
    requires a <= b
    ensures |a| == |b| <==> (forall x :: x in b ==> x in a)
  {
    assert b == a + (b - a);
    if forall x :: x in b ==> x in a {
      assert b - a == {};
    } else {
      var x :| x in b && x !in a;
      assert x in b - a;
    }
  }

  // n files named a, aa, aaa, ...
  function Many(n: nat): set<string> {
    if n == 0 then {} else Many(n - 1) + {seq(n, _ => 'a')}
  }

  lemma {:induction false} ManyAre(n: nat)
    ensures |Many(n)| == n
    ensures forall rel :: rel in Many(n) ==> 0 < |rel| <= n && forall i :: 0 <= i < |rel| ==> rel[i] == 'a'
  {
    if n > 0 { ManyAre(n - 1); }
  }

  ghost function Crowd(n: nat): (d: Disk)
    ensures DiskOk(d) && |d.listed| == n
  {
    ManyAre(n);
    Disk(true, map rel | rel in Many(n) :: File(1, 1), Many(n))
  }

  /** The folder of files a, aa, aaa, ... with one file more than the limit: no walk of it
      leaves all its files live. */
  lemma OneFileTooMany(n: nat, index: map<string, FileEntry>, out: map<string, Meta>, me: string, now: nat)
    requires n == MAX_LIBRARY_FILES + 1 && Walked(Crowd(n), out)
    ensures Live(NextIndex(index, out, None, me, now)) != OnDisk(Crowd(n))
  {
    FullScanExact(index, Crowd(n), out, me, now);
  }

  /** Either scan. */
  lemma ScanExact(index: map<string, FileEntry>, d: Disk, out: map<string, Meta>, within: Option<set<string>>, me: string, now: nat)
    requires DiskOk(d)
    requires if within.Some? then !HasFolder(d, within.value) && out == Probed(d, within.value, now) else Walked(d, out)
    ensures Live(NextIndex(index, out, within, me, now)) == OnDisk(d) <==>
      if within.Some? then DirtyTellsAll(index, d, within.value) else |d.listed| <= MAX_LIBRARY_FILES
  {
    if within.Some? {
      IncrementalScanExact(index, d, within.value, me, now);
    } else {
      FullScanExact(index, d, out, me, now);
    }
  }

  /** Nothing changed outside the dirty paths, and the walk would list every dirty file. */
  ghost predicate DirtyTellsAll(index: map<string, FileEntry>, d: Disk, dirty: set<string>)
    requires DiskOk(d)
  {
    && (forall rel :: !DirtyOrUnder(dirty, rel) ==> LiveAt(index, rel) == DiskAt(d, rel))
    && (forall rel :: rel in dirty && rel in d.nodes ==> rel in d.listed)
  }

  lemma IncrementalAt(index: map<string, FileEntry>, d: Disk, dirty: set<string>, me: string, now: nat, rel: string)
    requires DiskOk(d) && !HasFolder(d, dirty)
    ensures LiveAt(NextIndex(index, Probed(d, dirty, now), Some(dirty), me, now), rel) ==
      if rel in dirty then if rel in d.nodes then Some(SigOf(d.nodes[rel])) else None
      else if DirtyOrUnder(dirty, rel) then None
      else LiveAt(index, rel)
    ensures rel !in dirty && DirtyOrUnder(dirty, rel) ==> DiskAt(d, rel) == None
  {
    if rel !in dirty && DirtyOrUnder(dirty, rel) {
      var dir :| dir in dirty && Above(dir, rel);
      assert rel in d.nodes ==> dir in d.nodes;
    }
  }

  /** An incremental scan in which no dirty path is a directory leaves exactly the files of
      the folder live if and only if the dirty paths tell all. */
  lemma IncrementalScanExact(index: map<string, FileEntry>, d: Disk, dirty: set<string>, me: string, now: nat)
    requires DiskOk(d) && !HasFolder(d, dirty)
    ensures Live(NextIndex(index, Probed(d, dirty, now), Some(dirty), me, now)) == OnDisk(d) <==> DirtyTellsAll(index, d, dirty)
  {
    var next := NextIndex(index, Probed(d, dirty, now), Some(dirty), me, now);
    MirrorsMeansEqual(next, d);
    forall rel
      ensures LiveAt(next, rel) == DiskAt(d, rel) <==>
        (!DirtyOrUnder(dirty, rel) ==> LiveAt(index, rel) == DiskAt(d, rel)) && (rel in dirty && rel in d.nodes ==> rel in d.listed)
    {
      IncrementalAt(index, d, dirty, me, now, rel);
    }
  }

  /** The incremental index and the index of a full rescan agree on what is live. */
  lemma IncrementalRefinesFull(index: map<string, FileEntry>, d: Disk, dirty: set<string>, out: map<string, Meta>, me: string, now: nat)
    requires DiskOk(d) && !HasFolder(d, dirty) && Walked(d, out) && |d.listed| <= MAX_LIBRARY_FILES
    ensures Live(NextIndex(index, Probed(d, dirty, now), Some(dirty), me, now)) == Live(NextIndex(index, out, None, me, now))
       <==> DirtyTellsAll(index, d, dirty)
  {
    FullScanExact(index, d, out, me, now);
    IncrementalScanExact(index, d, dirty, me, now);
  }

  /** A saved file of an ignored name: the watcher reports it, the incremental scan takes it
      in, and no full scan would. */
  lemma IgnoredFileTakenIn(me: string, now: nat)
    ensures var d := Disk(true, map["Thumbs.db" := File(1, 2)], {});
      && DiskOk(d) && !HasFolder(d, {"Thumbs.db"})
      && Live(NextIndex(map[], Probed(d, {"Thumbs.db"}, now), Some({"Thumbs.db"}), me, now)) != OnDisk(d)
  {
    var d := Disk(true, map["Thumbs.db" := File(1, 2)], {});
    assert forall i :: 0 <= i < 9 ==> "Thumbs.db"[i] != '/';
    IncrementalScanExact(map[], d, {"Thumbs.db"}, me, now);
    assert "Thumbs.db" in d.nodes;
  }

  // ─── The watcher ──────────────────────────────────────────────────────────

  function Slashes(s: string): string {
    if s == "" then "" else [if s[0] == '\\' then '/' else s[0]] + Slashes(s[1..])
  }

  function DropLeading(s: string): string {
    if s != "" && s[0] == '/' then DropLeading(s[1..]) else s
  }

  // The path of a change event, "" when it names none below the folder.
  function PathOf(name: string): string {
    DropLeading(Slashes(name))
  }

  lemma {:induction false} SlashesAt(s: string)
    ensures |Slashes(s)| == |s| && forall i :: 0 <= i < |s| ==> Slashes(s)[i] == if s[i] == '\\' then '/' else s[i]
  {
    if s != "" { SlashesAt(s[1..]); }
  }

  lemma {:induction false} DropLeadingAt(s: string) returns (k: nat)
    ensures k <= |s| && DropLeading(s) == s[k..] && (k < |s| ==> s[k] != '/') && forall i :: 0 <= i < k ==> s[i] == '/'
  {
    if s != "" && s[0] == '/' {
      k := DropLeadingAt(s[1..]);
      k := k + 1;
    } else {
      k := 0;
    }
  }

  predicate Separator(c: char) {
    c == '/' || c == '\\'
  }

  /** The path of an event is what follows the separators its name begins with, with every
      backslash turned into a slash. */
  lemma PathExact(name: string) returns (k: nat)
    ensures k <= |name| && (forall i :: 0 <= i < k ==> Separator(name[i])) && (k < |name| ==> !Separator(name[k]))
    ensures |PathOf(name)| == |name| - k
    ensures forall i :: 0 <= i < |name| - k ==> PathOf(name)[i] == if Separator(name[k + i]) then '/' else name[k + i]
  {
    SlashesAt(name);
    k := DropLeadingAt(Slashes(name));
    assert forall i :: 0 <= i < |name| ==> (Slashes(name)[i] == '/' <==> Separator(name[i]));
  }

  predicate Named(e: Option<string>) {
    e.Some? && e.value != ""
  }

  function Noted(dirty: Option<set<string>>, e: Option<string>): Option<set<string>> {
    if !Named(e) then None
    else
      var known := if dirty.Some? then dirty.value else {};
      var rel := PathOf(e.value);
      if rel == "" then Some(known)
      else if |known + {rel}| > MAX_DIRTY then None
      else Some(known + {rel})
  }

  // The dirty set after the events since the last scan.
  function AfterEvents(events: seq<Option<string>>): Option<set<string>> {
    if events == [] then None else Noted(AfterEvents(events[..|events| - 1]), events[|events| - 1])
  }

  function Paths(events: seq<Option<string>>): set<string> {
    if events == [] then {}
    else
      var e := events[|events| - 1];
      Paths(events[..|events| - 1]) + if Named(e) && PathOf(e.value) != "" then {PathOf(e.value)} else {}
  }

  predicate AllNamed(events: seq<Option<string>>) {
    forall e :: e in events ==> Named(e)
  }

  /** The events since the set was last given up.  It is given up by an event that names
      nothing, and by one that brings the paths since then to more than 200. */
  function Tail(events: seq<Option<string>>): seq<Option<string>> {
    if events == [] || !Named(events[|events| - 1]) then []
    else
      var longer := Tail(events[..|events| - 1]) + [events[|events| - 1]];
      if |Paths(longer)| > 200 then [] else longer
  }

  // The paths kept are those of the tail.
  lemma {:induction false} KeptIsTail(events: seq<Option<string>>)
    ensures AfterEvents(events) == if Tail(events) == [] then None else Some(Paths(Tail(events)))
    ensures |Paths(Tail(events))| <= MAX_DIRTY
  {
    if events != [] {
      var before, e := events[..|events| - 1], events[|events| - 1];
      KeptIsTail(before);
      if Named(e) {
        var longer := Tail(before) + [e];
        assert longer[..|longer| - 1] == Tail(before);
      }
    }
  }

  /** Nothing reported is lost: there are no paths to scan by, or every event named a path
      and each path was named again, or a folder above it was, since the set was last given
      up. */
  ghost predicate NoLoss(events: seq<Option<string>>) {
    var kept := Paths(Tail(events));
    kept == {} || (AllNamed(events) && forall rel :: rel in Paths(events) ==> DirtyOrUnder(kept, rel))
  }

  /** With every event naming a path and at most 200 of them, nothing is ever given up. */
  lemma {:induction false} FewPathsAreKept(events: seq<Option<string>>)
    requires AllNamed(events) && |Paths(events)| <= 200
    ensures Tail(events) == events && NoLoss(events)
  {
    hide NoLoss;
    if events != [] {
      var before, e := events[..|events| - 1], events[|events| - 1];
      assert e in events && AllNamed(before);
      SubsetSize(Paths(before), Paths(events));
      FewPathsAreKept(before);
      assert before + [e] == events;
    }
    AllKept(events);
  }

  lemma AllKept(events: seq<Option<string>>)
    ensures AllNamed(events) && Tail(events) == events ==> NoLoss(events)
  {
    hide Tail, Paths, AllNamed;
  }

  /** What the two scanners can return for a dirty set. */
  ghost predicate Scans(d: Disk, dirty: Option<set<string>>, full: bool, out: map<string, Meta>, within: Option<set<string>>, now: nat)
    requires DiskOk(d)
  {
    && within == (if !full && dirty.Some? && 0 < |dirty.value| <= MAX_DIRTY && !HasFolder(d, dirty.value) then dirty else None)
    && if within.Some? then out == Probed(d, within.value, now) else Walked(d, out)
  }

  // ─── The entries a scan leaves ────────────────────────────────────────────

  // The scan meets a file at the path.
  ghost predicate Meets(d: Disk, within: Option<set<string>>, rel: string) {
    if within.Some? then rel in within.value && rel != "" && rel in d.nodes && d.nodes[rel].File? else rel in d.listed
  }

  ghost predicate LooksAt(within: Option<set<string>>, rel: string) {
    within.Some? ==> DirtyOrUnder(within.value, rel)
  }

  ghost predicate WasLive(index: map<string, FileEntry>, rel: string) {
    rel in index && !index[rel].deleted
  }

  // A tombstone of ours, at the time of the scan.
  function Buried(prev: Option<FileEntry>, me: string, now: nat): FileEntry {
    FileEntry(if prev.Some? then prev.value.size else 0, now, if prev.Some? then prev.value.sig else NoSig, me, true)
  }

  // The entry of a file that is met.
  ghost predicate MetAs(index: map<string, FileEntry>, rel: string, n: Node, me: string, e: Option<FileEntry>)
    requires n.File?
  {
    e == Some(if WasLive(index, rel) && index[rel].sig == Sig(n.size, n.mtimeMs) then index[rel]
              else FileEntry(n.size, n.mtimeMs, Sig(n.size, n.mtimeMs), me, false))
  }

  ghost predicate EntryLeft(index: map<string, FileEntry>, d: Disk, within: Option<set<string>>, me: string, now: nat, rel: string, e: Option<FileEntry>)
    requires DiskOk(d)
  {
    if Meets(d, within, rel) then MetAs(index, rel, d.nodes[rel], me, e)
    else if !LooksAt(within, rel) then e == Find(index, rel)
    else if WasLive(index, rel) then e == Some(Buried(Find(index, rel), me, now))
    else if within.None? then e == None
    else if rel in within.value && rel != "" then e == Some(Buried(Find(index, rel), me, now))
    else e == Find(index, rel)
  }

  /** What the index says about a path after a scan.  A file that is met keeps its entry if its
      signature is the old one, and else gets one of ours; a live file that is not met where
      the scan looks leaves a tombstone of ours with its last size and signature; elsewhere
      nothing changes, except that a full scan forgets old tombstones and a probed path that
      is not there gets a tombstone, new or renewed. */
  lemma EntryExact(index: map<string, FileEntry>, d: Disk, dirty: Option<set<string>>, full: bool,
                   out: map<string, Meta>, within: Option<set<string>>, me: string, now: nat, rel: string)
    requires DiskOk(d) && Scans(d, dirty, full, out, within, now) && |d.listed| <= MAX_LIBRARY_FILES
    ensures EntryLeft(index, d, within, me, now, rel, Find(NextIndex(index, out, within, me, now), rel))
  {
    hide DiskOk, HasFolder, NextIndex;
    NextAt(index, out, within, me, now, rel);
    if within.None? {
      WalkedAll(d, out);
    } else {
      NoFolderHere(d, within.value, rel);
    }
  }

  lemma NextAt(index: map<string, FileEntry>, out: map<string, Meta>, within: Option<set<string>>, me: string, now: nat, rel: string)
    ensures Find(NextIndex(index, out, within, me, now), rel) ==
      if rel in out then Some(Scanned(Find(index, rel), out[rel], me, now))
      else if rel in index && index[rel].deleted && within.None? then None
      else if rel in index && (index[rel].deleted || Outside(within, rel)) then Some(index[rel])
      else if rel in index then Some(Gone(index[rel], me, now))
      else None
  {
  }

  lemma WalkedAll(d: Disk, out: map<string, Meta>)
    requires DiskOk(d) && Walked(d, out) && |d.listed| <= MAX_LIBRARY_FILES
    ensures out.Keys == d.listed
  {
    assert |out.Keys| == |d.listed|;
    EqualSize(out.Keys, d.listed);
  }

  lemma EqualSize<T>(a: set<T>, b: set<T>)
    requires a <= b && |a| == |b|
    ensures a == b
  {
    if x :| x in b && x !in a {
      SubsetSize(a, b - {x});
    }
  }

  lemma NoFolderHere(d: Disk, dirty: set<string>, rel: string)
    requires !HasFolder(d, dirty)
    ensures rel in dirty && rel != "" && rel in d.nodes ==> d.nodes[rel].File?
  {
  }

  /** Every path that differs between index and folder was named by an event, or lies below
      one that was, or some event named nothing. */
  ghost predicate Reported(index: map<string, FileEntry>, d: Disk, events: seq<Option<string>>)
    requires DiskOk(d)
  {
    AllNamed(events) ==> forall rel :: LiveAt(index, rel) != DiskAt(d, rel) ==> DirtyOrUnder(Paths(events), rel)
  }

  /** The walk meets the whole folder and lists each file an event named. */
  ghost predicate Seen(d: Disk, events: seq<Option<string>>) {
    |d.listed| <= MAX_LIBRARY_FILES && forall rel :: rel in Paths(events) && rel in d.nodes && d.nodes[rel].File? ==> rel in d.listed
  }

  lemma {:induction false} TailPaths(events: seq<Option<string>>)
    ensures Paths(Tail(events)) <= Paths(events) && "" !in Paths(events)
  {
    if events != [] {
      var before, e := events[..|events| - 1], events[|events| - 1];
      TailPaths(before);
      var longer := Tail(before) + [e];
      assert longer[..|longer| - 1] == Tail(before);
    }
  }

  lemma DirtyBelow(dirty: set<string>, p: string, rel: string)
    requires DirtyOrUnder(dirty, p) && Above(p, rel)
    ensures DirtyOrUnder(dirty, rel)
  {
    if p !in dirty {
      var dir :| dir in dirty && Above(dir, p);
      var i :| 0 <= i < |p| && p[i] == '/' && p[..i] == dir;
      var k :| 0 <= k < |rel| && rel[k] == '/' && rel[..k] == p;
      assert rel[i] == '/' && rel[..i] == dir;
    }
  }

  /** The next scan after reported changes leaves exactly the files of the folder live. */
  lemma NoLossMirrors(events: seq<Option<string>>, index: map<string, FileEntry>, d: Disk,
                      out: map<string, Meta>, within: Option<set<string>>, me: string, now: nat)
    requires DiskOk(d) && NoLoss(events) && Reported(index, d, events) && Seen(d, events)
    requires Scans(d, AfterEvents(events), false, out, within, now)
    ensures Live(NextIndex(index, out, within, me, now)) == OnDisk(d)
  {
    hide NextIndex, Live, OnDisk, Probed, Tail, Paths, AfterEvents;
    KeptIsTail(events);
    TailPaths(events);
    ScanExact(index, d, out, within, me, now);
    if within.Some? {
      var kept := within.value;
      forall rel | !DirtyOrUnder(kept, rel) ensures LiveAt(index, rel) == DiskAt(d, rel) {
        if DirtyOrUnder(Paths(events), rel) && rel !in Paths(events) {
          var p :| p in Paths(events) && Above(p, rel);
          DirtyBelow(kept, p, rel);
        }
      }
      assert forall rel :: rel in kept && rel in d.nodes ==> d.nodes[rel].File?;
    }
  }

  // ─── When something is lost ───────────────────────────────────────────────

  // A folder that lost its last file `rel`, with the file still in the index.
  function Remembered(rel: string): map<string, FileEntry> {
    map[rel := FileEntry(1, 1, Sig(1, 1), "", false)]
  }

  const EMPTIED := Disk(true, map[], {})

  lemma RememberedStays(dirty: set<string>, rel: string, me: string, now: nat)
    requires !DirtyOrUnder(dirty, rel)
    ensures DiskOk(EMPTIED) && !HasFolder(EMPTIED, dirty)
    ensures Live(NextIndex(Remembered(rel), Probed(EMPTIED, dirty, now), Some(dirty), me, now)) != OnDisk(EMPTIED)
  {
    IncrementalScanExact(Remembered(rel), EMPTIED, dirty, me, now);
    assert LiveAt(Remembered(rel), rel) != DiskAt(EMPTIED, rel);
  }

  lemma {:induction false} LongerThanAll(dirty: set<string>) returns (n: nat)
    ensures forall rel :: rel in dirty ==> |rel| < n
    decreases |dirty|
  {
    if dirty == {} {
      n := 0;
    } else {
      var rel :| rel in dirty;
      n := LongerThanAll(dirty - {rel});
      n := if n > |rel| then n else |rel| + 1;
    }
  }

  lemma FreshPath(dirty: set<string>) returns (rel: string)
    ensures !DirtyOrUnder(dirty, rel)
  {
    var n := LongerThanAll(dirty);
    rel := seq(n, _ => 'x');
  }

  /** When something reported was lost, some index and folder whose every difference was
      reported end up apart. */
  lemma LossLeavesGhost(events: seq<Option<string>>, me: string, now: nat) returns (rel: string)
    requires !NoLoss(events)
    ensures var dirty := Paths(Tail(events));
      && DiskOk(EMPTIED) && Reported(Remembered(rel), EMPTIED, events) && Seen(EMPTIED, events)
      && Scans(EMPTIED, AfterEvents(events), false, Probed(EMPTIED, dirty, now), Some(dirty), now)
      && Live(NextIndex(Remembered(rel), Probed(EMPTIED, dirty, now), Some(dirty), me, now)) != OnDisk(EMPTIED)
  {
    hide NextIndex, Live, OnDisk, Probed, Tail, AfterEvents;
    var dirty := Paths(Tail(events));
    KeptIsTail(events);
    TailPaths(events);
    if AllNamed(events) {
      rel :| rel in Paths(events) && !DirtyOrUnder(dirty, rel);
      assert forall q :: LiveAt(Remembered(rel), q) != DiskAt(EMPTIED, q) ==> q == rel;
    } else {
      rel := FreshPath(dirty);
    }
    RememberedStays(dirty, rel, me, now);
  }

  /** Whatever was reported, the next scan by these events mirrors the folder. */
  ghost predicate Covers(events: seq<Option<string>>) {
    forall index, d, out, within, me, now ::
      DiskOk(d) && Reported(index, d, events) && Seen(d, events) && Scans(d, AfterEvents(events), false, out, within, now)
      ==> Live(NextIndex(index, out, within, me, now)) == OnDisk(d)
  }

  /** Coverage of the watcher: reported changes always reach the index with the next scan if
      and only if no path named before the set was last given up is missing from those named
      since. */
  lemma WatcherCoverage(events: seq<Option<string>>)
    ensures Covers(events) <==> NoLoss(events)
  {
    hide NextIndex, Live, OnDisk, Probed, Tail, Paths, AfterEvents, Reported, Seen, Scans, NoLoss;
    if NoLoss(events) {
      forall index, d, out, within, me, now
        | DiskOk(d) && Reported(index, d, events) && Seen(d, events) && Scans(d, AfterEvents(events), false, out, within, now)
        ensures Live(NextIndex(index, out, within, me, now)) == OnDisk(d)
      {
        NoLossMirrors(events, index, d, out, within, me, now);
      }
    } else {
      var rel := LossLeavesGhost(events, "", 0);
    }
  }

  /** After an event that named nothing, the next named one alone decides what is scanned: a
      file deleted meanwhile, whose path is that one with a letter more, stays in the index. */
  lemma UnnamedChangeForgotten(name: string, me: string, now: nat)
    requires PathOf(name) != ""
    ensures var events: seq<Option<string>> := [None, Some(name)];
      var rel := PathOf(name);
      var index, dirty := Remembered(rel + "x"), {rel};
      && AfterEvents(events) == Some(dirty) && !NoLoss(events) && DiskOk(EMPTIED)
      && Reported(index, EMPTIED, events) && Seen(EMPTIED, events)
      && Scans(EMPTIED, Some(dirty), false, Probed(EMPTIED, dirty, now), Some(dirty), now)
      && Live(NextIndex(index, Probed(EMPTIED, dirty, now), Some(dirty), me, now)) != OnDisk(EMPTIED)
  {
    hide NextIndex, Live, OnDisk, Probed;
    var rel := PathOf(name);
    var events: seq<Option<string>> := [None, Some(name)];
    assert events[..1] == [None];
    assert {} + {rel} == {rel};
    assert events[0] in events && !Named(events[0]);
    assert !DirtyOrUnder({rel}, rel + "x");
    KeptIsTail(events);
    RememberedStays({rel}, rel + "x", me, now);
  }

  // ─── The library record ───────────────────────────────────────────────────

  predicate HadFiles(index: map<string, FileEntry>) {
    exists rel :: rel in index && !index[rel].deleted
  }

  /** The rows hold every entry of the index, and beyond it only old tombstones. */
  ghost predicate InStep(rows: map<string, FileEntry>, index: map<string, FileEntry>) {
    && (forall rel :: rel in index ==> rel in rows && rows[rel].sig == index[rel].sig && rows[rel].deleted == index[rel].deleted)
    && (forall rel :: rel in rows && rel !in index ==> rows[rel].deleted)
  }

  // A folder that is not there lists nothing, so a walk of it comes back empty.
  lemma AbsentIsEmpty(index: map<string, FileEntry>, d: Disk, out: map<string, Meta>, within: Option<set<string>>,
                      full: bool, dirty: Option<set<string>>, now: nat)
    requires DiskOk(d) && Scans(d, dirty, full, out, within, now)
    ensures !d.present && within.None? ==> |out| == 0
    ensures HadFiles(index) <==> Live(index) != map[]
  {
    if !d.present && within.None? {
      assert d.listed == {} by { assert forall rel :: rel in d.listed ==> rel in d.nodes; }
    }
    if rel :| rel in index && !index[rel].deleted {
      assert rel in Live(index);
    }
  }

  // An incremental scan reports on every path it was given, even if the folder is gone.
  lemma ProbedIsNotEmpty(d: Disk, events: seq<Option<string>>, full: bool, out: map<string, Meta>, within: Option<set<string>>, now: nat)
    requires DiskOk(d) && Scans(d, AfterEvents(events), full, out, within, now)
    ensures within.Some? ==> |out| > 0
  {
    if within.Some? {
      KeptIsTail(events);
      TailPaths(events);
      var rel :| rel in within.value;
      assert rel in out;
    }
  }

  // The index had files, the scan met none, and the folder does not exist.
  predicate FolderGone(index: map<string, FileEntry>, d: Disk, out: map<string, Meta>) {
    HadFiles(index) && |out| == 0 && !d.present
  }

  class Library {
    var index: map<string, FileEntry>
    // The rows of kind "index" in the store.
    var rows: map<string, FileEntry>
    var dirtyPaths: Option<set<string>>
    var paused: bool
    var lastScanAt: nat
    // The events heard since the last scan took the dirty set.
    ghost var heard: seq<Option<string>>

    ghost predicate Tracks()
      reads `dirtyPaths, `heard
    {
      dirtyPaths == AfterEvents(heard)
    }

    /** A watcher event.  While the library is paused it is not heard. */
    method OnFolderChange(e: Option<string>)
      requires Tracks()
      modifies `dirtyPaths, `heard
      ensures Tracks() && heard == if paused then old(heard) else old(heard) + [e]
    {
      if paused { return; }
      heard := heard + [e];
      assert heard[..|heard| - 1] == old(heard);
      if e.None? || e.value == "" {
        dirtyPaths := None;
        return;
      }
      if dirtyPaths.None? { dirtyPaths := Some({}); }
      var rel := PathOf(e.value);
      if rel != "" {
        dirtyPaths := Some(dirtyPaths.value + {rel});
        if |dirtyPaths.value| > MAX_DIRTY { dirtyPaths := None; }
      }
    }

    // One of the two scanners, and the dirty set if the incremental one was good enough.
    method Scan(d: Disk, full: bool, now: nat) returns (out: map<string, Meta>, within: Option<set<string>>)
      requires DiskOk(d)
      modifies `dirtyPaths
      ensures dirtyPaths == None
      ensures Scans(d, old(dirtyPaths), full, out, within, now)
    {
      var dirty := dirtyPaths;
      dirtyPaths := None;
      if !full && dirty.Some? && 0 < |dirty.value| <= MAX_DIRTY {
        var sawDir;
        out, sawDir := StatDirtyPaths(d, dirty.value, now);
        within := dirty;
        if sawDir {
          within := None;
          out := ScanFolder(d);
        }
      } else {
        within := None;
        out := ScanFolder(d);
      }
    }

    /** A scan that finds the folder gone pauses the library and keeps its index.  Any other
        scan makes the index mirror the folder exactly when the scan could see enough of
        it, as it could if every change was reported and no report was lost; and it keeps
        the rows in step. */
    method RunScan(d: Disk, full: bool, me: string, now: nat)
      returns (out: map<string, Meta>, within: Option<set<string>>)
      requires DiskOk(d) && InStep(rows, index) && Tracks()
      modifies this
      ensures InStep(rows, index) && Tracks() && heard == []
      ensures Scans(d, old(dirtyPaths), full, out, within, now)
      ensures if FolderGone(old(index), d, out)
        then paused && index == old(index) && rows == old(rows) && lastScanAt == old(lastScanAt)
        else paused == old(paused) && lastScanAt == now && Adopted(old(index), old(rows), d, out, within, me, now)
      ensures d.present ==>
        && paused == old(paused) && lastScanAt == now
        && (Live(index) == OnDisk(d) <==>
             if within.Some? then DirtyTellsAll(old(index), d, within.value) else |d.listed| <= MAX_LIBRARY_FILES)
      ensures !d.present && within.None? && Live(old(index)) != map[] ==>
        paused && index == old(index) && rows == old(rows) && lastScanAt == old(lastScanAt)
      ensures paused <==> old(paused) || (!d.present && within.None? && Live(old(index)) != map[])
      ensures !FolderGone(old(index), d, out) && !full && NoLoss(old(heard)) && Reported(old(index), d, old(heard)) && Seen(d, old(heard))
        ==> Live(index) == OnDisk(d)
    {
      hide NextIndex, Live, OnDisk, DirtyTellsAll, Probed, HasFolder, Changed, InStep, DiskOk, Walked, NoLoss, Reported, Seen, Scans, HadFiles;
      out, within := Scan(d, full, now);
      AbsentIsEmpty(index, d, out, within, full, old(dirtyPaths), now);
      ProbedIsNotEmpty(d, heard, full, out, within, now);
      heard := [];
      var hadFiles := HadFiles(index);
      if hadFiles && |out| == 0 && !d.present {
        paused := true;
        return;
      }
      Adopt(d, out, within, me, now);
      if !full && NoLoss(old(heard)) && Reported(old(index), d, old(heard)) && Seen(d, old(heard)) {
        NoLossMirrors(old(heard), old(index), d, out, within, me, now);
      }
    }

    method Pause()
      modifies `paused
      ensures paused
    {
      paused := true;
    }

    /** Resuming walks the whole folder, so what changed during the pause is not missed. */
    method Resume(d: Disk, me: string, now: nat) returns (out: map<string, Meta>)
      requires DiskOk(d) && InStep(rows, index) && Tracks()
      modifies this
      ensures InStep(rows, index) && Tracks() && heard == []
      ensures if FolderGone(old(index), d, out) then paused && index == old(index)
        else !paused && (Live(index) == OnDisk(d) <==> |d.listed| <= MAX_LIBRARY_FILES)
      ensures d.present ==> !paused && lastScanAt == now && (Live(index) == OnDisk(d) <==> |d.listed| <= 50000)
      ensures !d.present && Live(old(index)) != map[] ==> paused && index == old(index) && rows == old(rows) && lastScanAt == old(lastScanAt)
    {
      paused := false;
      var within;
      out, within := RunScan(d, true, me, now);
    }

    /** The index is the scan's, the rows gained what changed, and the live files are those
        of the folder exactly when the scan could see enough. */
    ghost predicate Adopted(before: map<string, FileEntry>, rowsBefore: map<string, FileEntry>, d: Disk,
                            out: map<string, Meta>, within: Option<set<string>>, me: string, now: nat)
      requires DiskOk(d)
      reads `index, `rows
    {
      && index == NextIndex(before, out, within, me, now)
      && rows == rowsBefore + Changed(before, index)
      && (Live(index) == OnDisk(d) <==>
           if within.Some? then DirtyTellsAll(before, d, within.value) else |d.listed| <= MAX_LIBRARY_FILES)
    }

    method Adopt(d: Disk, out: map<string, Meta>, within: Option<set<string>>, me: string, now: nat)
      requires DiskOk(d) && InStep(rows, index)
      requires if within.Some? then !HasFolder(d, within.value) && out == Probed(d, within.value, now) else Walked(d, out)
      modifies `index, `rows, `lastScanAt
      ensures InStep(rows, index) && lastScanAt == now
      ensures Adopted(old(index), old(rows), d, out, within, me, now)
    {
      hide NextIndex, Live, OnDisk, DirtyTellsAll, Probed, HasFolder, Changed, InStep, DiskOk, Walked;
      var next := BuildIndex(index, out, within, me, now);
      var changed := CollectChanged(index, next);
      ScanExact(index, d, out, within, me, now);
      RowsFollow(rows, index, next, out, within, me, now);
      rows := rows + changed;
      index := next;
      lastScanAt := now;
    }
  }

  lemma RowsFollow(rows: map<string, FileEntry>, index: map<string, FileEntry>, next: map<string, FileEntry>,
                   out: map<string, Meta>, within: Option<set<string>>, me: string, now: nat)
    requires InStep(rows, index) && next == NextIndex(index, out, within, me, now)
    ensures InStep(rows + Changed(index, next), next)
  {
  }

  /** A library loaded from its rows has the live files it had in memory. */
  lemma RowsReload(rows: map<string, FileEntry>, index: map<string, FileEntry>)
    requires InStep(rows, index)
    ensures Live(rows) == Live(index)
  {
    forall rel ensures rel in Live(rows) <==> rel in Live(index) {
      assert rel in index || rel !in index;
    }
  }
}
