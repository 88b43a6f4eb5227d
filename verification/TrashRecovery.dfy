/** The trash folder of a library: markers left by an interrupted replacement are healed by
    moving the displaced copy back, and entries past their retention are purged. */
module TrashRecovery {
  import opened Collections
  import opened Options

  /** A file.  `dest` is the destPath its text records, if it parses as a marker. */
  datatype Item = Item(mtime: int, content: string, dest: Option<string>)

  datatype Folder = Folder(live: map<string, Item>, trash: map<string, Item>)

  datatype Clock = Clock(now: int, cutoff: int)

  const SUFFIX := ".meta.json"

  predicate IsMarker(name: string) {
    |name| >= |SUFFIX| && name[|name| - |SUFFIX|..] == SUFFIX
  }

  function CopyOf(marker: string): string
    requires IsMarker(marker)
  {
    marker[..|marker| - |SUFFIX|]
  }

  lemma CopyDetermines(marker: string)
    requires IsMarker(marker)
    ensures marker == CopyOf(marker) + SUFFIX
  {
  }

  // ─── One entry ────────────────────────────────────────────────────────────

  function Remove(f: Folder, name: string): Folder {
    f.(trash := f.trash - {name})
  }

  // What a marker that can be read asks for.
  predicate Restores(f: Folder, marker: string)
    requires IsMarker(marker)
  {
    && marker in f.trash && f.trash[marker].dest.Some?
    && f.trash[marker].dest.value !in f.live && CopyOf(marker) in f.trash
  }

  function Recover(f: Folder, marker: string): Folder
    requires IsMarker(marker)
  {
    if marker !in f.trash || f.trash[marker].dest.None? then f
    else if !Restores(f, marker) then Remove(f, marker)
    else
      var copy := CopyOf(marker);
      Remove(Folder(f.live[f.trash[marker].dest.value := f.trash[copy]], f.trash - {copy}), marker)
  }

  function MtimeOf(f: Folder, name: string): int {
    if name in f.trash then f.trash[name].mtime else 0
  }

  // A marker that restored nothing is purged by comparing its age with the cutoff time.
  function Visit(f: Folder, name: string, t: Clock): Folder {
    if IsMarker(name) then
      var g := Recover(f, name);
      if !Restores(f, name) && t.now - MtimeOf(g, name) > t.cutoff then Remove(g, name) else g
    else if name in f.trash && f.trash[name].mtime < t.cutoff then Remove(f, name)
    else f
  }

  /** What becomes of an entry at its turn.  A marker that can be read puts its copy back where
      nothing is, and is used up either way; one that cannot be read is purged when its age
      exceeds the cutoff time; any other entry, when it is older than the cutoff. */
  lemma VisitExact(f: Folder, name: string, t: Clock)
    requires name in f.trash
    ensures var g := Visit(f, name, t);
      if |name| < 10 || name[|name| - 10..] != ".meta.json" then
        g.live == f.live && g.trash == (if f.trash[name].mtime < t.cutoff then f.trash - {name} else f.trash)
      else if f.trash[name].dest.None? then
        g.live == f.live && g.trash == (if t.now - f.trash[name].mtime > t.cutoff then f.trash - {name} else f.trash)
      else
        var copy, d := name[..|name| - 10], f.trash[name].dest.value;
        if d in f.live || copy !in f.trash then g == Folder(f.live, f.trash - {name})
        else g == Folder(f.live[d := f.trash[copy]], f.trash - {copy} - {name})
  {
  }

  // The pass over the names as they were listed.
  function Pass(f: Folder, names: seq<string>, t: Clock): Folder {
    if names == [] then f else Visit(Pass(f, names[..|names| - 1], t), names[|names| - 1], t)
  }

  // ─── Conservation ─────────────────────────────────────────────────────────

  /** Markers stand beside copies that are not themselves named like markers. */
  ghost predicate WellNamed(f: Folder) {
    forall m :: m in f.trash && IsMarker(m) ==> !IsMarker(CopyOf(m))
  }

  // The copy was put back at d by its own marker.
  ghost predicate PutBack(was: Folder, f: Folder, marker: string) {
    && IsMarker(marker) && marker in was.trash && was.trash[marker].dest.Some? && CopyOf(marker) in was.trash
    && var d := was.trash[marker].dest.value; d !in was.live && d in f.live && f.live[d] == was.trash[CopyOf(marker)]
  }

  /** Nothing is overwritten or altered, and every live file that is new is a copy put back. */
  ghost predicate Conserves(was: Folder, f: Folder) {
    && (forall d :: d in was.live ==> d in f.live && f.live[d] == was.live[d])
    && (forall n :: n in f.trash ==> n in was.trash && f.trash[n] == was.trash[n])
    && (forall d :: d in f.live && d !in was.live ==> FromCopy(was, f, d))
  }

  ghost predicate FromCopy(was: Folder, f: Folder, d: string) {
    exists m :: PutBack(was, f, m) && was.trash[m].dest == Some(d) && m !in f.trash && CopyOf(m) !in f.trash
  }

  lemma FromCopyStays(was: Folder, f: Folder, g: Folder, d: string)
    requires FromCopy(was, f, d) && d in f.live && d in g.live && g.live[d] == f.live[d]
    requires forall n :: n in g.trash ==> n in f.trash
    ensures FromCopy(was, g, d)
  {
    hide IsMarker;
    var m :| PutBack(was, f, m) && was.trash[m].dest == Some(d) && m !in f.trash && CopyOf(m) !in f.trash;
    assert PutBack(was, g, m);
  }

  /** An entry leaves the trash only past its retention, or put back, or as a marker. */
  ghost predicate Accounts(was: Folder, f: Folder, visited: seq<string>, t: Clock) {
    forall n :: n in was.trash && !IsMarker(n) && n !in f.trash ==>
      (was.trash[n].mtime < t.cutoff && n in visited) || (n + SUFFIX in visited && PutBack(was, f, n + SUFFIX))
  }

  // Old entries already visited are gone; markers not yet visited are all there.
  ghost predicate Swept(was: Folder, f: Folder, visited: seq<string>, t: Clock) {
    && (forall n :: n in visited && !IsMarker(n) && n in was.trash && was.trash[n].mtime < t.cutoff ==> n !in f.trash)
    && (forall m :: m in was.trash && IsMarker(m) && m !in visited ==> m in f.trash)
    && (forall m :: m in visited && m in f.trash && IsMarker(m) ==> f.trash[m].dest.None?)
  }

  lemma ConservesVisit(was: Folder, f: Folder, name: string, t: Clock)
    requires Conserves(was, f)
    ensures Conserves(was, Visit(f, name, t))
  {
    hide IsMarker, CopyOf;
    var g := Visit(f, name, t);
    if IsMarker(name) && Restores(f, name) {
      assert PutBack(was, g, name);
    }
    forall d | d in g.live && d !in was.live ensures FromCopy(was, g, d) {
      if d in f.live {
        FromCopyStays(was, f, g, d);
      }
    }
  }

  lemma AccountsVisit(was: Folder, f: Folder, visited: seq<string>, name: string, t: Clock)
    requires Conserves(was, f) && Accounts(was, f, visited, t)
    ensures Accounts(was, Visit(f, name, t), visited + [name], t)
  {
    var g := Visit(f, name, t);
    forall n | n in was.trash && !IsMarker(n) && n !in g.trash
      ensures (was.trash[n].mtime < t.cutoff && n in visited + [name]) || (n + SUFFIX in visited + [name] && PutBack(was, g, n + SUFFIX))
    {
      if n !in f.trash {
        if n + SUFFIX in visited && PutBack(was, f, n + SUFFIX) {
          assert PutBack(was, g, n + SUFFIX);
        }
      } else if IsMarker(name) {
        CopyDetermines(name);
        assert Restores(f, name) && n == CopyOf(name);
        assert PutBack(was, g, name);
      } else {
        assert n == name;
      }
    }
  }

  lemma SweptVisit(was: Folder, f: Folder, visited: seq<string>, name: string, t: Clock)
    requires WellNamed(was) && Conserves(was, f) && Swept(was, f, visited, t)
    ensures Swept(was, Visit(f, name, t), visited + [name], t)
  {
  }

  lemma {:induction false} PassAccounts(was: Folder, names: seq<string>, t: Clock)
    ensures var f := Pass(was, names, t); Conserves(was, f) && Accounts(was, f, names, t)
  {
    if names != [] {
      var init, last := names[..|names| - 1], names[|names| - 1];
      PassAccounts(was, init, t);
      ConservesVisit(was, Pass(was, init, t), last, t);
      AccountsVisit(was, Pass(was, init, t), init, last, t);
      assert init + [last] == names;
    }
  }

  lemma {:induction false} PassSweeps(was: Folder, names: seq<string>, t: Clock)
    requires WellNamed(was)
    ensures Swept(was, Pass(was, names, t), names, t)
  {
    if names != [] {
      var init, last := names[..|names| - 1], names[|names| - 1];
      PassSweeps(was, init, t);
      PassAccounts(was, init, t);
      SweptVisit(was, Pass(was, init, t), init, last, t);
      assert init + [last] == names;
    }
  }

  lemma PassKeeps(was: Folder, names: seq<string>, t: Clock)
    requires WellNamed(was)
    ensures var f := Pass(was, names, t); Conserves(was, f) && Accounts(was, f, names, t) && Swept(was, f, names, t)
  {
    PassAccounts(was, names, t);
    PassSweeps(was, names, t);
  }

  /** No live file is touched, and content newer than the cutoff survives the pass: still
      in the trash, or back at the path its marker records. */
  lemma PassConserves(f: Folder, names: seq<string>, t: Clock, name: string)
    ensures var after := Pass(f, names, t);
      && (forall d :: d in f.live ==> d in after.live && after.live[d] == f.live[d])
      && (name in f.trash && !IsMarker(name) && f.trash[name].mtime >= t.cutoff ==>
           || (name in after.trash && after.trash[name] == f.trash[name])
           || (PutBack(f, after, name + SUFFIX) && CopyOf(name + SUFFIX) == name))
  {
    PassAccounts(f, names, t);
    assert IsMarker(name + SUFFIX) && CopyOf(name + SUFFIX) == name;
  }

  // ─── What is restored ─────────────────────────────────────────────────────

  /** The marker's copy is still there when the marker is reached: it is young enough, or
      comes later in the listing. */
  ghost predicate InTime(f: Folder, names: seq<string>, t: Clock, marker: string) {
    && IsMarker(marker) && CopyOf(marker) in f.trash
    && (f.trash[CopyOf(marker)].mtime >= t.cutoff || exists i :: 0 <= i < |names| && names[i] == marker && CopyOf(marker) !in names[..i])
  }

  ghost predicate Asks(f: Folder, marker: string, d: string) {
    IsMarker(marker) && marker in f.trash && f.trash[marker].dest == Some(d) && CopyOf(marker) in f.trash
  }

  // A marker whose copy is in time leaves its path filled.
  lemma AskedIsFilled(f: Folder, names: seq<string>, t: Clock, marker: string, d: string, k: nat)
    requires WellNamed(f) && Distinct(names) && Asks(f, marker, d) && InTime(f, names, t, marker)
    requires k < |names| && names[k] == marker
    ensures d in Pass(f, names[..k + 1], t).live
  {
    var copy := CopyOf(marker);
    CopyDetermines(marker);
    var before := Pass(f, names[..k], t);
    PassKeeps(f, names[..k], t);
    assert names[..k + 1][..k] == names[..k];
    assert marker !in names[..k];
    assert marker in before.trash;
    if f.trash[copy].mtime < t.cutoff {
      var i :| 0 <= i < |names| && names[i] == marker && copy !in names[..i];
      assert i == k;
    }
    assert copy in before.trash;
  }

  lemma {:induction false} LiveGrows(f: Folder, names: seq<string>, t: Clock, k: nat, d: string)
    requires k <= |names| && d in Pass(f, names[..k], t).live
    ensures d in Pass(f, names, t).live
    decreases |names| - k
  {
    if k == |names| {
      assert names[..k] == names;
    } else {
      assert names[..k + 1][..k] == names[..k];
      LiveGrows(f, names, t, k + 1, d);
    }
  }

  // A path filled by the pass was asked for by a marker whose copy was in time.
  lemma {:induction false} FilledWasAsked(f: Folder, names: seq<string>, t: Clock, n: nat, d: string)
    returns (marker: string)
    requires WellNamed(f) && n <= |names| && d !in f.live && d in Pass(f, names[..n], t).live
    ensures Asks(f, marker, d) && InTime(f, names, t, marker)
    decreases n
  {
    var before := Pass(f, names[..n - 1], t);
    assert names[..n][..n - 1] == names[..n - 1];
    if d in before.live {
      marker := FilledWasAsked(f, names, t, n - 1, d);
    } else {
      PassKeeps(f, names[..n - 1], t);
      marker := names[n - 1];
      var copy := CopyOf(marker);
      assert copy in before.trash && marker in before.trash;
      if f.trash[copy].mtime < t.cutoff {
        assert copy !in names[..n - 1];
      }
    }
  }

  /** A missing live path is filled by a pass over the whole listing if and only if some
      marker asks for it whose copy is there in time; it then holds one such copy. */
  lemma FilledExactly(f: Folder, names: seq<string>, t: Clock, d: string)
    requires WellNamed(f) && Distinct(names) && (forall n :: n in f.trash ==> n in names) && d !in f.live
    ensures var after := Pass(f, names, t);
      && (d in after.live <==> exists m :: Asks(f, m, d) && InTime(f, names, t, m))
      && (d in after.live ==> exists m :: Asks(f, m, d) && after.live[d] == f.trash[CopyOf(m)])
  {
    hide *;
    if d in Pass(f, names, t).live {
      var m := FilledIsAsked(f, names, t, d);
    }
    if m :| Asks(f, m, d) && InTime(f, names, t, m) {
      AskedIsFilledAtLast(f, names, t, m, d);
    }
  }

  lemma FilledIsAsked(f: Folder, names: seq<string>, t: Clock, d: string) returns (m: string)
    requires WellNamed(f) && d !in f.live && d in Pass(f, names, t).live
    ensures Asks(f, m, d) && InTime(f, names, t, m)
    ensures exists n :: Asks(f, n, d) && Pass(f, names, t).live[d] == f.trash[CopyOf(n)]
  {
    hide IsMarker, CopyOf, Pass;
    assert names[..|names|] == names;
    m := FilledWasAsked(f, names, t, |names|, d);
    PassKeeps(f, names, t);
    var n :| PutBack(f, Pass(f, names, t), n) && f.trash[n].dest == Some(d);
    assert Asks(f, n, d);
  }

  lemma AskedIsFilledAtLast(f: Folder, names: seq<string>, t: Clock, m: string, d: string)
    requires WellNamed(f) && Distinct(names) && (forall n :: n in f.trash ==> n in names)
    requires Asks(f, m, d) && InTime(f, names, t, m)
    ensures d in Pass(f, names, t).live
  {
    hide IsMarker, CopyOf, Pass;
    var k :| 0 <= k < |names| && names[k] == m;
    AskedIsFilled(f, names, t, m, d, k);
    LiveGrows(f, names, t, k + 1, d);
  }

  /** In particular when every displaced copy is newer than the cutoff. */
  lemma YoungCopiesRestored(f: Folder, names: seq<string>, t: Clock, d: string)
    requires WellNamed(f) && Distinct(names) && (forall n :: n in f.trash ==> n in names) && d !in f.live
    requires forall m :: IsMarker(m) && m in f.trash && CopyOf(m) in f.trash ==> f.trash[CopyOf(m)].mtime >= t.cutoff
    ensures d in Pass(f, names, t).live <==> exists m :: Asks(f, m, d)
  {
    FilledExactly(f, names, t, d);
    if m :| Asks(f, m, d) {
      assert InTime(f, names, t, m);
    }
  }

  /** A copy older than the cutoff and listed before its marker is purged, and its path
      stays missing. */
  lemma OldCopyLost(content: string, t: Clock)
    requires t.cutoff > 0
    ensures var f := Folder(map[], map["a" := Item(0, content, None), "a.meta.json" := Item(t.now, "", Some("d"))]);
      Asks(f, "a.meta.json", "d") && "d" !in Pass(f, ["a", "a.meta.json"], t).live && "a" !in Pass(f, ["a", "a.meta.json"], t).trash
  {
    var f := Folder(map[], map["a" := Item(0, content, None), "a.meta.json" := Item(t.now, "", Some("d"))]);
    assert CopyOf("a.meta.json") == "a";
    assert ["a", "a.meta.json"][..1] == ["a"] && ["a"][..0] == [];
    assert Pass(f, ["a"], t) == Visit(f, "a", t);
  }

  /** A second pass, whatever happened to the live files and the clock in between, restores
      nothing: no marker that names a path is left. */
  lemma SecondPassRestoresNothing(f: Folder, names: seq<string>, t: Clock, live: map<string, Item>, again: seq<string>, later: Clock)
    requires WellNamed(f) && (forall n :: n in f.trash ==> n in names)
    ensures Pass(Folder(live, Pass(f, names, t).trash), again, later).live == live
  {
    PassKeeps(f, names, t);
    NoMarkersNoRestore(Folder(live, Pass(f, names, t).trash), again, later);
  }

  lemma {:induction false} NoMarkersNoRestore(f: Folder, names: seq<string>, t: Clock)
    requires forall m :: m in f.trash && IsMarker(m) ==> f.trash[m].dest.None?
    ensures var g := Pass(f, names, t); g.live == f.live && forall n :: n in g.trash ==> n in f.trash && g.trash[n] == f.trash[n]
  {
    if names != [] {
      NoMarkersNoRestore(f, names[..|names| - 1], t);
    }
  }

  // ─── The folder in place ──────────────────────────────────────────────────

  class Library {
    var live: map<string, Item>
    var trash: map<string, Item>

    ghost function Now(): Folder
      reads this
    {
      Folder(live, trash)
    }

    method RemoveEntry(name: string)
      modifies `trash
      ensures Now() == Remove(old(Now()), name)
    {
      trash := trash - {name};
    }

    method RecoverDisplaced(marker: string) returns (restored: bool)
      requires IsMarker(marker)
      modifies this
      ensures Now() == Recover(old(Now()), marker)
      ensures restored <==> Restores(old(Now()), marker)
    {
      if marker !in trash { return false; }
      var meta := trash[marker];
      if meta.dest.None? { return false; }
      var displaced := CopyOf(marker);
      var displacedExists := displaced in trash;
      var liveExists := meta.dest.value in live;
      if liveExists {
        RemoveEntry(marker);
        return false;
      }
      if !displacedExists {
        RemoveEntry(marker);
        return false;
      }
      live := live[meta.dest.value := trash[displaced]];
      trash := trash - {displaced};
      RemoveEntry(marker);
      return true;
    }

    method VisitEntry(name: string, t: Clock) returns (restored: bool)
      modifies this
      ensures Now() == Visit(old(Now()), name, t)
      ensures restored <==> IsMarker(name) && Restores(old(Now()), name)
    {
      restored := false;
      if IsMarker(name) {
        restored := RecoverDisplaced(name);
        if !restored && t.now - MtimeOf(Folder(live, trash), name) > t.cutoff { RemoveEntry(name); }
        return;
      }
      if name !in trash { return; }
      if trash[name].mtime < t.cutoff { RemoveEntry(name); }
    }

    /** One pass over the listing: what it restores is what becomes live. */
    method TrashMaintenance(names: seq<string>, t: Clock) returns (restored: nat)
      modifies this
      ensures Now() == Pass(old(Now()), names, t)
      ensures |live| == old(|live|) + restored
    {
      restored := 0;
      for i := 0 to |names|
        invariant Now() == Pass(old(Now()), names[..i], t)
        invariant |live| == old(|live|) + restored
      {
        assert names[..i + 1][..i] == names[..i];
        var restored1 := VisitEntry(names[i], t);
        if restored1 { restored := restored + 1; }
      }
      assert names[..|names|] == names;
    }
  }
}
