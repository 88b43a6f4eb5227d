/** Whole runs of an engine, restarts included: where a trusted row, a trusted record and a
    served request come from, and what is remembered. */
module PairingHistory {
  import opened Options
  import opened Pairing
  import opened LinkInvariants
  import opened PairingEffects
  import opened PairingStanding
  import opened PairingExchange
  import opened PairingRecord

  ghost function Before(l: Link, steps: seq<Step>, k: nat): Link
    requires k <= |steps|
  {
    RunLink(l, steps[..k])
  }

  // The state before the last step, and that step's effect on standing and events.
  lemma LastStep(l: Link, steps: seq<Step>)
    requires LinkOk(l) && steps != []
    ensures var n := |steps| - 1;
      var s, b := steps[n], Before(l, steps, n);
      && LinkOk(b) && RunLink(l, steps) == Next(s.secrets, s.env, b, s.input)
      && StandingStep(s.secrets, s.env, b, s.input, RunLink(l, steps))
      && RunLink(l, steps).events == b.events + Told(s.secrets, s.env, b, s.input)
  {
    hide StandingStep, Next, Told;
    var n := |steps| - 1;
    var s, b := steps[n], Before(l, steps, n);
    RunKeepsLinkOk(l, steps[..n]);
    StandingExact(s.secrets, s.env, b, s.input);
    EventsExact(s.secrets, s.env, b, s.input);
  }

  lemma Earlier(l: Link, steps: seq<Step>, n: nat, k: nat)
    requires k <= n <= |steps|
    ensures Before(l, steps[..n], k) == Before(l, steps, k)
  {
    assert steps[..n][..k] == steps[..k];
  }

  // ─── The stored row ───────────────────────────────────────────────────────

  // Step k writes the devices row: trusted for a paired peer, untrusted for a LAN peer.
  ghost predicate WritesRowAt(l: Link, steps: seq<Step>, k: nat, trusted: bool)
    requires k < |steps|
  {
    steps[k].input == WriteRow(trusted) || Finishes(Before(l, steps, k), steps[k].input, !trusted)
  }

  ghost predicate LastWriteAt(l: Link, steps: seq<Step>, k: nat, trusted: bool)
    requires k < |steps|
  {
    && WritesRowAt(l, steps, k, trusted)
    && (forall j, t :: k < j < |steps| ==> !WritesRowAt(l, steps, j, t))
  }

  ghost predicate NeverWritten(l: Link, steps: seq<Step>) {
    forall j, t :: 0 <= j < |steps| ==> !WritesRowAt(l, steps, j, t)
  }

  ghost predicate WrittenLast(l: Link, steps: seq<Step>, trusted: bool) {
    exists k :: 0 <= k < |steps| && LastWriteAt(l, steps, k, trusted)
  }

  lemma LastRow(l: Link, steps: seq<Step>)
    requires LinkOk(l) && steps != []
    ensures var n := |steps| - 1;
      && !(WritesRowAt(l, steps, n, true) && WritesRowAt(l, steps, n, false))
      && RunLink(l, steps).disk.row ==
         if WritesRowAt(l, steps, n, true) then true
         else if WritesRowAt(l, steps, n, false) then false
         else RunLink(l, steps[..n]).disk.row
  {
    hide Told, KeyStep, RevocationStep, RecordStep, JobsStep;
    LastStep(l, steps);
  }

  lemma WritesEarlier(l: Link, steps: seq<Step>, n: nat)
    requires n <= |steps|
    ensures forall k, t :: 0 <= k < n ==> (WritesRowAt(l, steps[..n], k, t) <==> WritesRowAt(l, steps, k, t))
  {
    forall k, t | 0 <= k < n ensures WritesRowAt(l, steps[..n], k, t) <==> WritesRowAt(l, steps, k, t) {
      Earlier(l, steps, n, k);
    }
  }

  // A last step that writes nothing leaves the last write where it was.
  lemma LastWriteStays(l: Link, steps: seq<Step>, trusted: bool)
    requires steps != [] && !WritesRowAt(l, steps, |steps| - 1, true) && !WritesRowAt(l, steps, |steps| - 1, false)
    ensures WrittenLast(l, steps, trusted) <==> WrittenLast(l, steps[..|steps| - 1], trusted)
    ensures NeverWritten(l, steps) <==> NeverWritten(l, steps[..|steps| - 1])
  {
    hide WritesRowAt;
    var n := |steps| - 1;
    WritesEarlier(l, steps, n);
    forall k | 0 <= k < n ensures LastWriteAt(l, steps[..n], k, trusted) <==> LastWriteAt(l, steps, k, trusted) {
    }
    if k :| 0 <= k < n && LastWriteAt(l, steps[..n], k, trusted) {
      assert LastWriteAt(l, steps, k, trusted);
    }
  }

  lemma OneLastWrite(l: Link, steps: seq<Step>, trusted: bool)
    requires LinkOk(l) && steps != [] && WritesRowAt(l, steps, |steps| - 1, trusted)
    ensures WrittenLast(l, steps, trusted) && !WrittenLast(l, steps, !trusted) && !NeverWritten(l, steps)
  {
    hide WritesRowAt;
    var n := |steps| - 1;
    LastRow(l, steps);
    assert LastWriteAt(l, steps, n, trusted);
  }

  lemma NothingWritten(l: Link)
    ensures NeverWritten(l, []) && forall t :: !WrittenLast(l, [], t)
  {
  }

  /** The stored row is what its last write left: a trusted row comes from a finished
      application for a paired peer or from an explicit write, whatever restarts there were. */
  lemma {:induction false} RowProvenance(l: Link, steps: seq<Step>)
    requires LinkOk(l)
    ensures RunLink(l, steps).disk.row <==> WrittenLast(l, steps, true) || (NeverWritten(l, steps) && l.disk.row)
    ensures WrittenLast(l, steps, true) || WrittenLast(l, steps, false) || NeverWritten(l, steps)
  {
    hide WritesRowAt, WrittenLast;
    if steps == [] {
      NothingWritten(l);
    } else {
      var n := |steps| - 1;
      RowProvenance(l, steps[..n]);
      LastRow(l, steps);
      if t: bool :| WritesRowAt(l, steps, n, t) {
        OneLastWrite(l, steps, t);
      } else {
        LastWriteStays(l, steps, true);
        LastWriteStays(l, steps, false);
      }
    }
  }

  // ─── A stranger stays one ─────────────────────────────────────────────────

  // The key earned its trust: a right answer with a code of ours, or the user's word.
  ghost predicate EarnsAt(l: Link, steps: seq<Step>, k: nat)
    requires k < |steps|
  {
    var b := Before(l, steps, k);
    Admits(steps[k].secrets, b, steps[k].input) || Confirms(b, steps[k].input) || steps[k].input == WriteRow(true)
  }

  // Nothing that is kept about the key, in memory or stored, makes it trusted.
  ghost predicate Stranger(l: Link) {
    && !l.disk.row && !l.trustedKey
    && (l.conn.Some? ==> !l.conn.value.trust.trusted)
    && (forall j :: 0 <= j < |l.jobs| ==> l.jobs[j].lanOnly)
  }

  lemma StrangerStep(secrets: seq<Secret>, env: Env, l: Link, input: Input, m: Link)
    requires LinkOk(l) && Stranger(l) && StandingStep(secrets, env, l, input, m)
    requires m == Next(secrets, env, l, input)
    requires !Admits(secrets, l, input) && !Confirms(l, input) && input != WriteRow(true)
    ensures Stranger(m)
  {
    hide Next, Admits, Confirms, Refuses, Fails, Reconfirms, Names, Applies, Arrives, RevocationStep;
    if input.Open? {
      OpenExact(secrets, env, l, input.side, input.lan);
    }
    OnlyOpenMakesRecords(secrets, env, l, input);
  }

  /** A key that nobody verified, confirmed or wrote a trusted row for is never trusted: not
      on any connection, not by a LAN application however often it is finished, and not
      after any restart. */
  lemma {:induction false} StrangersStayOut(saved: Option<nat>, steps: seq<Step>)
    requires forall k :: 0 <= k < |steps| ==> !EarnsAt(Started(false, saved), steps, k)
    ensures var l := RunLink(Started(false, saved), steps);
      Stranger(l) && !IsTrustedPublicKey(l) && !IsTrustedPublicKey(Restart(l))
  {
    hide EarnsAt, Next, StandingStep;
    var l := Started(false, saved);
    if steps != [] {
      var n := |steps| - 1;
      forall k | 0 <= k < n ensures !EarnsAt(l, steps[..n], k) { EarnsEarlier(l, steps, n, k); }
      StrangersStayOut(saved, steps[..n]);
      LastStep(l, steps);
      NotEarned(l, steps, n);
      StrangerStep(steps[n].secrets, steps[n].env, Before(l, steps, n), steps[n].input, RunLink(l, steps));
    }
  }

  lemma EarnsEarlier(l: Link, steps: seq<Step>, n: nat, k: nat)
    requires k < n <= |steps|
    ensures EarnsAt(l, steps[..n], k) <==> EarnsAt(l, steps, k)
  {
    Earlier(l, steps, n, k);
  }

  lemma NotEarned(l: Link, steps: seq<Step>, k: nat)
    requires k < |steps| && !EarnsAt(l, steps, k)
    ensures var b := Before(l, steps, k);
      !Admits(steps[k].secrets, b, steps[k].input) && !Confirms(b, steps[k].input) && steps[k].input != WriteRow(true)
  {
  }

  // ─── A paired key is remembered ───────────────────────────────────────────

  // Step k takes the key's trust back: a removal, an untrusted row, or a restart that loses
  // the write that ended its last revocation.
  ghost predicate TakesBackAt(l: Link, steps: seq<Step>, k: nat)
    requires k < |steps|
  {
    Removes(Before(l, steps, k), steps[k].input) || WritesRowAt(l, steps, k, false) || WriteLostAt(l, steps, k)
  }

  // Step k finishes the application of a paired peer's handshake, of a key not revoked.
  ghost predicate PairedAt(l: Link, steps: seq<Step>, k: nat)
    requires k < |steps|
  {
    Finishes(Before(l, steps, k), steps[k].input, false) && Before(l, steps, k).revokedAt.None?
  }

  ghost predicate Remembered(l: Link) {
    l.disk.row && l.trustedKey && l.revokedAt.None?
  }

  lemma PairedNow(l: Link, steps: seq<Step>)
    requires LinkOk(l) && steps != [] && PairedAt(l, steps, |steps| - 1)
    ensures Remembered(RunLink(l, steps))
  {
    hide Told, JobsStep, RecordStep;
    LastStep(l, steps);
  }

  lemma PairedBefore(l: Link, steps: seq<Step>)
    requires LinkOk(l) && steps != [] && Remembered(RunLink(l, steps[..|steps| - 1])) && !TakesBackAt(l, steps, |steps| - 1)
    ensures Remembered(RunLink(l, steps))
  {
    hide Told, JobsStep, RecordStep;
    LastStep(l, steps);
  }

  lemma RestartKeeps(l: Link)
    requires LinkOk(l) && Remembered(l) && l.disk.writes == []
    ensures IsTrustedPublicKey(Restart(l))
  {
  }

  /** Once the application of a paired peer's handshake has finished, its key is trusted at
      every later point, restarts included, until it is removed, its row is written
      untrusted, or a crash loses a queued write. */
  lemma {:induction false} PairedIsRemembered(l: Link, steps: seq<Step>, k: nat)
    requires LinkOk(l) && k < |steps| && PairedAt(l, steps, k)
    requires forall j :: k < j < |steps| ==> !TakesBackAt(l, steps, j)
    ensures var m := RunLink(l, steps);
      IsTrustedPublicKey(m) && m.disk.row && (m.disk.writes == [] ==> IsTrustedPublicKey(Restart(m)))
    decreases |steps|
  {
    hide TakesBackAt, PairedAt, Next;
    var n := |steps| - 1;
    if k < n {
      assert !TakesBackAt(l, steps, n);
      forall j | k < j < n ensures !TakesBackAt(l, steps[..n], j) { TakesBackEarlier(l, steps, n, j); }
      TakesBackEarlier(l, steps, n, k);
      PairedIsRemembered(l, steps[..n], k);
      PairedBefore(l, steps);
    } else {
      PairedNow(l, steps);
    }
    RunKeepsLinkOk(l, steps);
    if RunLink(l, steps).disk.writes == [] { RestartKeeps(RunLink(l, steps)); }
  }

  lemma TakesBackEarlier(l: Link, steps: seq<Step>, n: nat, k: nat)
    requires k < n <= |steps|
    ensures TakesBackAt(l, steps[..n], k) <==> TakesBackAt(l, steps, k)
    ensures PairedAt(l, steps[..n], k) <==> PairedAt(l, steps, k)
  {
    hide LinkOk, Next;
    Earlier(l, steps, n, k);
  }

  // ─── What was served ──────────────────────────────────────────────────────

  predicate Serves(e: Event) {
    e.OfferAccepted? || e.SyncDispatched?
  }

  // Event i was raised by step k: the request of a peer that was trusted at that moment, on
  // a connection that was not being closed, for exactly what was served.
  ghost predicate ServedAt(l: Link, steps: seq<Step>, i: nat, k: nat)
    requires k < |steps| && i < |RunLink(l, steps).events|
  {
    var b, s, e := Before(l, steps, k), steps[k], RunLink(l, steps).events[i];
    && |b.events| == i && Listening(b) && b.conn.value.trust.trusted
    && (if e.OfferAccepted? then s.input == Receive(TransferOffer)
        else e.SyncDispatched? && s.input == Receive(Sync(e.sync, e.library)) && Permitted(s.env, e.sync, e.library))
  }

  lemma LastServed(l: Link, steps: seq<Step>, i: nat)
    requires LinkOk(l) && steps != [] && |RunLink(l, steps[..|steps| - 1]).events| <= i < |RunLink(l, steps).events|
    requires Serves(RunLink(l, steps).events[i])
    ensures ServedAt(l, steps, i, |steps| - 1)
  {
    hide StandingStep, Next, Permitted, Reconfirms, Admits, Finishes, Confirms, HeardOnLan, Fails;
    LastStep(l, steps);
  }

  /** Every offer accepted and every sync message served in a run, in any mode, was asked for
      by a peer trusted at that moment. */
  lemma {:induction false} ServedOnlyTheTrusted(l: Link, steps: seq<Step>, i: nat)
    requires LinkOk(l) && |l.events| <= i < |RunLink(l, steps).events| && Serves(RunLink(l, steps).events[i])
    ensures exists k :: 0 <= k < |steps| && ServedAt(l, steps, i, k)
    decreases |steps|
  {
    hide StandingStep, Next, Permitted, Told;
    var n := |steps| - 1;
    assert steps != [];
    LastStep(l, steps);
    if i < |RunLink(l, steps[..n]).events| {
      ServedOnlyTheTrusted(l, steps[..n], i);
      var k :| 0 <= k < n && ServedAt(l, steps[..n], i, k);
      Earlier(l, steps, n, k);
      assert ServedAt(l, steps, i, k);
    } else {
      LastServed(l, steps, i);
    }
  }

  lemma {:induction false} EventsStay(l: Link, steps: seq<Step>, k: nat)
    requires LinkOk(l) && k <= |steps|
    ensures Before(l, steps, k).events <= RunLink(l, steps).events
    decreases |steps|
  {
    hide StandingStep, Next, Told;
    if k < |steps| {
      var n := |steps| - 1;
      LastStep(l, steps);
      Earlier(l, steps, n, k);
      EventsStay(l, steps[..n], k);
    } else {
      assert steps[..k] == steps;
    }
  }

  /** Conversely, what a trusted peer offers over a connection that is not being closed is
      accepted, and what it asks is served unless it is about a library it is no partner of. */
  lemma TrustedIsServed(l: Link, steps: seq<Step>, k: nat)
    requires LinkOk(l) && k < |steps|
    requires Listening(Before(l, steps, k)) && Before(l, steps, k).conn.value.trust.trusted
    ensures var i, e := |Before(l, steps, k).events|, RunLink(l, steps).events;
      && (steps[k].input == Receive(TransferOffer) ==> i < |e| && e[i] == OfferAccepted)
      && (steps[k].input.Receive? && steps[k].input.msg.Sync? && Permitted(steps[k].env, steps[k].input.msg.kind, steps[k].input.msg.library)
          ==> i < |e| && e[i] == SyncDispatched(steps[k].input.msg.kind, steps[k].input.msg.library))
  {
    hide StandingStep, Next, Permitted;
    var upto := steps[..k + 1];
    assert upto[..k] == steps[..k];
    LastStep(l, upto);
    EventsStay(l, steps, k + 1);
  }

  // ─── What a LAN peer is told ──────────────────────────────────────────────

  // Step k tells a peer that is not paired that its message was not served.
  ghost predicate DeniesAt(l: Link, steps: seq<Step>, k: nat, kind: SyncKind, library: string)
    requires k < |steps|
  {
    var b, s := Before(l, steps, k), steps[k];
    Arrives(b, s.input) && s.input.msg == Sync(kind, library) && Denies(s.env, b, kind, library)
  }

  lemma DeniedLast(l: Link, steps: seq<Step>, kind: SyncKind, library: string)
    requires LinkOk(l) && steps != []
    ensures var n := |steps| - 1;
      var was, now := Before(l, steps, n).deniedAt, RunLink(l, steps).deniedAt;
      if DeniesAt(l, steps, n, kind, library) then (kind, library) in now && now[(kind, library)] == steps[n].env.now
      else !steps[n].input.Reboot? && (kind, library) in was ==> (kind, library) in now && now[(kind, library)] == was[(kind, library)]
  {
    hide Next, StandingStep, Told, Denies, NotesStep, TalkStep, NameStep;
    LastStep(l, steps);
    var n := |steps| - 1;
    var s, b := steps[n], Before(l, steps, n);
    if Challenging(s.env, b, s.input) {
      ChallengingDenies(s.secrets, s.env, b, s.input);
    } else {
      RecordExact(s.secrets, s.env, b, s.input);
    }
  }

  lemma ChallengingDenies(secrets: seq<Secret>, env: Env, l: Link, input: Input)
    requires Challenging(env, l, input)
    ensures Next(secrets, env, l, input).deniedAt == l.deniedAt && !(Arrives(l, input) && input.msg.Sync?)
  {
    hide Next;
    if input.Entered? || input.Generated? || input.Drive? {
      ChallengingStands(secrets, env, l, input);
    } else if input.Ready? {
      ReadyStands(secrets, env, l);
    } else {
      ChallengeTellsNothing(secrets, env, l, input);
    }
  }

  lemma {:induction false} DenialIsNoted(l: Link, steps: seq<Step>, j: nat, kind: SyncKind, library: string)
    requires LinkOk(l) && j < |steps| && DeniesAt(l, steps, j, kind, library)
    requires forall i :: j < i < |steps| ==> !DeniesAt(l, steps, i, kind, library) && !steps[i].input.Reboot?
    ensures (kind, library) in RunLink(l, steps).deniedAt && RunLink(l, steps).deniedAt[(kind, library)] == steps[j].env.now
    decreases |steps|
  {
    hide DeniesAt, Next;
    var n := |steps| - 1;
    if j < n {
      forall i | j <= i < n ensures DeniesAt(l, steps[..n], i, kind, library) <==> DeniesAt(l, steps, i, kind, library) {
        DeniesEarlier(l, steps, n, i, kind, library);
      }
      DenialIsNoted(l, steps[..n], j, kind, library);
    }
    DeniedLast(l, steps, kind, library);
  }

  lemma DeniesEarlier(l: Link, steps: seq<Step>, n: nat, k: nat, kind: SyncKind, library: string)
    requires k < n <= |steps|
    ensures DeniesAt(l, steps[..n], k, kind, library) <==> DeniesAt(l, steps, k, kind, library)
  {
    hide Denies;
    Earlier(l, steps, n, k);
  }

  /** Two notices to the same peer about the same kind of message and library are ten seconds
      apart or more, whatever connections and messages come between, unless the process
      restarts. */
  lemma DenialsAreSpaced(l: Link, steps: seq<Step>, j: nat, k: nat, kind: SyncKind, library: string)
    requires LinkOk(l) && j < k < |steps| && DeniesAt(l, steps, j, kind, library) && DeniesAt(l, steps, k, kind, library)
    requires forall i :: j < i < k ==> !DeniesAt(l, steps, i, kind, library) && !steps[i].input.Reboot?
    ensures steps[k].env.now >= steps[j].env.now + 10000
  {
    forall i | j <= i < k ensures DeniesAt(l, steps[..k], i, kind, library) <==> DeniesAt(l, steps, i, kind, library) {
      DeniesEarlier(l, steps, k, i, kind, library);
    }
    DenialIsNoted(l, steps[..k], j, kind, library);
  }
}
