/** What one engine keeps about one peer key, whatever messages arrive, in whatever
    order timers fire and users act, and across restarts. */
module LinkInvariants {
  import opened Options
  import opened Pairing

  // ─── The invariants ───────────────────────────────────────────────────────

  /** Trust has a provenance, completion and exchange streams need trust, and the
      watchdog runs only against a peer still in the pairing phase. */
  ghost predicate TrustOk(t: Trust) {
    && (t.trusted <==> t.openedTrusted || t.verified || t.confirmed)
    && (t.openedTrusted || t.confirmed ==> t.mode.DirectMode?)
    && (t.mode.DirectMode? ==> t.trusted)
    && (t.complete ==> t.trusted)
    && (t.watchdog ==> t.mode.PairingMode? && !t.trusted && !t.complete)
  }

  ghost predicate RecordOk(c: Conn) {
    TrustOk(c.trust) && (c.stream ==> c.trust.trusted)
  }

  // The stored revocation once every queued write has been applied.
  ghost function Settle(d: Disk): Option<nat> {
    if d.writes == [] then d.savedRevocation else d.writes[|d.writes| - 1]
  }

  /** A revoked key is not in the trusted set, a trusted connection of a revoked key was
      opened before its latest revocation, and the table catches up with memory. */
  ghost predicate RevocationOk(l: Link) {
    && (l.revokedAt.Some? ==> !l.trustedKey)
    && (l.conn.Some? ==> l.conn.value.openedAfter <= l.revocations)
    && (l.conn.Some? && l.conn.value.trust.trusted && l.revokedAt.Some? ==> l.conn.value.openedAfter < l.revocations)
    && Settle(l.disk) == l.revokedAt
  }

  ghost predicate LinkOk(l: Link) {
    (l.conn.Some? ==> RecordOk(l.conn.value)) && RevocationOk(l)
  }

  // ─── Each handler keeps them ──────────────────────────────────────────────

  // Challenges and answers leave trust, revocation and the disk alone.
  ghost predicate SameStanding(l: Link, m: Link) {
    && m == l.(conn := m.conn, ladders := m.ladders)
    && (l.conn.Some? <==> m.conn.Some?)
    && (l.conn.Some? ==>
          var c, d := l.conn.value, m.conn.value;
          && d == c.(talk := d.talk, trust := d.trust)
          && (d.trust == c.trust || (!c.trust.trusted && !c.trust.complete && d.trust == c.trust.(watchdog := true))))
  }

  lemma ChallengeNowStanding(secrets: seq<Secret>, env: Env, l: Link)
    requires l.conn.Some?
    ensures SameStanding(l, With(l, ChallengeNow(secrets, env, l.conn.value)))
  {
  }

  lemma SendChallengesStanding(secrets: seq<Secret>, env: Env, l: Link, force: bool)
    ensures SameStanding(l, SendChallenges(secrets, env, l, force))
  {
    if l.conn.Some? { ChallengeNowStanding(secrets, env, l); }
  }

  lemma NoteStanding(env: Env, l: Link, usable: bool)
    requires l.conn.Some?
    ensures SameStanding(l, NoteChallenge(env, l, usable))
  {
  }

  lemma StandingTransitive(a: Link, b: Link, c: Link)
    requires SameStanding(a, b) && SameStanding(b, c)
    ensures SameStanding(a, c)
  {
  }

  lemma AnswerStanding(secrets: seq<Secret>, env: Env, l: Link, code: Code, nonce: Nonce)
    requires l.conn.Some?
    ensures SameStanding(l, Answer(secrets, env, l, code, nonce))
  {
    NoteStanding(env, l, true);
    var noted := NoteChallenge(env, l, true);
    var answered := With(noted, Say(noted.conn.value, Response(Some(nonce), Some(Mac(code, nonce)))));
    StandingTransitive(l, noted, answered);
    SendChallengesStanding(secrets, env, answered, true);
    StandingTransitive(l, answered, SendChallenges(secrets, env, answered, true));
  }

  lemma HandleChallengeStanding(secrets: seq<Secret>, env: Env, l: Link, id: Option<CodeId>, nonce: Option<Nonce>)
    ensures SameStanding(l, HandleChallenge(secrets, env, l, id, nonce))
    ensures l.conn.Some? && LanOnly(l.conn.value) ==> HandleChallenge(secrets, env, l, id, nonce) == l
  {
    if l.conn.Some? && id.Some? && nonce.Some? {
      AnswerStanding(secrets, env, l, id.value.code, nonce.value);
      NoteStanding(env, l, false);
    }
  }

  lemma {:induction false} HandleAllStanding(secrets: seq<Secret>, env: Env, l: Link, todo: seq<Unanswered>)
    ensures SameStanding(l, HandleAll(secrets, env, l, todo))
  {
    if todo != [] {
      var u := todo[|todo| - 1];
      var before := HandleAll(secrets, env, l, todo[..|todo| - 1]);
      HandleAllStanding(secrets, env, l, todo[..|todo| - 1]);
      HandleChallengeStanding(secrets, env, before, Some(u.codeId), Some(u.nonce));
      StandingTransitive(l, before, HandleAll(secrets, env, l, todo));
    }
  }

  lemma ToAllStanding(secrets: seq<Secret>, env: Env, l: Link, force: bool)
    ensures SameStanding(l, SendChallengesToAll(secrets, env, l, force))
  {
    if l.conn.Some? {
      var taken := With(l, TakePending(l.conn.value));
      var flushed := FlushPending(secrets, env, l);
      HandleAllStanding(secrets, env, taken, l.conn.value.talk.pending);
      StandingTransitive(l, taken, flushed);
      SendChallengesStanding(secrets, env, flushed, force);
      StandingTransitive(l, flushed, SendChallenges(secrets, env, flushed, force));
    }
  }

  lemma CodeEnteredStanding(secrets: seq<Secret>, env: Env, l: Link, code: Code)
    ensures SameStanding(l, CodeEntered(secrets, env, l, code))
  {
    var cleared := l.(ladders := l.ladders.(unanswered := None));
    var told := SendChallengesToAll(secrets, env, cleared, true);
    ToAllStanding(secrets, env, cleared, true);
    StandingTransitive(l, cleared, told);
    StandingTransitive(l, told, Probe(told, code));
  }

  lemma StandingKeepsOk(l: Link, m: Link)
    requires SameStanding(l, m) && LinkOk(l)
    requires l.conn.Some? && LanOnly(l.conn.value) ==> m.conn.value.trust == l.conn.value.trust
    ensures LinkOk(m) && m.revokedAt == l.revokedAt
  {
  }

  // A watchdog is armed only against a peer in the pairing phase.
  lemma LanIsNotArmed(secrets: seq<Secret>, env: Env, l: Link, code: Code, force: bool)
    requires l.conn.Some? && LanOnly(l.conn.value)
    ensures SendChallenges(secrets, env, l, force) == l
    ensures SendChallengesToAll(secrets, env, l, force) == l
    ensures CodeEntered(secrets, env, l, code) == l.(ladders := l.ladders.(unanswered := None))
  {
  }

  lemma ApplyHandshakeOk(env: Env, l: Link, h: Hello)
    requires LinkOk(l)
    ensures LinkOk(ApplyHandshake(env, l, h))
    ensures ApplyHandshake(env, l, h).revokedAt == l.revokedAt
  {
  }

  lemma FlushBufferedOk(env: Env, l: Link)
    requires LinkOk(l)
    ensures LinkOk(FlushBuffered(env, l))
    ensures FlushBuffered(env, l).revokedAt == l.revokedAt
  {
    if l.conn.Some? && l.conn.value.buffered.Some? {
      ApplyHandshakeOk(env, With(l, l.conn.value.(buffered := None)), l.conn.value.buffered.value);
    }
  }

  lemma OnTrustGrantedOk(env: Env, l: Link, code: Code)
    requires LinkOk(l) && l.conn.Some? && l.conn.value.trust.trusted
    ensures LinkOk(OnTrustGranted(env, l, code))
    ensures OnTrustGranted(env, l, code).revokedAt == l.revokedAt
  {
    FlushBufferedOk(env, With(l, ReplicateExchange(l.conn.value.(code := Some(code)))));
  }

  // ─── Responses: the only way out of revocation ────────────────────────────

  // Message `m` answers an outstanding challenge of a peer not yet trusted, correctly,
  // with a code registered no earlier than `since`.
  ghost predicate ReAdmits(secrets: seq<Secret>, l: Link, m: Msg, since: nat) {
    && l.conn.Some? && !l.conn.value.trust.trusted && l.conn.value.trust.mode.PairingMode?
    && m.Response? && m.answered.Some? && m.mac.Some?
    && var i := IndexOf(l.conn.value.talk.outstanding, m.answered.value);
    && i < |l.conn.value.talk.outstanding|
    && var e := l.conn.value.talk.outstanding[i];
    && m.mac.value == Mac(e.code, e.nonce)
    && FreshSecret(secrets, e.code, since)
  }

  lemma GrantOk(env: Env, l: Link, code: Code)
    requires LinkOk(l) && l.conn.Some? && l.conn.value.trust.mode.PairingMode? && l.revokedAt.None?
    ensures LinkOk(Grant(env, l, code)) && Grant(env, l, code).revokedAt.None?
  {
    var trust := l.conn.value.trust.(trusted := true, watchdog := false, verified := true);
    var trusted := Emit(With(l, l.conn.value.(trust := trust)).(ladders := Ladders(None, None)), Verified(code));
    OnTrustGrantedOk(env, trusted, code);
  }

  lemma AcceptOk(secrets: seq<Secret>, env: Env, l: Link, code: Code)
    requires LinkOk(l) && l.conn.Some? && (l.conn.value.trust.trusted || l.conn.value.trust.mode.PairingMode?)
    ensures LinkOk(Accept(secrets, env, l, code))
    ensures Accept(secrets, env, l, code).revokedAt ==
            if l.revokedAt.Some? && !l.conn.value.trust.trusted && FreshSecret(secrets, code, l.revokedAt.value)
            then None else l.revokedAt
  {
    if l.conn.value.trust.trusted {
      OnTrustGrantedOk(env, With(l, Disarm(l.conn.value)), code);
    } else if l.revokedAt.None? || FreshSecret(secrets, code, l.revokedAt.value) {
      GrantOk(env, if l.revokedAt.Some? then UnrevokeKey(l) else l, code);
    }
  }

  lemma HandleResponseOk(secrets: seq<Secret>, env: Env, l: Link, nonce: Option<Nonce>, mac: Option<Mac>)
    requires LinkOk(l)
    ensures LinkOk(HandleResponse(secrets, env, l, nonce, mac))
    ensures l.revokedAt.Some? ==>
              HandleResponse(secrets, env, l, nonce, mac).revokedAt ==
              if ReAdmits(secrets, l, Response(nonce, mac), l.revokedAt.value) then None else l.revokedAt
  {
    if l.conn.Some? && nonce.Some? && mac.Some? {
      var c := l.conn.value;
      var i := IndexOf(c.talk.outstanding, nonce.value);
      if c.trust.trusted || c.trust.mode.PairingMode? {
        if i < |c.talk.outstanding| && mac.value == Mac(c.talk.outstanding[i].code, c.talk.outstanding[i].nonce) {
          AcceptOk(secrets, env, With(l, c.(talk := Forget(c.talk, i))), c.talk.outstanding[i].code);
        }
      }
    }
  }

  lemma HandleChallengeOk(secrets: seq<Secret>, env: Env, l: Link, id: Option<CodeId>, nonce: Option<Nonce>)
    requires LinkOk(l)
    ensures LinkOk(HandleChallenge(secrets, env, l, id, nonce))
    ensures HandleChallenge(secrets, env, l, id, nonce).revokedAt == l.revokedAt
  {
    HandleChallengeStanding(secrets, env, l, id, nonce);
    StandingKeepsOk(l, HandleChallenge(secrets, env, l, id, nonce));
  }

  lemma MessageOk(secrets: seq<Secret>, env: Env, l: Link, m: Msg)
    requires LinkOk(l)
    ensures LinkOk(HandlePeerMessage(secrets, env, l, m))
    ensures l.revokedAt.Some? ==>
              HandlePeerMessage(secrets, env, l, m).revokedAt ==
              if ReAdmits(secrets, l, m, l.revokedAt.value) then None
              else if m.DeviceRemoved? then Some(env.now)
              else l.revokedAt
  {
    match m
    case Challenge(id, nonce) => HandleChallengeOk(secrets, env, l, id, nonce);
    case Response(nonce, mac) => HandleResponseOk(secrets, env, l, nonce, mac);
    case Handshake(h) => ApplyHandshakeOk(env, l, h);
    case TransferOffer =>
    case Sync(k, library) =>
    case DeviceRemoved =>
  }

  lemma LanSettledOk(env: Env, l: Link, enabled: bool)
    requires LinkOk(l)
    ensures LinkOk(LanSettled(env, l, enabled)) && LanSettled(env, l, enabled).revokedAt == l.revokedAt
  {
    if l.conn.Some? { FlushBufferedOk(env, With(l, SendHandshake(env, AsLan(l.conn.value)))); }
  }

  lemma ConfirmOk(env: Env, l: Link)
    requires LinkOk(l)
    ensures LinkOk(ConfirmLanPeer(env, l)) && ConfirmLanPeer(env, l).revokedAt == l.revokedAt
  {
    if l.conn.Some? && l.revokedAt.None? {
      var trust := l.conn.value.trust.(mode := DirectMode, trusted := true, watchdog := false, confirmed := true);
      FlushBufferedOk(env, With(AddTrustedKey(l), ReplicateExchange(SendHandshake(env, l.conn.value.(trust := trust)))));
    }
  }

  lemma FinishOk(l: Link, i: nat)
    requires LinkOk(l) && i < |l.jobs|
    ensures LinkOk(FinishJob(l, i)) && FinishJob(l, i).revokedAt == l.revokedAt
  {
  }

  lemma ChallengingOk(secrets: seq<Secret>, env: Env, l: Link, code: Code, force: bool)
    requires LinkOk(l)
    ensures LinkOk(SendChallenges(secrets, env, l, force)) && SendChallenges(secrets, env, l, force).revokedAt == l.revokedAt
    ensures LinkOk(SendChallengesToAll(secrets, env, l, force))
    ensures SendChallengesToAll(secrets, env, l, force).revokedAt == l.revokedAt
    ensures LinkOk(CodeEntered(secrets, env, l, code)) && CodeEntered(secrets, env, l, code).revokedAt == l.revokedAt
  {
    SendChallengesStanding(secrets, env, l, force);
    ToAllStanding(secrets, env, l, force);
    CodeEnteredStanding(secrets, env, l, code);
    if l.conn.Some? && LanOnly(l.conn.value) { LanIsNotArmed(secrets, env, l, code, force); }
    StandingKeepsOk(l, SendChallenges(secrets, env, l, force));
    StandingKeepsOk(l, SendChallengesToAll(secrets, env, l, force));
    StandingKeepsOk(l, CodeEntered(secrets, env, l, code));
  }

  lemma ReadyOk(secrets: seq<Secret>, env: Env, l: Link)
    requires LinkOk(l)
    ensures LinkOk(ChannelReady(secrets, env, l)) && ChannelReady(secrets, env, l).revokedAt == l.revokedAt
  {
    hide SendChallenges;
    ChallengingOk(secrets, env, l, Code(""), false);
  }

  // ─── One step ─────────────────────────────────────────────────────────────

  /** Exactly how a step can end a revocation: a verified answer for a secret that is
      fresh enough, or a restart that loses the queued write of the revocation. */
  ghost predicate EndsRevocation(secrets: seq<Secret>, l: Link, input: Input)
    requires l.revokedAt.Some?
  {
    || (input.Receive? && ReAdmits(secrets, l, input.msg, l.revokedAt.value) && !l.conn.value.destroyed)
    || (input.Reboot? && l.disk.savedRevocation.None?)
  }

  // A step that does not end a revocation keeps its time, renews it, or falls back on
  // the stored one.
  ghost predicate StillRevoked(env: Env, l: Link, input: Input, t: Option<nat>) {
    t == l.revokedAt || t == Some(env.now) || (input.Reboot? && t == l.disk.savedRevocation)
  }

  lemma ReceiveOk(secrets: seq<Secret>, env: Env, l: Link, m: Msg)
    requires LinkOk(l)
    ensures var after := Next(secrets, env, l, Receive(m));
            && LinkOk(after)
            && (l.revokedAt.Some? ==>
                  && (after.revokedAt.None? <==> EndsRevocation(secrets, l, Receive(m)))
                  && (after.revokedAt.Some? ==> StillRevoked(env, l, Receive(m), after.revokedAt)))
  {
    if l.conn.Some? && !l.conn.value.destroyed { MessageOk(secrets, env, l, m); }
  }

  lemma LocalStepOk(secrets: seq<Secret>, env: Env, l: Link, input: Input)
    requires LinkOk(l)
    requires input.Open? || input.Close? || input.Watchdog? || input.Heard? || input.Finish? || input.WriteRow?
    ensures LinkOk(Next(secrets, env, l, input)) && Next(secrets, env, l, input).revokedAt == l.revokedAt
  {
  }

  lemma StepOk(secrets: seq<Secret>, env: Env, l: Link, input: Input)
    requires LinkOk(l)
    ensures var after := Next(secrets, env, l, input);
            && LinkOk(after)
            && (l.revokedAt.Some? ==>
                  && (after.revokedAt.None? <==> EndsRevocation(secrets, l, input))
                  && (after.revokedAt.Some? ==> StillRevoked(env, l, input, after.revokedAt)))
  {
    hide ChannelReady, CodeEntered, SendChallengesToAll, LanSettled, ConfirmLanPeer, ReAdmits;
    match input
    case Receive(m) => ReceiveOk(secrets, env, l, m);
    case Ready => ReadyOk(secrets, env, l);
    case Entered(code) => ChallengingOk(secrets, env, l, code, true);
    case Generated => ChallengingOk(secrets, env, l, Code(""), false);
    case Drive => ChallengingOk(secrets, env, l, Code(""), true);
    case Settled(enabled) => LanSettledOk(env, l, enabled);
    case Confirm => ConfirmOk(env, l);
    case Revoke =>
    case Notify =>
    case Flush =>
    case Reboot =>
    case _ => LocalStepOk(secrets, env, l, input);
  }

  // ─── Whole runs ───────────────────────────────────────────────────────────

  datatype Step = Step(secrets: seq<Secret>, env: Env, input: Input)

  ghost function RunLink(l: Link, steps: seq<Step>): Link {
    if steps == [] then l
    else
      var s := steps[|steps| - 1];
      Next(s.secrets, s.env, RunLink(l, steps[..|steps| - 1]), s.input)
  }

  lemma {:induction false} RunKeepsLinkOk(l: Link, steps: seq<Step>)
    requires LinkOk(l)
    ensures LinkOk(RunLink(l, steps))
  {
    if steps != [] {
      RunKeepsLinkOk(l, steps[..|steps| - 1]);
      var s := steps[|steps| - 1];
      StepOk(s.secrets, s.env, RunLink(l, steps[..|steps| - 1]), s.input);
    }
  }

  // Before any connection, with the two tables as the last session left them.
  function Started(row: bool, saved: Option<nat>): Link {
    Link(None, saved, row && saved.None?, Ladders(None, None), map[], [], Disk(row, saved, []), 0, [])
  }

  /** The pairing-record and revocation invariants, for every run of an engine. */
  lemma EveryRunIsOk(row: bool, saved: Option<nat>, steps: seq<Step>)
    ensures var l := RunLink(Started(row, saved), steps);
            && (l.conn.Some? ==> RecordOk(l.conn.value))
            && (l.revokedAt.Some? ==> !IsTrustedPublicKey(l) && !l.trustedKey)
            && (l.revokedAt.Some? && l.conn.Some? && l.conn.value.trust.trusted
                ==> l.conn.value.openedAfter < l.revocations)
  {
    RunKeepsLinkOk(Started(row, saved), steps);
  }

  // At step k the key is re-admitted by a secret registered at or after `since`.
  ghost predicate ReAdmittedAt(l: Link, steps: seq<Step>, k: nat, since: nat)
    requires k < |steps|
  {
    var before := RunLink(l, steps[..k]);
    steps[k].input.Receive? && ReAdmits(steps[k].secrets, before, steps[k].input.msg, since) && !before.conn.value.destroyed
  }

  // At step k the process restarts before every revocation write reached the disk.
  ghost predicate WriteLostAt(l: Link, steps: seq<Step>, k: nat)
    requires k < |steps|
  {
    steps[k].input.Reboot? && RunLink(l, steps[..k]).disk.writes != []
  }

  lemma ReAdmitsEarlier(secrets: seq<Secret>, l: Link, m: Msg, since: nat, earlier: nat)
    requires ReAdmits(secrets, l, m, since) && earlier <= since
    ensures ReAdmits(secrets, l, m, earlier)
  {
    var e := l.conn.value.talk.outstanding[IndexOf(l.conn.value.talk.outstanding, m.answered.value)];
    var s :| s in secrets && s.code == e.code && s.createdAt >= since;
  }

  /** A key revoked at time t stays revoked through every run, restarts included, until a
      peer answers for a secret registered at or after t. */
  lemma {:induction false} RevocationLasts(l: Link, steps: seq<Step>, t: nat)
    requires LinkOk(l) && l.revokedAt.Some? && l.revokedAt.value >= t
    requires forall k | 0 <= k < |steps| :: steps[k].env.now >= t
    requires forall k | 0 <= k < |steps| :: !WriteLostAt(l, steps, k) && !ReAdmittedAt(l, steps, k, t)
    ensures var after := RunLink(l, steps);
            after.revokedAt.Some? && after.revokedAt.value >= t && !IsTrustedPublicKey(after)
  {
    if steps != [] {
      var n := |steps| - 1;
      var s, before := steps[n], RunLink(l, steps[..n]);
      forall k | 0 <= k < n
        ensures steps[..n][k].env.now >= t && !WriteLostAt(l, steps[..n], k) && !ReAdmittedAt(l, steps[..n], k, t)
      {
        assert steps[..n][..k] == steps[..k];
        assert !WriteLostAt(l, steps, k) && !ReAdmittedAt(l, steps, k, t);
      }
      RevocationLasts(l, steps[..n], t);
      RunKeepsLinkOk(l, steps[..n]);
      StepOk(s.secrets, s.env, before, s.input);
      assert !WriteLostAt(l, steps, n) && !ReAdmittedAt(l, steps, n, t);
      if Next(s.secrets, s.env, before, s.input).revokedAt.None? && s.input.Receive? {
        ReAdmitsEarlier(s.secrets, before, s.input.msg, before.revokedAt.value, t);
        assert false;
      }
    }
  }

  /** A peer tells us it removed us, and the process dies before the revocation reaches the
      disk: after the restart its key is trusted as before. */
  lemma CrashForgetsRevocation(secrets: seq<Secret>, env: Env)
    ensures var met := Next(secrets, env, Started(true, None), Open(Left, false));
      var removed := Next(secrets, env, met, Receive(DeviceRemoved));
      var restarted := Next(secrets, env, removed, Reboot);
      && removed.revokedAt == Some(env.now) && !IsTrustedPublicKey(removed)
      && restarted.revokedAt == None && IsTrustedPublicKey(restarted)
  {
    var met := Next(secrets, env, Started(true, None), Open(Left, false));
    assert met.conn.Some? && !met.conn.value.destroyed;
  }

  // ─── The LAN tier ─────────────────────────────────────────────────────────

  predicate Quiet(m: Msg) {
    !m.Challenge? && !m.Response?
  }

  predicate Harmless(e: Event) {
    !e.OfferAccepted? && !e.SyncDispatched?
  }

  ghost predicate AddsQuiet(a: seq<Msg>, b: seq<Msg>) {
    |a| <= |b| && (forall i | 0 <= i < |a| :: b[i] == a[i]) && (forall i | |a| <= i < |b| :: Quiet(b[i]))
  }

  ghost predicate AddsHarmless(a: seq<Event>, b: seq<Event>) {
    |a| <= |b| && (forall i | 0 <= i < |a| :: b[i] == a[i]) && (forall i | |a| <= i < |b| :: Harmless(b[i]))
  }

  // A step added nothing but quiet messages to the outbox and harmless events.
  ghost predicate OnlyAddsQuietly(l: Link, after: Link) {
    && l.conn.Some? && after.conn.Some?
    && AddsQuiet(l.conn.value.talk.out, after.conn.value.talk.out)
    && AddsHarmless(l.events, after.events)
  }

  lemma ApplyIsQuiet(env: Env, l: Link, h: Hello)
    requires l.conn.Some?
    ensures OnlyAddsQuietly(l, ApplyHandshake(env, l, h))
    ensures ApplyHandshake(env, l, h).conn.value.trust.trusted == l.conn.value.trust.trusted
  {
  }

  lemma FlushIsQuiet(env: Env, l: Link)
    requires l.conn.Some?
    ensures OnlyAddsQuietly(l, FlushBuffered(env, l))
    ensures FlushBuffered(env, l).conn.value.trust.trusted == l.conn.value.trust.trusted
  {
    if Recognized(l.conn.value) && l.conn.value.buffered.Some? {
      ApplyIsQuiet(env, With(l, l.conn.value.(buffered := None)), l.conn.value.buffered.value);
    }
  }

  lemma SettledIsQuiet(env: Env, l: Link, enabled: bool)
    requires l.conn.Some?
    ensures OnlyAddsQuietly(l, LanSettled(env, l, enabled))
    ensures LanSettled(env, l, enabled).conn.value.trust.trusted == l.conn.value.trust.trusted
  {
    FlushIsQuiet(env, With(l, SendHandshake(env, AsLan(l.conn.value))));
  }

  lemma ConfirmIsQuiet(env: Env, l: Link)
    requires l.conn.Some?
    ensures OnlyAddsQuietly(l, ConfirmLanPeer(env, l))
  {
    var trust := l.conn.value.trust.(mode := DirectMode, trusted := true, watchdog := false, confirmed := true);
    FlushIsQuiet(env, With(AddTrustedKey(l), ReplicateExchange(SendHandshake(env, l.conn.value.(trust := trust)))));
  }

  lemma LanMessageIsQuiet(secrets: seq<Secret>, env: Env, l: Link, m: Msg)
    requires l.conn.Some? && LanOnly(l.conn.value)
    ensures OnlyAddsQuietly(l, HandlePeerMessage(secrets, env, l, m))
    ensures !HandlePeerMessage(secrets, env, l, m).conn.value.trust.trusted
  {
    match m
    case Challenge(id, nonce) =>
    case Response(nonce, mac) =>
    case Handshake(h) => ApplyIsQuiet(env, l, h);
    case TransferOffer =>
    case Sync(k, library) =>
    case DeviceRemoved =>
  }

  lemma SameIsQuiet(l: Link)
    requires l.conn.Some?
    ensures OnlyAddsQuietly(l, l)
  {
  }

  /** A peer recognized on the LAN and neither verified nor confirmed is not trusted, and
      no step of any kind challenges it, answers it, accepts an offer from it, dispatches
      a sync message of it, or (but for the user's confirmation) trusts it. */
  lemma LanPeerGetsNothing(secrets: seq<Secret>, env: Env, l: Link, input: Input)
    requires LinkOk(l) && l.conn.Some?
    requires l.conn.value.trust.mode.LanMode? && !l.conn.value.trust.verified && !l.conn.value.trust.confirmed
    requires !input.Open? && !input.Close? && !input.Reboot?
    ensures !l.conn.value.trust.trusted
    ensures OnlyAddsQuietly(l, Next(secrets, env, l, input))
    ensures !input.Confirm? ==> !Next(secrets, env, l, input).conn.value.trust.trusted
  {
    hide HandlePeerMessage, CodeEntered, SendChallengesToAll, LanSettled, ConfirmLanPeer;
    SameIsQuiet(l);
    match input
    case Receive(m) => LanMessageIsQuiet(secrets, env, l, m);
    case Entered(code) => LanIsNotArmed(secrets, env, l, code, true);
    case Generated => LanIsNotArmed(secrets, env, l, Code(""), false);
    case Drive => LanIsNotArmed(secrets, env, l, Code(""), true);
    case Settled(enabled) => SettledIsQuiet(env, l, enabled);
    case Confirm => ConfirmIsQuiet(env, l);
    case _ =>
  }
}
