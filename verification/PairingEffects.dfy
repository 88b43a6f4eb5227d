/** What one step of an engine does to what it keeps about a key, told observable by
    observable instead of handler by handler: who becomes trusted, what is stored, what is
    served, what is announced, and what that means for whole runs. */
module PairingEffects {
  import opened Options
  import opened Pairing
  import opened LinkInvariants

  // ─── What a step is ───────────────────────────────────────────────────────

  // Messages reach a record that is there and not being disconnected.
  predicate Listening(l: Link) {
    l.conn.Some? && !l.conn.value.destroyed
  }

  predicate Arrives(l: Link, input: Input) {
    input.Receive? && Listening(l)
  }

  predicate IsAnswer(l: Link, input: Input) {
    Arrives(l, input) && input.msg.Response? && input.msg.answered.Some? && input.msg.mac.Some?
  }

  // Where the outstanding challenge with the answered nonce is, if any.
  function Answered(l: Link, input: Input): (i: nat)
    requires IsAnswer(l, input)
    ensures i <= |l.conn.value.talk.outstanding|
  {
    IndexOf(l.conn.value.talk.outstanding, input.msg.answered.value)
  }

  /** The answer carries the MAC of an outstanding nonce under that challenge's code. */
  predicate RightAnswer(l: Link, input: Input) {
    && IsAnswer(l, input)
    && var o := l.conn.value.talk.outstanding;
    && Answered(l, input) < |o|
    && input.msg.mac.value == Mac(o[Answered(l, input)].code, o[Answered(l, input)].nonce)
  }

  function RightCode(l: Link, input: Input): Code
    requires RightAnswer(l, input)
  {
    l.conn.value.talk.outstanding[Answered(l, input)].code
  }

  // The peer is being verified: not trusted, and in the pairing phase.
  predicate Unverified(l: Link) {
    l.conn.Some? && !l.conn.value.trust.trusted && l.conn.value.trust.mode.PairingMode?
  }

  /** A right answer of a peer being verified, with a code that is fresh enough if its key is
      revoked. */
  predicate Admits(secrets: seq<Secret>, l: Link, input: Input) {
    && RightAnswer(l, input) && Unverified(l)
    && (l.revokedAt.Some? ==> FreshSecret(secrets, RightCode(l, input), l.revokedAt.value))
  }

  // A code is fresh enough if it was registered at the time of the revocation or later.
  lemma FreshMeans(secrets: seq<Secret>, code: Code, since: nat)
    ensures FreshSecret(secrets, code, since) <==> !forall s | s in secrets && s.code == code :: s.createdAt < since
  {
  }

  predicate Refuses(secrets: seq<Secret>, l: Link, input: Input) {
    RightAnswer(l, input) && Unverified(l) && !Admits(secrets, l, input)
  }

  predicate Fails(l: Link, input: Input) {
    IsAnswer(l, input) && Unverified(l) && !RightAnswer(l, input)
  }

  predicate Reconfirms(l: Link, input: Input) {
    RightAnswer(l, input) && l.conn.value.trust.trusted
  }

  predicate Confirms(l: Link, input: Input) {
    input.Confirm? && l.conn.Some? && l.revokedAt.None? && !l.conn.value.trust.trusted
  }

  predicate Removes(l: Link, input: Input) {
    input.Revoke? || (Arrives(l, input) && input.msg.DeviceRemoved?)
  }

  predicate Expires(env: Env, l: Link, input: Input) {
    input.Watchdog? && l.conn.Some? && l.conn.value.trust.watchdog && !env.site && !env.tunnel
  }

  predicate Finishes(l: Link, input: Input, lanOnly: bool) {
    input.Finish? && input.job < |l.jobs| && l.jobs[input.job].lanOnly == lanOnly
  }

  // The step replaces the record.
  predicate Replaces(input: Input) {
    input.Open? || input.Close? || input.Reboot?
  }

  // ─── Challenges and codes change neither trust nor what is stored ─────────

  // Everything but the exchange, the watchdog and the ladders.
  lemma ChallengingStands(secrets: seq<Secret>, env: Env, l: Link, input: Input)
    requires input.Entered? || input.Generated? || input.Drive?
    ensures SameStanding(l, Next(secrets, env, l, input))
  {
    hide SendChallengesToAll, CodeEntered;
    match input
    case Entered(code) => CodeEnteredStanding(secrets, env, l, code);
    case Generated => ToAllStanding(secrets, env, l, false);
    case Drive => ToAllStanding(secrets, env, l, true);
  }

  lemma ReadyStands(secrets: seq<Secret>, env: Env, l: Link)
    ensures var m := Next(secrets, env, l, Ready);
      && m == l.(conn := m.conn, ladders := m.ladders) && (m.conn.Some? <==> l.conn.Some?)
      && (l.conn.Some? ==>
            var c, d := l.conn.value, m.conn.value;
            && d.trust.trusted == c.trust.trusted && d.trust.mode == c.trust.mode && d.destroyed == c.destroyed && d.code == c.code && d.name == c.name
            && d.trust.complete == c.trust.complete && d.buffered == c.buffered && d.lanCheck == c.lanCheck && d.stream == c.stream)
  {
    hide SendChallenges;
    SendChallengesStanding(secrets, env, l, false);
  }

  // ─── Applying a handshake ─────────────────────────────────────────────────

  /** A handshake is applied when it names another device and comes from a trusted or LAN
      peer whose key is not revoked. */
  predicate Applies(env: Env, l: Link, h: Hello) {
    l.conn.Some? && Recognized(l.conn.value) && l.revokedAt.None? && h.identity.Some?
    && h.identity.value.id != env.me.id && h.identity.value.publicKey != env.me.publicKey
  }

  function Hail(env: Env): Msg {
    Handshake(Hello(Some(env.me)))
  }

  // The record of a peer whose handshake h was applied.
  function Greeted(env: Env, c: Conn, h: Hello): Conn
    requires h.identity.Some?
  {
    c.(name := if h.identity.value.name != "" then h.identity.value.name else c.name,
       trust := c.trust.(complete := c.trust.complete || c.trust.trusted, watchdog := false),
       talk := c.talk.(out := if c.handshakeSent then c.talk.out else c.talk.out + [Hail(env)]), handshakeSent := true)
  }

  lemma GreetedStands(env: Env, c: Conn, h: Hello)
    requires h.identity.Some?
    ensures var d := Greeted(env, c, h);
      && d.trust.trusted == c.trust.trusted && d.trust.mode == c.trust.mode && d.trust.verified == c.trust.verified
      && d.trust.confirmed == c.trust.confirmed && d.destroyed == c.destroyed && d.code == c.code && d.stream == c.stream
      && d.lanCheck == c.lanCheck && d.handshakeSent
  {
  }

  /** A handshake that arrives where it may be applied starts one continuation, for the tier
      the peer has; from a revoked key it is set aside; otherwise nothing comes of it. */
  lemma ApplyEffect(env: Env, l: Link, h: Hello)
    requires l.conn.Some?
    ensures ApplyHandshake(env, l, h) ==
      if Applies(env, l, h) then l.(conn := Some(Greeted(env, l.conn.value, h)), jobs := l.jobs + [Attached(!l.conn.value.trust.trusted)])
      else if Recognized(l.conn.value) && l.revokedAt.Some? then With(l, l.conn.value.(buffered := Some(h)))
      else l
  {
  }

  // A buffered handshake waits for a record that may apply it.
  predicate Flushes(env: Env, l: Link) {
    l.conn.Some? && l.conn.value.buffered.Some? && Applies(env, l, l.conn.value.buffered.value)
  }

  /** A buffered handshake is applied once its peer is recognized and not revoked, and then
      forgotten. */
  lemma FlushEffect(env: Env, l: Link)
    requires l.conn.Some?
    ensures FlushBuffered(env, l) ==
      var c := l.conn.value;
      if Flushes(env, l) then
        l.(conn := Some(Greeted(env, c, c.buffered.value).(buffered := None)), jobs := l.jobs + [Attached(!c.trust.trusted)])
      else if Recognized(c) && l.revokedAt.None? then With(l, c.(buffered := None))
      else l
  {
    hide ApplyHandshake;
    if l.conn.value.buffered.Some? {
      ApplyEffect(env, With(l, l.conn.value.(buffered := None)), l.conn.value.buffered.value);
    }
  }

  // ─── A right answer ───────────────────────────────────────────────────────

  predicate Introduced(c: Conn) {
    c.trust.complete && c.name != "" && c.name != "Connecting..."
  }

  // The grant callback: mark the record with the code, open the exchange, and flush the
  // buffered handshake or else announce a completed pairing again.
  lemma GrantedEffect(env: Env, l: Link, code: Code)
    requires l.conn.Some? && l.conn.value.trust.trusted
    ensures OnTrustGranted(env, l, code) ==
      var c := l.conn.value.(code := Some(code), stream := true);
      if Flushes(env, l) then l.(conn := Some(Greeted(env, c, c.buffered.value).(buffered := None)), jobs := l.jobs + [Attached(false)])
      else if c.buffered.Some? && l.revokedAt.None? then With(l, c.(buffered := None))
      else if c.buffered.None? && Introduced(c) then With(l, c).(events := l.events + [TrustPaired(Some(code))])
      else With(l, c)
  {
    hide ApplyHandshake, FlushBuffered;
    FlushEffect(env, With(l, ReplicateExchange(l.conn.value.(code := Some(code)))));
  }

  // What an accepted answer does to the record and to the key's standing.
  ghost predicate Welcomed(env: Env, l: Link, m: Link, code: Code) {
    && l.conn.Some? && m.conn.Some?
    && m.conn.value.code == Some(code) && m.conn.value.stream && m.conn.value.trust.trusted
    && m.conn.value.trust.mode == l.conn.value.trust.mode && m.conn.value.destroyed == l.conn.value.destroyed
    && m.conn.value.lanCheck == l.conn.value.lanCheck
    && m.jobs == l.jobs + (if l.conn.value.buffered.Some? && m.revokedAt.None? && Names(env, l.conn.value.buffered.value) then [Attached(false)] else [])
    && m.trustedKey == l.trustedKey && m.disk.row == l.disk.row
  }

  // The handshake is another device's.
  predicate Names(env: Env, h: Hello) {
    h.identity.Some? && h.identity.value.id != env.me.id && h.identity.value.publicKey != env.me.publicKey
  }

  lemma GrantEffect(env: Env, l: Link, code: Code)
    requires LinkOk(l) && Unverified(l) && l.revokedAt.None?
    ensures var m := Grant(env, l, code);
      && Welcomed(env, l, m, code) && m.revokedAt.None? && m.ladders == Ladders(None, None)
      && m.events == l.events + [Verified(code)] && m.conn.value.handshakeSent && m.conn.value.trust.verified
  {
    hide ApplyHandshake, FlushBuffered, OnTrustGranted, Greeted;
    var trust := l.conn.value.trust.(trusted := true, watchdog := false, verified := true);
    var trusted := Emit(With(l, l.conn.value.(trust := trust)).(ladders := Ladders(None, None)), Verified(code));
    GrantedEffect(env, trusted, code);
    if Flushes(env, trusted) {
      GreetedStands(env, trusted.conn.value.(code := Some(code), stream := true), trusted.conn.value.buffered.value);
    }
  }

  lemma ReconfirmEffect(env: Env, l: Link, code: Code)
    requires l.conn.Some? && l.conn.value.trust.trusted
    ensures var m := OnTrustGranted(env, With(l, Disarm(l.conn.value)), code);
      && Welcomed(env, l, m, code) && m.revokedAt == l.revokedAt
      && m.events == l.events + (if l.conn.value.buffered.None? && Introduced(l.conn.value) then [TrustPaired(Some(code))] else [])
  {
    hide OnTrustGranted, Greeted;
    var k := With(l, Disarm(l.conn.value));
    GrantedEffect(env, k, code);
    if Flushes(env, k) {
      GreetedStands(env, k.conn.value.(code := Some(code), stream := true), k.conn.value.buffered.value);
    }
  }

  // Every answer, right or wrong.
  lemma AnswerEffect(secrets: seq<Secret>, env: Env, l: Link, input: Input)
    requires LinkOk(l) && IsAnswer(l, input)
    ensures var m := Next(secrets, env, l, input);
      && m.conn.Some?
      && (Admits(secrets, l, input) ==>
            Welcomed(env, l, m, RightCode(l, input)) && m.revokedAt.None? && m.events == l.events + [Verified(RightCode(l, input))]
            && m.ladders == Ladders(None, None) && m.conn.value.handshakeSent && m.conn.value.trust.verified)
      && (Reconfirms(l, input) ==>
            && Welcomed(env, l, m, RightCode(l, input)) && m.revokedAt == l.revokedAt
            && m.events == l.events + (if l.conn.value.buffered.None? && Introduced(l.conn.value) then [TrustPaired(Some(RightCode(l, input)))] else []))
      && (Refuses(secrets, l, input) ==>
            && m == l.(conn := m.conn) && m.conn.value.destroyed && !m.conn.value.trust.trusted
            && m.conn.value.code == l.conn.value.code && m.conn.value.trust.mode == l.conn.value.trust.mode
            && m.conn.value.stream == l.conn.value.stream)
      && (Fails(l, input) ==>
            && m.conn.value.destroyed && !m.conn.value.trust.trusted && m.conn.value.code == l.conn.value.code
            && m.conn.value.trust.mode == l.conn.value.trust.mode && m.conn.value.stream == l.conn.value.stream
            && m == l.(conn := m.conn, ladders := m.ladders, events := m.events) && m.ladders == RecordFailure(l.ladders, env.now)
            && m.events == l.events + [PairingFailed(if Answered(l, input) == |l.conn.value.talk.outstanding| then NonceMismatch else MacMismatch)])
      && (!RightAnswer(l, input) && !Fails(l, input) ==> m == l)
      && (RightAnswer(l, input) && !Unverified(l) && !Reconfirms(l, input) ==> m == l)
  {
    hide OnTrustGranted, Grant, IndexOf, Greeted;
    if RightAnswer(l, input) {
      var c := l.conn.value;
      var f := With(l, c.(talk := Forget(c.talk, Answered(l, input))));
      if c.trust.trusted {
        ReconfirmEffect(env, f, RightCode(l, input));
      } else if Admits(secrets, l, input) {
        GrantEffect(env, if f.revokedAt.Some? then UnrevokeKey(f) else f, RightCode(l, input));
      }
    }
  }

  // ─── Everything that is announced ─────────────────────────────────────────

  /** A sync message of a trusted peer is served unless it is about a library of which the
      peer is no partner. */
  predicate Permitted(env: Env, k: SyncKind, library: string) {
    k !in {Index, Delete, Verify, VerifyResult, InviteAccept, InviteDecline, Remove} || library == "" || library in env.partnerOf
  }

  predicate Offers(l: Link, input: Input) {
    Arrives(l, input) && input.msg.TransferOffer? && l.conn.value.trust.trusted
  }

  predicate Syncs(env: Env, l: Link, input: Input) {
    Arrives(l, input) && input.msg.Sync? && l.conn.value.trust.trusted && Permitted(env, input.msg.kind, input.msg.library)
  }

  predicate HeardOnLan(l: Link, input: Input) {
    input.Settled? && input.enabled && l.conn.Some? && l.conn.value.lanCheck
  }

  // A continuation carries the code of its own record: the live one's, or the last of one
  // that is gone.
  function CarriedCode(l: Link, job: Job): Option<Code> {
    match job
    case Attached(_) => (match l.conn case Some(c) => c.code case None => None)
    case Orphan(_, code) => code
  }

  /** What a step announces, and nothing else. */
  function Told(secrets: seq<Secret>, env: Env, l: Link, input: Input): seq<Event> {
    if Fails(l, input) then [PairingFailed(if Answered(l, input) == |l.conn.value.talk.outstanding| then NonceMismatch else MacMismatch)]
    else if Admits(secrets, l, input) then [Verified(RightCode(l, input))]
    else if Reconfirms(l, input) && l.conn.value.buffered.None? && Introduced(l.conn.value) then [TrustPaired(Some(RightCode(l, input)))]
    else if Offers(l, input) then [OfferAccepted]
    else if Syncs(env, l, input) then [SyncDispatched(input.msg.kind, input.msg.library)]
    else if HeardOnLan(l, input) || Finishes(l, input, true) then [LanDetected]
    else if Confirms(l, input) then [TrustPaired(l.conn.value.code)]
    else if Finishes(l, input, false) then [TrustPaired(CarriedCode(l, l.jobs[input.job]))]
    else []
  }

  lemma HandshakeStands(env: Env, c: Conn)
    ensures SendHandshake(env, c) ==
      if c.handshakeSent || !Recognized(c) then c
      else c.(handshakeSent := true, talk := c.talk.(out := c.talk.out + [Hail(env)]))
  {
  }

  lemma LanGreeting(env: Env, c: Conn)
    ensures var d := SendHandshake(env, AsLan(c));
      && d.trust.trusted == c.trust.trusted && d.destroyed == c.destroyed && d.code == c.code && d.stream == c.stream && !d.lanCheck
      && d.trust.mode == (if c.trust.mode.PairingMode? then LanMode else c.trust.mode) && d.buffered == c.buffered
  {
  }

  lemma FlushStands(env: Env, l: Link)
    requires l.conn.Some?
    ensures var m := FlushBuffered(env, l);
      && m == l.(conn := m.conn, jobs := m.jobs) && Stands(l, m) && m.conn.value.lanCheck == l.conn.value.lanCheck
      && m.jobs == l.jobs + (if Flushes(env, l) then [Attached(!l.conn.value.trust.trusted)] else [])
      && m.conn.value.trust.confirmed == l.conn.value.trust.confirmed && (l.conn.value.handshakeSent ==> m.conn.value.handshakeSent)
  {
    hide FlushBuffered, Greeted;
    FlushEffect(env, l);
    if Flushes(env, l) { GreetedStands(env, l.conn.value, l.conn.value.buffered.value); }
  }

  lemma SettledEffect(secrets: seq<Secret>, env: Env, l: Link, enabled: bool)
    requires LinkOk(l) && l.conn.Some?
    ensures var m := Next(secrets, env, l, Settled(enabled));
      && m == l.(conn := m.conn, jobs := m.jobs, events := m.events) && m.conn.Some?
      && m.events == l.events + (if HeardOnLan(l, Settled(enabled)) then [LanDetected] else [])
      && m.jobs == l.jobs + (if HeardOnLan(l, Settled(enabled)) && l.revokedAt.None? && l.conn.value.buffered.Some? && Names(env, l.conn.value.buffered.value)
                             then [Attached(!l.conn.value.trust.trusted)] else [])
      && var c, d := l.conn.value, m.conn.value;
      && d.trust.trusted == c.trust.trusted && d.destroyed == c.destroyed && d.code == c.code && d.stream == c.stream
      && d.trust.mode == (if HeardOnLan(l, Settled(enabled)) && c.trust.mode.PairingMode? then LanMode else c.trust.mode)
      && !d.lanCheck
  {
    hide FlushBuffered, Greeted, SendHandshake, AsLan;
    if HeardOnLan(l, Settled(enabled)) {
      var k := With(l, SendHandshake(env, AsLan(l.conn.value)));
      LanGreeting(env, l.conn.value);
      FlushStands(env, k);
    }
  }

  lemma ConfirmEffect(secrets: seq<Secret>, env: Env, l: Link)
    requires LinkOk(l) && l.conn.Some?
    ensures var m := Next(secrets, env, l, Confirm);
      && m.conn.Some? && (!Confirms(l, Confirm) ==> m == l)
      && (Confirms(l, Confirm) ==>
            && m == l.(conn := m.conn, jobs := m.jobs, events := m.events, trustedKey := true)
            && m.events == l.events + [TrustPaired(l.conn.value.code)]
            && m.jobs == l.jobs + (if l.conn.value.buffered.Some? && Names(env, l.conn.value.buffered.value) then [Attached(false)] else [])
            && m.conn.value.trust.trusted && m.conn.value.trust.mode.DirectMode? && m.conn.value.trust.confirmed && m.conn.value.stream
            && m.conn.value.handshakeSent && m.conn.value.destroyed == l.conn.value.destroyed && m.conn.value.code == l.conn.value.code)
  {
    hide FlushBuffered, Greeted;
    var trust := l.conn.value.trust.(mode := DirectMode, trusted := true, watchdog := false, confirmed := true);
    var greeted := With(AddTrustedKey(l), ReplicateExchange(SendHandshake(env, l.conn.value.(trust := trust))));
    FlushStands(env, greeted);
  }

  // A message that leaves tier, code and rows as they are.
  ghost predicate Stands(l: Link, m: Link) {
    && l.conn.Some? && m.conn.Some? && m.ladders == l.ladders && m.disk == l.disk && m.revokedAt == l.revokedAt && m.trustedKey == l.trustedKey
    && var c, d := l.conn.value, m.conn.value;
    && d.trust.trusted == c.trust.trusted && d.trust.mode == c.trust.mode && d.code == c.code && d.stream == c.stream && d.destroyed == c.destroyed
  }

  lemma HelloEffect(env: Env, l: Link, h: Hello)
    requires l.conn.Some?
    ensures var m := ReceiveHandshake(env, l, h);
      Stands(l, m) && m.events == l.events && m.jobs == l.jobs + (if Applies(env, l, h) then [Attached(!l.conn.value.trust.trusted)] else [])
  {
    hide ApplyHandshake, Greeted;
    ApplyEffect(env, l, h);
    if Applies(env, l, h) { GreetedStands(env, l.conn.value, h); }
  }

  lemma ToldOfNotice(secrets: seq<Secret>, env: Env, l: Link, input: Input)
    requires Arrives(l, input) && !input.msg.Response?
    ensures Told(secrets, env, l, input) ==
      if Offers(l, input) then [OfferAccepted]
      else if Syncs(env, l, input) then [SyncDispatched(input.msg.kind, input.msg.library)]
      else []
  {
  }

  // Messages other than challenges and answers.
  lemma NoticeEffect(secrets: seq<Secret>, env: Env, l: Link, input: Input)
    requires Arrives(l, input) && !input.msg.Challenge? && !input.msg.Response?
    ensures var m := Next(secrets, env, l, input);
      && m.conn.Some? && m.events == l.events + Told(secrets, env, l, input)
      && (!input.msg.DeviceRemoved? ==> Stands(l, m))
      && (input.msg.DeviceRemoved? ==> m == Destroyed(RevokeKey(l, env.now)))
      && m.jobs == l.jobs + (if input.msg.Handshake? && Applies(env, l, input.msg.hello) then [Attached(!l.conn.value.trust.trusted)] else [])
  {
    hide ReceiveHandshake, ReceiveSync, Applies, RevokeKey, Permitted, Denies, Told;
    ToldOfNotice(secrets, env, l, input);
    match input.msg
    case Handshake(h) => HelloEffect(env, l, h);
    case Sync(k, library) => SyncEffect(env, l, k, library);
    case TransferOffer =>
    case DeviceRemoved => RemovalTellsNothing(l, env.now);
  }

  function Destroyed(l: Link): Link
    requires l.conn.Some?
  {
    With(l, l.conn.value.(destroyed := true))
  }

  /** A revoked key is out of the trusted set at once, the write of its revocation is
      queued, and nothing else changes. */
  lemma RemovalTellsNothing(l: Link, now: nat)
    ensures var m := RevokeKey(l, now);
      && m.revokedAt == Some(now) && !m.trustedKey && m.revocations == l.revocations + 1
      && m.disk == l.disk.(writes := l.disk.writes + [Some(now)])
      && m == l.(revokedAt := m.revokedAt, trustedKey := false, revocations := m.revocations, disk := m.disk)
  {
  }

  // The gate of sync messages.
  lemma SyncEffect(env: Env, l: Link, k: SyncKind, library: string)
    requires l.conn.Some?
    ensures var m := ReceiveSync(env, l, k, library);
      && m == l.(conn := m.conn, deniedAt := m.deniedAt, events := m.events) && m.conn.Some?
      && m.conn == Some(l.conn.value.(talk := l.conn.value.talk.(out := m.conn.value.talk.out)))
      && m.events == l.events + (if l.conn.value.trust.trusted && Permitted(env, k, library) then [SyncDispatched(k, library)] else [])
      && (if Denies(env, l, k, library)
          then m.deniedAt == l.deniedAt[(k, library) := env.now] && m.conn.value.talk.out == l.conn.value.talk.out + [Sync(DeniedNotice, library)]
          else m.deniedAt == l.deniedAt && m.conn == l.conn)
  {
    hide SendSyncDenied, LibraryBound, Denies;
    if !l.conn.value.trust.trusted && l.conn.value.trust.mode.LanMode? { DenialEffect(env, l, k, library); }
    OnlyLanDenied(env, l, k, library);
    BoundKinds(k);
  }

  lemma OnlyLanDenied(env: Env, l: Link, k: SyncKind, library: string)
    ensures Denies(env, l, k, library) ==> l.conn.Some? && !l.conn.value.trust.trusted && l.conn.value.trust.mode.LanMode?
  {
  }

  lemma BoundKinds(k: SyncKind)
    ensures LibraryBound(k) <==> k in {Index, Delete, Verify, VerifyResult, InviteAccept, InviteDecline, Remove}
  {
  }

  lemma DenialEffect(env: Env, l: Link, k: SyncKind, library: string)
    requires l.conn.Some? && !l.conn.value.trust.trusted && l.conn.value.trust.mode.LanMode?
    ensures SendSyncDenied(env, l, k, library) ==
      if Denies(env, l, k, library) then
        l.(deniedAt := l.deniedAt[(k, library) := env.now],
           conn := Some(l.conn.value.(talk := l.conn.value.talk.(out := l.conn.value.talk.out + [Sync(DeniedNotice, library)]))))
      else l
  {
  }

  /** A LAN peer is told that it is not paired, once in ten seconds for each kind of message
      and library; nobody else is told anything. */
  predicate Denies(env: Env, l: Link, k: SyncKind, library: string) {
    l.conn.Some? && !l.conn.value.trust.trusted && l.conn.value.trust.mode.LanMode?
    && env.now - (if (k, library) in l.deniedAt then l.deniedAt[(k, library)] else 0) >= 10000
  }

  lemma ChallengeTellsNothing(secrets: seq<Secret>, env: Env, l: Link, input: Input)
    requires Arrives(l, input) && input.msg.Challenge?
    ensures SameStanding(l, Next(secrets, env, l, input))
  {
    hide HandleChallenge;
    HandleChallengeStanding(secrets, env, l, input.msg.codeId, input.msg.nonce);
  }

  /** In every step exactly that is announced: in particular nothing is served to a peer
      that is not trusted, and every offer of a trusted one is accepted. */
  lemma EventsExact(secrets: seq<Secret>, env: Env, l: Link, input: Input)
    requires LinkOk(l)
    ensures Next(secrets, env, l, input).events == l.events + Told(secrets, env, l, input)
  {
    hide HandlePeerMessage, SendChallengesToAll, CodeEntered, ChannelReady, LanSettled, ConfirmLanPeer;
    if IsAnswer(l, input) {
      AnswerEffect(secrets, env, l, input);
    } else if Arrives(l, input) && input.msg.Challenge? {
      ChallengeTellsNothing(secrets, env, l, input);
    } else if Arrives(l, input) && input.msg.Response? {
      HalfAnswer(secrets, env, l, input);
    } else if Arrives(l, input) {
      NoticeEffect(secrets, env, l, input);
    } else if input.Entered? || input.Generated? || input.Drive? {
      ChallengingStands(secrets, env, l, input);
    } else if input.Ready? {
      ReadyStands(secrets, env, l);
    } else if input.Settled? && l.conn.Some? {
      SettledEffect(secrets, env, l, input.enabled);
    } else if input.Confirm? && l.conn.Some? {
      ConfirmEffect(secrets, env, l);
    } else {
      QuietTells(secrets, env, l, input);
    }
  }

  lemma HalfAnswer(secrets: seq<Secret>, env: Env, l: Link, input: Input)
    requires Arrives(l, input) && input.msg.Response? && !IsAnswer(l, input)
    ensures Next(secrets, env, l, input) == l
  {
  }

  lemma UnheardTells(secrets: seq<Secret>, env: Env, l: Link, input: Input)
    requires !Arrives(l, input)
    ensures !Fails(l, input) && !Admits(secrets, l, input) && !Reconfirms(l, input) && !Offers(l, input) && !Syncs(env, l, input)
  {
  }

  lemma QuietTells(secrets: seq<Secret>, env: Env, l: Link, input: Input)
    requires !Arrives(l, input) && !input.Entered? && !input.Generated? && !input.Drive? && !input.Ready?
    requires (input.Settled? || input.Confirm?) ==> l.conn.None?
    ensures Next(secrets, env, l, input).events == l.events + Told(secrets, env, l, input)
  {
    hide Fails, Admits, Reconfirms, Offers, Syncs, RecordUnanswered;
    UnheardTells(secrets, env, l, input);
  }
}
