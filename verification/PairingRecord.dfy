/** The record of a connection, field by field: what a step that does not go through the
    codes leaves in it, sends over it, and notes about the key beside it. */
module PairingRecord {
  import opened Options
  import opened Pairing
  import opened LinkInvariants
  import opened PairingEffects
  import opened PairingStanding
  import opened PairingExchange

  // The codes are gone through in this step, or a challenge arrives.
  predicate Challenging(env: Env, l: Link, input: Input) {
    || input.Entered? || input.Generated? || input.Drive?
    || (Arrives(l, input) && input.msg.Challenge?)
    || (input.Ready? && l.conn.Some? && !Recognized(l.conn.value) && !env.site && !env.tunnel)
  }

  // The handshake applied in a step that applies one.
  function Greeting(l: Link, input: Input): Hello
    requires l.conn.Some? && (input.Receive? ==> input.msg.Handshake? || l.conn.value.buffered.Some?)
    requires !input.Receive? ==> l.conn.value.buffered.Some?
  {
    if input.Receive? && input.msg.Handshake? then input.msg.hello else l.conn.value.buffered.value
  }

  // We introduce ourselves, once for each connection: to a peer just trusted or recognized,
  // over a channel just opened to one, or in answer to its own handshake.
  predicate Greets(secrets: seq<Secret>, env: Env, l: Link, input: Input) {
    && l.conn.Some? && !l.conn.value.handshakeSent
    && (Starts(secrets, env, l, input) || Admits(secrets, l, input) || Confirms(l, input) || HeardOnLan(l, input)
        || (input.Ready? && Recognized(l.conn.value)))
  }

  // The buffered handshake is dealt with.
  predicate Unbuffers(secrets: seq<Secret>, l: Link, input: Input) {
    Admits(secrets, l, input) || Confirms(l, input) || (l.revokedAt.None? && (Reconfirms(l, input) || HeardOnLan(l, input)))
  }

  predicate NotYet(l: Link, input: Input) {
    Arrives(l, input) && input.msg.Handshake? && (l.revokedAt.Some? || !(l.conn.value.trust.trusted || l.conn.value.trust.mode.LanMode?))
  }

  // The watchdog has nothing more to watch.
  predicate Settles(secrets: seq<Secret>, env: Env, l: Link, input: Input) {
    || input.Watchdog? || Starts(secrets, env, l, input) || Confirms(l, input)
    || (IsAnswer(l, input) && (Unverified(l) || (l.conn.value.trust.trusted && RightAnswer(l, input))))
    || (HeardOnLan(l, input) && l.conn.value.trust.mode.PairingMode?)
  }

  ghost predicate TalkStep(secrets: seq<Secret>, env: Env, l: Link, input: Input, m: Link)
    requires l.conn.Some? && m.conn.Some?
  {
    var t, u := l.conn.value.talk, m.conn.value.talk;
    && u.pending == t.pending && u.drawn == t.drawn
    && u.outstanding ==
       (if RightAnswer(l, input) && (Unverified(l) || l.conn.value.trust.trusted)
        then t.outstanding[..Answered(l, input)] + t.outstanding[Answered(l, input) + 1..] else t.outstanding)
    && u.out == t.out + (if Greets(secrets, env, l, input) then [Hail(env)]
                         else if input.Notify? then [DeviceRemoved]
                         else if Arrives(l, input) && input.msg.Sync? && Denies(env, l, input.msg.kind, input.msg.library)
                         then [Sync(DeniedNotice, input.msg.library)]
                         else [])
  }

  ghost predicate NotesStep(secrets: seq<Secret>, env: Env, l: Link, input: Input, m: Link)
    requires l.conn.Some? && m.conn.Some?
  {
    var c, d := l.conn.value, m.conn.value;
    && (d.handshakeSent <==> c.handshakeSent || Greets(secrets, env, l, input))
    && d.buffered == (if NotYet(l, input) then Some(input.msg.hello) else if Unbuffers(secrets, l, input) then None else c.buffered)
    && (d.lanCheck <==> if input.Settled? then false
                        else c.lanCheck || (input.Heard? && l.revokedAt.None? && !c.trust.trusted && !c.trust.mode.DirectMode?))
    && (d.trust.complete <==> c.trust.complete || (Starts(secrets, env, l, input) && d.trust.trusted))
    && (d.trust.watchdog <==> c.trust.watchdog && !Settles(secrets, env, l, input))
    && (d.trust.verified <==> c.trust.verified || Admits(secrets, l, input))
    && (d.trust.confirmed <==> c.trust.confirmed || Confirms(l, input))
    && d.trust.openedTrusted == c.trust.openedTrusted && d.side == c.side && d.openedAfter == c.openedAfter
    && (!Starts(secrets, env, l, input) ==> d.name == c.name)
  }

  ghost predicate NameStep(secrets: seq<Secret>, env: Env, l: Link, input: Input, m: Link)
    requires l.conn.Some? && m.conn.Some?
  {
    Starts(secrets, env, l, input) ==>
      var h := Greeting(l, input);
      h.identity.Some? && m.conn.value.name == if h.identity.value.name != "" then h.identity.value.name else l.conn.value.name
  }

  // What is kept about the key beside its record.
  ghost predicate BesideStep(secrets: seq<Secret>, env: Env, l: Link, input: Input, m: Link) {
    && m.ladders == (if Fails(l, input) then l.ladders.(failed := Some(Backoff(Times(l.ladders.failed) + 1, env.now + LockoutAfter(Times(l.ladders.failed) + 1))))
                     else if Admits(secrets, l, input) || input.Reboot? then Ladders(None, None)
                     else if Expires(env, l, input) then
                       l.ladders.(unanswered := Some(Backoff(Times(l.ladders.unanswered) + 1, env.now + PauseAfter(Times(l.ladders.unanswered) + 1))))
                     else l.ladders)
    && m.deniedAt == (if input.Reboot? then map[]
                      else if Arrives(l, input) && input.msg.Sync? && Denies(env, l, input.msg.kind, input.msg.library)
                      then l.deniedAt[(input.msg.kind, input.msg.library) := env.now]
                      else l.deniedAt)
    && m.revocations == l.revocations + (if Removes(l, input) then 1 else 0)
  }

  ghost predicate PlainStep(secrets: seq<Secret>, env: Env, l: Link, input: Input, m: Link) {
    && BesideStep(secrets, env, l, input, m)
    && (l.conn.Some? && !Replaces(input) ==>
          m.conn.Some? && TalkStep(secrets, env, l, input, m) && NotesStep(secrets, env, l, input, m) && NameStep(secrets, env, l, input, m))
  }

  // ─── Answers ──────────────────────────────────────────────────────────────

  // The record once its buffered handshake was gone through.
  function Caught(env: Env, c: Conn, revoked: bool): Conn {
    if revoked || c.buffered.None? then c
    else if Names(env, c.buffered.value) then Greeted(env, c, c.buffered.value).(buffered := None)
    else c.(buffered := None)
  }

  lemma FlushRecord(env: Env, l: Link)
    requires l.conn.Some? && Recognized(l.conn.value)
    ensures FlushBuffered(env, l) == l.(conn := Some(Caught(env, l.conn.value, l.revokedAt.Some?)), jobs := FlushBuffered(env, l).jobs)
  {
    hide FlushBuffered, Greeted;
    FlushEffect(env, l);
  }

  // The record after a right answer, in full.
  function Trusted(env: Env, c: Conn, code: Code, revoked: bool): Conn {
    Caught(env, c.(code := Some(code), stream := true), revoked)
  }

  lemma GrantedRecord(env: Env, l: Link, code: Code)
    requires l.conn.Some? && l.conn.value.trust.trusted
    ensures var m := OnTrustGranted(env, l, code);
      && m.conn == Some(Trusted(env, l.conn.value, code, l.revokedAt.Some?))
      && m.ladders == l.ladders && m.deniedAt == l.deniedAt && m.revocations == l.revocations
  {
    hide ApplyHandshake, FlushBuffered, OnTrustGranted, Greeted;
    GrantedEffect(env, l, code);
  }

  lemma GrantRecord(env: Env, l: Link, code: Code)
    requires l.conn.Some? && l.revokedAt.None?
    ensures var m := Grant(env, l, code);
      && m.conn == Some(SendHandshake(env, Trusted(env, l.conn.value.(trust := l.conn.value.trust.(trusted := true, watchdog := false, verified := true)), code, false)))
      && m.ladders == Ladders(None, None) && m.deniedAt == l.deniedAt && m.revocations == l.revocations
  {
    hide OnTrustGranted, Trusted, SendHandshake;
    var trust := l.conn.value.trust.(trusted := true, watchdog := false, verified := true);
    GrantedRecord(env, Emit(With(l, l.conn.value.(trust := trust)).(ladders := Ladders(None, None)), Verified(code)), code);
  }

  lemma AnswerOnly(env: Env, l: Link, input: Input)
    requires IsAnswer(l, input)
    ensures !NotYet(l, input) && !HeardOnLan(l, input) && !Confirms(l, input) && !Expires(env, l, input) && !Removes(l, input) && !Replaces(input)
  {
  }

  function Struck(l: Link, input: Input): Talk
    requires RightAnswer(l, input)
  {
    var t, i := l.conn.value.talk, Answered(l, input);
    t.(outstanding := t.outstanding[..i] + t.outstanding[i + 1..])
  }

  // What each outcome of an answer leaves.
  ghost predicate AnswerLeaves(secrets: seq<Secret>, env: Env, l: Link, input: Input, m: Link)
    requires IsAnswer(l, input)
  {
    var c := l.conn.value;
    && m.deniedAt == l.deniedAt && m.revocations == l.revocations
    && (Admits(secrets, l, input) ==>
          && m.conn == Some(SendHandshake(env, Trusted(env, c.(talk := Struck(l, input), trust := c.trust.(trusted := true, watchdog := false, verified := true)), RightCode(l, input), false)))
          && m.ladders == Ladders(None, None))
    && (Reconfirms(l, input) ==>
          && m.conn == Some(Trusted(env, c.(talk := Struck(l, input), trust := c.trust.(watchdog := false)), RightCode(l, input), l.revokedAt.Some?))
          && m.ladders == l.ladders)
    && (Refuses(secrets, l, input) ==>
          && m.conn == Some(c.(talk := Struck(l, input), trust := c.trust.(watchdog := false), destroyed := true)) && m.ladders == l.ladders)
    && (Fails(l, input) ==>
          && m.conn == Some(c.(trust := c.trust.(watchdog := false), destroyed := true)) && m.ladders == RecordFailure(l.ladders, env.now))
    && (!Admits(secrets, l, input) && !Reconfirms(l, input) && !Refuses(secrets, l, input) && !Fails(l, input) ==> m == l)
  }

  lemma RightRecord(secrets: seq<Secret>, env: Env, l: Link, input: Input)
    requires RightAnswer(l, input)
    ensures AnswerLeaves(secrets, env, l, input, Next(secrets, env, l, input))
  {
    hide OnTrustGranted, Grant, IndexOf, FreshSecret, Trusted, SendHandshake, RecordFailure;
    var c := l.conn.value;
    var f := With(l, c.(talk := Forget(c.talk, Answered(l, input))));
    if c.trust.trusted {
      GrantedRecord(env, With(f, Disarm(f.conn.value)), RightCode(l, input));
    } else if Admits(secrets, l, input) {
      GrantRecord(env, if f.revokedAt.Some? then UnrevokeKey(f) else f, RightCode(l, input));
    }
  }

  lemma WrongRecord(secrets: seq<Secret>, env: Env, l: Link, input: Input)
    requires IsAnswer(l, input) && !RightAnswer(l, input)
    ensures AnswerLeaves(secrets, env, l, input, Next(secrets, env, l, input))
  {
    hide Accept, IndexOf, FreshSecret, Trusted, SendHandshake, RecordFailure;
  }

  predicate Pending(env: Env, c: Conn, revoked: bool) {
    !revoked && c.buffered.Some? && Names(env, c.buffered.value)
  }

  lemma CaughtFields(env: Env, c: Conn, revoked: bool)
    ensures var d := Caught(env, c, revoked);
      && d.talk == c.talk.(out := if Pending(env, c, revoked) && !c.handshakeSent then c.talk.out + [Hail(env)] else c.talk.out)
      && d.handshakeSent == (c.handshakeSent || Pending(env, c, revoked))
      && d.buffered == (if revoked then c.buffered else None)
      && d.lanCheck == c.lanCheck && d.side == c.side && d.openedAfter == c.openedAfter
      && d.trust == (if Pending(env, c, revoked) then c.trust.(complete := c.trust.complete || c.trust.trusted, watchdog := false) else c.trust)
      && d.name == (if Pending(env, c, revoked) && c.buffered.value.identity.value.name != "" then c.buffered.value.identity.value.name else c.name)
  {
  }

  lemma AdmitPlain(secrets: seq<Secret>, env: Env, l: Link, input: Input)
    requires LinkOk(l) && Admits(secrets, l, input)
    ensures PlainStep(secrets, env, l, input, Next(secrets, env, l, input))
  {
    hide Next, IndexOf, FreshSecret, NotYet, HeardOnLan, Confirms, Expires, Removes, Replaces, Caught, SendHandshake;
    AnswerOnly(env, l, input);
    RightRecord(secrets, env, l, input);
    var c := l.conn.value;
    var asked := c.(talk := Struck(l, input), trust := c.trust.(trusted := true, watchdog := false, verified := true));
    CaughtFields(env, asked.(code := Some(RightCode(l, input)), stream := true), false);
    HandshakeStands(env, Trusted(env, asked, RightCode(l, input), false));
  }

  lemma ReconfirmPlain(secrets: seq<Secret>, env: Env, l: Link, input: Input)
    requires LinkOk(l) && Reconfirms(l, input)
    ensures PlainStep(secrets, env, l, input, Next(secrets, env, l, input))
  {
    hide Next, IndexOf, FreshSecret, NotYet, HeardOnLan, Confirms, Expires, Removes, Replaces, Caught;
    AnswerOnly(env, l, input);
    RightRecord(secrets, env, l, input);
    var c := l.conn.value;
    CaughtFields(env, c.(talk := Struck(l, input), trust := c.trust.(watchdog := false), code := Some(RightCode(l, input)), stream := true), l.revokedAt.Some?);
  }

  lemma WrongPlain(secrets: seq<Secret>, env: Env, l: Link, input: Input)
    requires LinkOk(l) && IsAnswer(l, input) && !Admits(secrets, l, input) && !Reconfirms(l, input)
    ensures PlainStep(secrets, env, l, input, Next(secrets, env, l, input))
  {
    hide Next, IndexOf, FreshSecret, NotYet, HeardOnLan, Confirms, Expires, Removes, Replaces, LockoutAfter, PauseAfter, RecordFailure;
    AnswerOnly(env, l, input);
    if RightAnswer(l, input) { RightRecord(secrets, env, l, input); } else { WrongRecord(secrets, env, l, input); }
    LaddersExact(l.ladders, env.now);
  }

  // ─── Every other step ─────────────────────────────────────────────────────

  lemma NoAnswer(secrets: seq<Secret>, l: Link, input: Input)
    requires !IsAnswer(l, input)
    ensures !RightAnswer(l, input) && !Admits(secrets, l, input) && !Refuses(secrets, l, input) && !Fails(l, input) && !Reconfirms(l, input)
  {
  }

  // A step about no handshake, no user's word and no LAN sighting.
  lemma Uneventful(secrets: seq<Secret>, env: Env, l: Link, input: Input)
    requires !IsAnswer(l, input) && !Confirms(l, input) && !HeardOnLan(l, input) && !(Arrives(l, input) && input.msg.Handshake?)
    ensures !Starts(secrets, env, l, input) && !Unbuffers(secrets, l, input) && !NotYet(l, input)
    ensures Settles(secrets, env, l, input) <==> input.Watchdog?
    ensures Greets(secrets, env, l, input) <==> input.Ready? && l.conn.Some? && !l.conn.value.handshakeSent && Recognized(l.conn.value)
  {
    hide RightAnswer, Arrives, Names, Applies;
    NoAnswer(secrets, l, input);
  }

  lemma Eventful(secrets: seq<Secret>, env: Env, l: Link, input: Input)
    requires Confirms(l, input) || HeardOnLan(l, input)
    ensures Starts(secrets, env, l, input) <==> l.revokedAt.None? && BufferApplies(env, l)
    ensures Unbuffers(secrets, l, input) <==> l.revokedAt.None?
    ensures !NotYet(l, input) && (Greets(secrets, env, l, input) <==> !l.conn.value.handshakeSent)
    ensures Confirms(l, input) || l.conn.value.trust.mode.PairingMode? ==> Settles(secrets, env, l, input)
    ensures Settles(secrets, env, l, input) ==> Starts(secrets, env, l, input) || Confirms(l, input) || l.conn.value.trust.mode.PairingMode?
  {
    hide RightAnswer, Arrives, Names, Applies;
    NothingArrives(secrets, l, input);
    NoAnswer(secrets, l, input);
  }

  lemma HelloOnly(secrets: seq<Secret>, env: Env, l: Link, input: Input)
    requires Arrives(l, input) && input.msg.Handshake?
    ensures Starts(secrets, env, l, input) <==> Applies(env, l, input.msg.hello)
    ensures !Unbuffers(secrets, l, input) && (Settles(secrets, env, l, input) <==> Applies(env, l, input.msg.hello))
    ensures Greets(secrets, env, l, input) <==> Applies(env, l, input.msg.hello) && !l.conn.value.handshakeSent
  {
    hide RightAnswer, Applies, Names;
    NoAnswer(secrets, l, input);
  }

  lemma HelloPlain(secrets: seq<Secret>, env: Env, l: Link, input: Input)
    requires LinkOk(l) && Arrives(l, input) && input.msg.Handshake?
    ensures PlainStep(secrets, env, l, input, Next(secrets, env, l, input))
  {
    hide RightAnswer, Admits, Fails, ApplyHandshake, Denies, LockoutAfter, PauseAfter, Starts, Unbuffers, Settles, Greets;
    NoAnswer(secrets, l, input);
    HelloOnly(secrets, env, l, input);
    ApplyEffect(env, l, input.msg.hello);
  }

  lemma SyncPlain(secrets: seq<Secret>, env: Env, l: Link, input: Input)
    requires LinkOk(l) && Arrives(l, input) && input.msg.Sync?
    ensures PlainStep(secrets, env, l, input, Next(secrets, env, l, input))
  {
    hide RightAnswer, Admits, Fails, ReceiveSync, Denies, Starts, Unbuffers, NotYet, Greets, Settles;
    NoAnswer(secrets, l, input);
    Uneventful(secrets, env, l, input);
    SyncEffect(env, l, input.msg.kind, input.msg.library);
  }

  lemma NoticePlain(secrets: seq<Secret>, env: Env, l: Link, input: Input)
    requires LinkOk(l) && Arrives(l, input) && (input.msg.TransferOffer? || input.msg.DeviceRemoved?)
    ensures PlainStep(secrets, env, l, input, Next(secrets, env, l, input))
  {
    hide RightAnswer, Admits, Fails, Denies, Starts, Unbuffers, NotYet, Greets, Settles, LockoutAfter, PauseAfter;
    NoAnswer(secrets, l, input);
    Uneventful(secrets, env, l, input);
  }

  lemma IgnoredPlain(secrets: seq<Secret>, env: Env, l: Link, input: Input)
    requires LinkOk(l) && input.Receive? && (!Arrives(l, input) || input.msg.Response?) && !IsAnswer(l, input)
    ensures PlainStep(secrets, env, l, input, Next(secrets, env, l, input))
  {
    hide RightAnswer, Admits, Fails, Denies, Starts, Unbuffers, NotYet, Greets, Settles, LockoutAfter, PauseAfter;
    NoAnswer(secrets, l, input);
    Uneventful(secrets, env, l, input);
  }

  lemma LanRecord(env: Env, c: Conn)
    requires RecordOk(c)
    ensures SendHandshake(env, AsLan(c)) ==
      c.(lanCheck := false, handshakeSent := true,
         trust := (if c.trust.mode.PairingMode? then c.trust.(mode := LanMode, watchdog := false) else c.trust),
         talk := (if c.handshakeSent then c.talk else c.talk.(out := c.talk.out + [Hail(env)])))
  {
  }

  lemma HeardPlain(secrets: seq<Secret>, env: Env, l: Link)
    requires LinkOk(l) && HeardOnLan(l, Settled(true))
    ensures PlainStep(secrets, env, l, Settled(true), Next(secrets, env, l, Settled(true)))
  {
    hide RightAnswer, Admits, Fails, Denies, Arrives, Starts, Unbuffers, NotYet, Greets, Settles, FlushBuffered, Caught, SendHandshake, AsLan;
    NothingArrives(secrets, l, Settled(true));
    NoAnswer(secrets, l, Settled(true));
    Eventful(secrets, env, l, Settled(true));
    var c := SendHandshake(env, AsLan(l.conn.value));
    LanRecord(env, l.conn.value);
    FlushRecord(env, With(l, c));
    CaughtFields(env, c, l.revokedAt.Some?);
  }

  lemma UnheardPlain(secrets: seq<Secret>, env: Env, l: Link, enabled: bool)
    requires LinkOk(l) && !HeardOnLan(l, Settled(enabled))
    ensures PlainStep(secrets, env, l, Settled(enabled), Next(secrets, env, l, Settled(enabled)))
  {
    hide RightAnswer, Admits, Fails, Denies, Arrives, Starts, Unbuffers, NotYet, Greets, Settles, FlushBuffered, SendHandshake, AsLan;
    NothingArrives(secrets, l, Settled(enabled));
    NoAnswer(secrets, l, Settled(enabled));
    Uneventful(secrets, env, l, Settled(enabled));
  }

  lemma ConfirmPlain(secrets: seq<Secret>, env: Env, l: Link)
    requires LinkOk(l)
    ensures PlainStep(secrets, env, l, Confirm, Next(secrets, env, l, Confirm))
  {
    hide RightAnswer, Admits, Fails, Denies, Arrives, Starts, Unbuffers, NotYet, Greets, Settles, FlushBuffered, Caught, SendHandshake;
    NothingArrives(secrets, l, Confirm);
    NoAnswer(secrets, l, Confirm);
    if Confirms(l, Confirm) {
      Eventful(secrets, env, l, Confirm);
      var trust := l.conn.value.trust.(mode := DirectMode, trusted := true, watchdog := false, confirmed := true);
      var c := SendHandshake(env, l.conn.value.(trust := trust));
      HandshakeStands(env, l.conn.value.(trust := trust));
      FlushRecord(env, With(AddTrustedKey(l), ReplicateExchange(c)));
      CaughtFields(env, ReplicateExchange(c), false);
    } else {
      Uneventful(secrets, env, l, Confirm);
    }
  }

  lemma ReadyPlain(secrets: seq<Secret>, env: Env, l: Link)
    requires LinkOk(l) && !Challenging(env, l, Ready)
    ensures PlainStep(secrets, env, l, Ready, Next(secrets, env, l, Ready))
  {
    hide RightAnswer, Admits, Fails, Denies, Arrives, Starts, Unbuffers, NotYet, Greets, Settles, SendChallenges;
    NothingArrives(secrets, l, Ready);
    NoAnswer(secrets, l, Ready);
    Uneventful(secrets, env, l, Ready);
  }

  lemma TimerPlain(secrets: seq<Secret>, env: Env, l: Link, input: Input)
    requires LinkOk(l) && (input.Heard? || input.Notify?)
    ensures PlainStep(secrets, env, l, input, Next(secrets, env, l, input))
  {
    hide RightAnswer, Admits, Fails, Denies, Arrives, Starts, Unbuffers, NotYet, Greets, Settles;
    NothingArrives(secrets, l, input);
    NoAnswer(secrets, l, input);
    Uneventful(secrets, env, l, input);
  }

  lemma WatchdogPlain(secrets: seq<Secret>, env: Env, l: Link)
    requires LinkOk(l)
    ensures PlainStep(secrets, env, l, Watchdog, Next(secrets, env, l, Watchdog))
  {
    hide RightAnswer, Admits, Fails, Denies, Arrives, Starts, Unbuffers, NotYet, Greets, Settles, RecordUnanswered, LockoutAfter, PauseAfter;
    NothingArrives(secrets, l, Watchdog);
    NoAnswer(secrets, l, Watchdog);
    Uneventful(secrets, env, l, Watchdog);
    LaddersExact(l.ladders, env.now);
  }

  lemma StorePlain(secrets: seq<Secret>, env: Env, l: Link, input: Input)
    requires LinkOk(l) && (input.Revoke? || input.Flush? || input.WriteRow? || Replaces(input))
    ensures PlainStep(secrets, env, l, input, Next(secrets, env, l, input))
  {
    hide RightAnswer, Admits, Fails, Denies, Arrives, Starts, Unbuffers, NotYet, Greets, Settles, LockoutAfter, PauseAfter;
    NothingArrives(secrets, l, input);
    NoAnswer(secrets, l, input);
    Uneventful(secrets, env, l, input);
  }

  lemma FinishKeeps(l: Link, i: nat)
    requires i < |l.jobs|
    ensures var m := FinishJob(l, i);
      m == l.(jobs := m.jobs, disk := m.disk, events := m.events, trustedKey := m.trustedKey)
  {
    hide CodeOf;
  }

  lemma FinishPlain(secrets: seq<Secret>, env: Env, l: Link, i: nat)
    requires LinkOk(l)
    ensures PlainStep(secrets, env, l, Finish(i), Next(secrets, env, l, Finish(i)))
  {
    hide RightAnswer, Admits, Fails, Denies, Arrives, Starts, Unbuffers, NotYet, Greets, Settles, LockoutAfter, PauseAfter, FinishJob;
    if i < |l.jobs| { FinishKeeps(l, i); }
    NothingArrives(secrets, l, Finish(i));
    NoAnswer(secrets, l, Finish(i));
    Uneventful(secrets, env, l, Finish(i));
  }

  /** A step that does not go through the codes and brings no challenge changes exactly this in
      a record, sends exactly this over it, and notes exactly this about the key. */
  lemma RecordExact(secrets: seq<Secret>, env: Env, l: Link, input: Input)
    requires LinkOk(l) && !Challenging(env, l, input)
    ensures PlainStep(secrets, env, l, input, Next(secrets, env, l, input))
  {
    hide PlainStep, Next;
    if IsAnswer(l, input) {
      if Admits(secrets, l, input) {
        AdmitPlain(secrets, env, l, input);
      } else if Reconfirms(l, input) {
        ReconfirmPlain(secrets, env, l, input);
      } else {
        WrongPlain(secrets, env, l, input);
      }
    } else if Arrives(l, input) && input.msg.Handshake? {
      HelloPlain(secrets, env, l, input);
    } else if Arrives(l, input) && input.msg.Sync? {
      SyncPlain(secrets, env, l, input);
    } else if input.Receive? {
      if Arrives(l, input) && !input.msg.Response? { NoticePlain(secrets, env, l, input); } else { IgnoredPlain(secrets, env, l, input); }
    } else {
      match input
      case Settled(enabled) => if HeardOnLan(l, input) { HeardPlain(secrets, env, l); } else { UnheardPlain(secrets, env, l, enabled); }
      case Confirm => ConfirmPlain(secrets, env, l);
      case Ready => ReadyPlain(secrets, env, l);
      case Watchdog => WatchdogPlain(secrets, env, l);
      case Heard => TimerPlain(secrets, env, l, input);
      case Notify => TimerPlain(secrets, env, l, input);
      case Finish(i) => FinishPlain(secrets, env, l, i);
      case _ => StorePlain(secrets, env, l, input);
    }
  }

  // ─── Never more than sixteen challenges are kept ──────────────────────────

  ghost predicate Bounded(l: Link) {
    l.conn.Some? ==> |l.conn.value.talk.pending| <= 16
  }

  lemma ChallengeBounded(secrets: seq<Secret>, env: Env, l: Link, id: Option<CodeId>, nonce: Option<Nonce>)
    requires Bounded(l)
    ensures Bounded(HandleChallenge(secrets, env, l, id, nonce))
  {
    hide HandleChallenge, Held, Asks, Running;
    ChallengeExact(secrets, env, l, id, nonce);
    if l.conn.Some? && id.Some? && nonce.Some? { AskedKeeps(secrets, env, Replied(if env.site then l else Roused(env, l), id.value, nonce.value), HandleChallenge(secrets, env, l, id, nonce), true); }
  }

  lemma AskedKeeps(secrets: seq<Secret>, env: Env, l: Link, m: Link, force: bool)
    ensures Challenges(secrets, env, l, force, m) && Bounded(l) ==> Bounded(m)
  {
    hide Fresh;
  }

  lemma ToAllBounded(secrets: seq<Secret>, env: Env, l: Link, input: Input)
    requires Bounded(l) && (input.Entered? || input.Generated? || input.Drive?)
    ensures Bounded(Next(secrets, env, l, input))
  {
    hide SendChallengesToAll, CodeEntered, Held, Responses, Owed, StillKept, Grows, SameStanding, Probed;
    ChallengingStands(secrets, env, l, input);
    NoRecordAppears(l, Next(secrets, env, l, input));
    if l.conn.Some? {
      FewerKept(secrets, env.now, l.conn.value.talk.pending);
      if input.Entered? { EnteredExact(secrets, env, l, input.code); } else { ToAllExact(secrets, env, l, input.Drive?); }
    }
  }

  lemma NoRecordAppears(l: Link, m: Link)
    requires SameStanding(l, m)
    ensures m.conn.Some? <==> l.conn.Some?
  {
  }

  lemma BoundedStep(secrets: seq<Secret>, env: Env, l: Link, input: Input)
    requires LinkOk(l) && Bounded(l)
    ensures Bounded(Next(secrets, env, l, input))
  {
    hide HandleChallenge, SendChallengesToAll, CodeEntered, ChannelReady, HandleResponse, ReceiveHandshake, ReceiveSync, LanSettled, ConfirmLanPeer, Challenges, PlainStep, LinkOk;
    if input.Entered? || input.Generated? || input.Drive? {
      ToAllBounded(secrets, env, l, input);
    } else if Arrives(l, input) && input.msg.Challenge? {
      ChallengeBounded(secrets, env, l, input.msg.codeId, input.msg.nonce);
    } else if input.Ready? && l.conn.Some? {
      ReadyExact(secrets, env, l);
      AskedKeeps(secrets, env, l, Next(secrets, env, l, input), false);
    } else {
      RecordExact(secrets, env, l, input);
      PlainBounded(secrets, env, l, input, Next(secrets, env, l, input));
    }
  }

  lemma PlainBounded(secrets: seq<Secret>, env: Env, l: Link, input: Input, m: Link)
    requires Bounded(l) && PlainStep(secrets, env, l, input, m) && m == Next(secrets, env, l, input)
    requires !(Arrives(l, input) && input.msg.Challenge?) && !input.Entered? && !input.Generated? && !input.Drive?
    ensures Bounded(m)
  {
    hide Next, BesideStep, NotesStep, NameStep;
    OnlyOpenMakesRecords(secrets, env, l, input);
    if input.Open? { OpenExact(secrets, env, l, input.side, input.lan); }
  }

  /** In no run are more than sixteen unanswered challenges of a peer kept. */
  lemma {:induction false} EveryRunIsBounded(l: Link, steps: seq<Step>)
    requires LinkOk(l) && Bounded(l)
    ensures Bounded(RunLink(l, steps))
  {
    hide Next;
    if steps != [] {
      var n := |steps| - 1;
      EveryRunIsBounded(l, steps[..n]);
      RunKeepsLinkOk(l, steps[..n]);
      BoundedStep(steps[n].secrets, steps[n].env, RunLink(l, steps[..n]), steps[n].input);
    }
  }
}
