/** The account of PairingTokens, for every step of an engine over one connection. */
module PairingSteps {
  import opened Options
  import opened Pairing
  import opened Sums
  import opened LinkInvariants
  import opened PairingTokens

  // ─── Steps that only talk ─────────────────────────────────────────────────

  // What is announced besides verifications and failures.
  predicate News(v: Event) {
    !v.Verified? && !v.PairingFailed?
  }

  ghost predicate Tells(a: seq<Event>, b: seq<Event>) {
    forall v | v in b :: v in a || News(v)
  }

  // At most one handshake was sent, and the flag went up with it.
  ghost predicate Spoke(c: Conn, d: Conn) {
    || (d.talk.out == c.talk.out && d.handshakeSent == c.handshakeSent)
    || (!c.handshakeSent && d.handshakeSent && d.talk.out != [] && d.talk.out[..|d.talk.out| - 1] == c.talk.out
        && d.talk.out[|d.talk.out| - 1].Handshake? && d.talk.out[|d.talk.out| - 1].hello.identity.Some?)
  }

  ghost predicate ConnChat(c: Conn, d: Conn) {
    && d.side == c.side && (c.trust.trusted ==> d.trust.trusted) && (c.destroyed ==> d.destroyed)
    && d.talk == c.talk.(out := d.talk.out) && Spoke(c, d)
  }

  ghost predicate Chat(l: Link, m: Link) {
    l.conn.Some? && m.conn.Some? && ConnChat(l.conn.value, m.conn.value) && Tells(l.events, m.events)
  }

  lemma ChatTransitive(a: Link, b: Link, c: Link)
    requires Chat(a, b) && Chat(b, c)
    ensures Chat(a, c)
  {
  }

  lemma ChatOk(l: Link, m: Link, held: set<Code>)
    requires ConnOk(l, held) && Chat(l, m)
    ensures ConnOk(m, held)
  {
    var t, u := l.conn.value.talk, m.conn.value.talk;
    if u.out != t.out { assert u.out == t.out + [u.out[|u.out| - 1]]; }
  }

  lemma ChatTurn(l: Link, m: Link, e: Entry)
    requires Chat(l, m)
    ensures Turn(l, m, e, 0, true)
  {
    var t, u := l.conn.value.talk, m.conn.value.talk;
    if u.out != t.out {
      assert u.out == t.out + [u.out[|u.out| - 1]];
      SayMoves(t, u.out[|u.out| - 1], e);
    }
  }

  lemma HandshakeChat(env: Env, c: Conn)
    ensures ConnChat(c, SendHandshake(env, c))
  {
    var d := SendHandshake(env, c);
    if d != c { assert d.talk.out[..|d.talk.out| - 1] == c.talk.out; }
  }

  lemma ApplyChat(env: Env, l: Link, h: Hello)
    requires l.conn.Some?
    ensures Chat(l, ApplyHandshake(env, l, h))
  {
    hide SendHandshake, IsSelf;
    if h.identity.Some? { HandshakeChat(env, Introduced(l.conn.value, h.identity.value)); }
  }

  lemma FlushChat(env: Env, l: Link)
    requires l.conn.Some?
    ensures Chat(l, FlushBuffered(env, l))
  {
    if l.conn.value.buffered.Some? {
      ApplyChat(env, With(l, l.conn.value.(buffered := None)), l.conn.value.buffered.value);
    }
  }

  lemma GrantedChat(env: Env, l: Link, code: Code)
    requires l.conn.Some?
    ensures Chat(l, OnTrustGranted(env, l, code))
  {
    var told := With(l, ReplicateExchange(l.conn.value.(code := Some(code))));
    FlushChat(env, told);
    assert Chat(l, told);
    ChatTransitive(l, told, FlushBuffered(env, told));
  }

  lemma EmitChat(l: Link, m: Link, v: Event)
    requires Chat(l, m) && News(v)
    ensures Chat(l, Emit(m, v))
  {
  }

  lemma GreetChat(env: Env, l: Link, c: Conn)
    requires l.conn.Some? && ConnChat(l.conn.value, c)
    ensures Chat(l, FlushBuffered(env, With(l, c)))
  {
    FlushChat(env, With(l, c));
    ChatTransitive(l, With(l, c), FlushBuffered(env, With(l, c)));
  }

  lemma SettledChat(env: Env, l: Link, enabled: bool)
    requires l.conn.Some?
    ensures Chat(l, LanSettled(env, l, enabled))
  {
    var lan := AsLan(l.conn.value);
    HandshakeChat(env, lan);
    GreetChat(env, l, SendHandshake(env, lan));
    EmitChat(l, FlushBuffered(env, With(l, SendHandshake(env, lan))), LanDetected);
  }

  lemma ConfirmChat(env: Env, l: Link)
    requires l.conn.Some?
    ensures Chat(l, ConfirmLanPeer(env, l))
  {
    var trust := l.conn.value.trust.(mode := DirectMode, trusted := true, watchdog := false, confirmed := true);
    var c := l.conn.value.(trust := trust);
    var greeted := With(AddTrustedKey(l), ReplicateExchange(SendHandshake(env, c)));
    HandshakeChat(env, c);
    assert Chat(l, greeted);
    FlushChat(env, greeted);
    ChatTransitive(l, greeted, FlushBuffered(env, greeted));
  }

  // Inputs that only touch the record, the trust store, the disk or the handshake.
  predicate Chatty(input: Input) {
    || input.Watchdog? || input.Heard? || input.Settled? || input.Confirm?
    || input.Finish? || input.Revoke? || input.Flush? || input.WriteRow?
  }

  lemma ChattyStep(secrets: seq<Secret>, env: Env, l: Link, input: Input)
    requires l.conn.Some? && Chatty(input)
    ensures Chat(l, Next(secrets, env, l, input))
  {
    hide LanSettled, ConfirmLanPeer;
    match input
    case Settled(enabled) => SettledChat(env, l, enabled);
    case Confirm => ConfirmChat(env, l);
    case _ =>
  }

  // ─── Every local step ─────────────────────────────────────────────────────

  // Steps an engine takes by itself while a connection lasts.
  predicate Local(input: Input) {
    !input.Open? && !input.Close? && !input.Receive? && !input.Reboot?
  }

  lemma ReadyStep(secrets: seq<Secret>, env: Env, l: Link, held: set<Code>, e: Entry)
    requires ConnOk(l, held) && Holds(held, secrets)
    ensures ConnOk(ChannelReady(secrets, env, l), held) && Turn(l, ChannelReady(secrets, env, l), e, 0, true)
    ensures ChannelReady(secrets, env, l).events == l.events
    ensures ChannelReady(secrets, env, l).conn.value.talk.pending == l.conn.value.talk.pending
  {
    HandshakeChat(env, l.conn.value);
    var greeted := With(l, SendHandshake(env, l.conn.value));
    ChatOk(l, greeted, held);
    ChatTurn(l, greeted, e);
    SendChallengesOk(secrets, env, l, false, held);
    SendChallengesTurn(secrets, env, l, false, e);
    SendChallengesStanding(secrets, env, l, false);
  }

  lemma NotifyStep(l: Link, held: set<Code>, e: Entry)
    requires ConnOk(l, held)
    ensures ConnOk(NotifyRemoved(l), held) && Turn(l, NotifyRemoved(l), e, 0, true)
    ensures NotifyRemoved(l).conn.value.talk.pending == l.conn.value.talk.pending
  {
    var c := l.conn.value;
    var d := Say(c, DeviceRemoved);
    SayMoves(c.talk, DeviceRemoved, e);
    assert ConnTurn(c, d, e, 0, true) && CardOk(d, held);
    assert NotifyRemoved(l).conn == Some(d);
  }

  lemma NotifyTells(l: Link)
    ensures NotifyRemoved(l).events == l.events
  {
  }

  // No message of `l` to its peer gets lost on our side.
  predicate Keeps(l: Link) {
    Attentive(l) && |l.conn.value.talk.pending| <= MAX_PENDING
  }

  lemma ChattyTurn(secrets: seq<Secret>, env: Env, l: Link, input: Input, held: set<Code>, e: Entry)
    requires ConnOk(l, held) && Chatty(input)
    ensures var m := Next(secrets, env, l, input);
            ConnOk(m, held) && Turn(l, m, e, 0, true) && Tells(l.events, m.events)
  {
    hide Next;
    ChattyStep(secrets, env, l, input);
    ChatOk(l, Next(secrets, env, l, input), held);
    ChatTurn(l, Next(secrets, env, l, input), e);
  }

  lemma TurnWeakens(l: Link, m: Link, e: Entry, lossless: bool)
    requires Turn(l, m, e, 0, true)
    ensures Turn(l, m, e, 0, lossless)
  {
  }

  lemma LocalStep(secrets: seq<Secret>, env: Env, l: Link, input: Input, held: set<Code>, e: Entry)
    requires ConnOk(l, held) && Holds(held, secrets) && Local(input)
    requires input.Entered? ==> input.code in held
    ensures var m := Next(secrets, env, l, input);
            && ConnOk(m, held) && Turn(l, m, e, 0, Keeps(l)) && Tells(l.events, m.events)
  {
    hide SendChallengesToAll, CodeEntered, ChannelReady, NotifyRemoved, LanSettled, ConfirmLanPeer, FinishJob, Turn, ConnOk;
    match input
    case Ready =>
      ReadyStep(secrets, env, l, held, e);
      TurnWeakens(l, ChannelReady(secrets, env, l), e, Keeps(l));
    case Entered(code) =>
      EnteredOk(secrets, env, l, code, held, e);
      CodeEnteredStanding(secrets, env, l, code);
    case Generated => DriveStep(secrets, env, l, false, held, e);
    case Drive => DriveStep(secrets, env, l, true, held, e);
    case Notify =>
      NotifyStep(l, held, e);
      NotifyTells(l);
      TurnWeakens(l, NotifyRemoved(l), e, Keeps(l));
    case _ =>
      ChattyTurn(secrets, env, l, input, held, e);
      TurnWeakens(l, Next(secrets, env, l, input), e, Keeps(l));
  }

  lemma DriveStep(secrets: seq<Secret>, env: Env, l: Link, force: bool, held: set<Code>, e: Entry)
    requires ConnOk(l, held) && Holds(held, secrets)
    ensures var m := SendChallengesToAll(secrets, env, l, force);
            ConnOk(m, held) && Turn(l, m, e, 0, Keeps(l)) && m.events == l.events
  {
    ToAllOk(secrets, env, l, force, held);
    ToAllTurn(secrets, env, l, force, held, e);
    ToAllStanding(secrets, env, l, force);
  }

  // ─── Receiving ────────────────────────────────────────────────────────────

  lemma ChallengeStep(secrets: seq<Secret>, env: Env, l: Link, m: Msg, held: set<Code>, e: Entry)
    requires ConnOk(l, held) && Holds(held, secrets) && m.Challenge? && Honest(m, held)
    ensures var after := HandlePeerMessage(secrets, env, l, m);
            && ConnOk(after, held)
            && Turn(l, after, e, AskOf(e)(m),
                    Attentive(l) && (Usable(secrets, m.codeId.value, env.now) || |l.conn.value.talk.pending| < MAX_PENDING))
            && after.events == l.events
  {
    var u := Unanswered(m.codeId.value, m.nonce.value);
    HandledOk(secrets, env, l, u, held);
    HandledTurn(secrets, env, l, u, e);
    HandleChallengeStanding(secrets, env, l, m.codeId, m.nonce);
  }

  // Handshakes and removals carry no token.
  lemma NoticeStep(secrets: seq<Secret>, env: Env, l: Link, m: Msg)
    requires l.conn.Some? && (m.Handshake? || m.DeviceRemoved?)
    ensures Chat(l, HandlePeerMessage(secrets, env, l, m))
  {
    if m.Handshake? { ApplyChat(env, l, m.hello); }
  }

  // The link with the answered entry taken off the outstanding list.
  function Forgotten(l: Link, i: nat): Link
    requires l.conn.Some? && i < |l.conn.value.talk.outstanding|
  {
    With(l, l.conn.value.(talk := Forget(l.conn.value.talk, i)))
  }

  // As Tells, but a verification of `code` may be announced.
  ghost predicate TellsOf(a: seq<Event>, b: seq<Event>, code: Code) {
    forall v | v in b :: v in a || News(v) || v == Verified(code)
  }

  lemma GrantStep(env: Env, l: Link, code: Code)
    requires l.conn.Some?
    ensures var m := Grant(env, l, code);
            m.conn.Some? && ConnChat(l.conn.value, m.conn.value) && TellsOf(l.events, m.events, code) && m.conn.value.trust.trusted
  {
    var trust := l.conn.value.trust.(trusted := true, watchdog := false, verified := true);
    var trusted := Emit(With(l, l.conn.value.(trust := trust)).(ladders := Ladders(None, None)), Verified(code));
    GrantedChat(env, trusted, code);
    HandshakeChat(env, OnTrustGranted(env, trusted, code).conn.value);
  }

  lemma AcceptStep(secrets: seq<Secret>, env: Env, l: Link, code: Code)
    requires l.conn.Some?
    ensures var m := Accept(secrets, env, l, code);
            && m.conn.Some? && ConnChat(l.conn.value, m.conn.value) && TellsOf(l.events, m.events, code)
            && (m.conn.value.trust.trusted || m.conn.value.destroyed)
  {
    if l.conn.value.trust.trusted {
      GrantedChat(env, With(l, Disarm(l.conn.value)), code);
    } else {
      GrantStep(env, if l.revokedAt.Some? then UnrevokeKey(l) else l, code);
    }
  }

  lemma {:induction false} IndexOfEntry(o: seq<Entry>, e: Entry)
    requires DistinctNonces(o) && e in o
    ensures IndexOf(o, e.nonce) < |o| && o[IndexOf(o, e.nonce)] == e
  {
    var j :| 0 <= j < |o| && o[j] == e;
    var i := IndexOf(o, e.nonce);
    assert i <= j;
  }

  lemma OwnsMember(o: seq<Entry>, e: Entry)
    requires Owns(o, e) > 0
    ensures e in o
  {
    var i := SumPositive(o, OwnOf(e));
  }

  lemma MemberOwns(o: seq<Entry>, e: Entry)
    requires e in o
    ensures Owns(o, e) > 0
  {
    var i :| 0 <= i < |o| && o[i] == e;
    SumAtLeast(o, i, OwnOf(e));
  }

  // A link that answers to responses at all.
  predicate Listens(l: Link) {
    l.conn.Some? && (l.conn.value.trust.trusted || l.conn.value.trust.mode.PairingMode?)
  }

  /** An answer that matches an outstanding entry is accepted: neither mismatch branch
      is taken. */
  lemma ResponseStep(secrets: seq<Secret>, env: Env, l: Link, e: Entry, held: set<Code>)
    requires ConnOk(l, held) && e in l.conn.value.talk.outstanding
    ensures var i := IndexOf(l.conn.value.talk.outstanding, e.nonce);
            && i < |l.conn.value.talk.outstanding| && l.conn.value.talk.outstanding[i] == e
            && HandlePeerMessage(secrets, env, l, Response(Some(e.nonce), Some(Mac(e.code, e.nonce)))) ==
               if Listens(l) then Accept(secrets, env, Forgotten(l, i), e.code) else l
  {
    IndexOfEntry(l.conn.value.talk.outstanding, e);
  }

  lemma ForgottenOk(l: Link, i: nat, held: set<Code>)
    requires ConnOk(l, held) && i < |l.conn.value.talk.outstanding|
    ensures ConnOk(Forgotten(l, i), held)
  {
    var o, p := l.conn.value.talk.outstanding, Forgotten(l, i).conn.value.talk.outstanding;
    assert forall k | 0 <= k < |p| :: p[k] == if k < i then o[k] else o[k + 1];
  }
}
