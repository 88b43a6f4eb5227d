/** Two engines that meet in the pairing phase and are left in peace: no token is lost, so
    a code they both hold makes both sides trust, and each announces the pairing once. */
module PairingCompletion {
  import opened Options
  import opened Pairing
  import opened Sums
  import opened LinkInvariants
  import opened PairingTokens
  import opened PairingSteps
  import opened PairingWorld

  /** In the pairing phase or verified from it, not revoked, not locked out, not
      suppressed, not being disconnected. */
  ghost predicate Peaceful(l: Link, now: nat) {
    && l.conn.Some? && l.conn.value.trust.mode.PairingMode? && !l.conn.value.destroyed
    && (l.conn.value.trust.complete ==> l.conn.value.trust.trusted)
    && l.revokedAt.None? && !Active(l.ladders.failed, now) && !Active(l.ladders.unanswered, now)
  }

  predicate PlainEnv(env: Env) {
    !env.site && !env.tunnel
  }

  // ─── Steps keep the peace ─────────────────────────────────────────────────

  lemma SendPeaceful(secrets: seq<Secret>, env: Env, l: Link, force: bool)
    requires Peaceful(l, env.now)
    ensures Peaceful(SendChallenges(secrets, env, l, force), env.now)
    ensures l.conn.value.trust.trusted ==> SendChallenges(secrets, env, l, force) == l
    ensures !l.conn.value.trust.trusted ==>
              SendChallenges(secrets, env, l, force).conn.value.talk == ChallengeNow(secrets, env, l.conn.value).talk
  {
    SendChallengesStanding(secrets, env, l, force);
  }

  // A trusted side challenges nobody but by a probe.
  ghost predicate SameAwaited(l: Link, m: Link) {
    l.conn.Some? && m.conn.Some? && (l.conn.value.trust.trusted ==> m.conn.value.talk.outstanding == l.conn.value.talk.outstanding)
  }

  lemma NotePeaceful(env: Env, l: Link, usable: bool)
    requires Peaceful(l, env.now)
    ensures Peaceful(NoteChallenge(env, l, usable), env.now)
  {
  }

  lemma AnswerPeaceful(secrets: seq<Secret>, env: Env, l: Link, code: Code, nonce: Nonce)
    requires Peaceful(l, env.now)
    ensures Peaceful(Answer(secrets, env, l, code, nonce), env.now) && SameAwaited(l, Answer(secrets, env, l, code, nonce))
  {
    NotePeaceful(env, l, true);
    NoteKeepsTalk(env, l, true);
    var noted := NoteChallenge(env, l, true);
    SendPeaceful(secrets, env, With(noted, Say(noted.conn.value, Response(Some(nonce), Some(Mac(code, nonce))))), true);
  }

  lemma HandledPeaceful(secrets: seq<Secret>, env: Env, l: Link, u: Unanswered)
    requires Peaceful(l, env.now)
    ensures Peaceful(Handled(secrets, env, l, u), env.now) && SameAwaited(l, Handled(secrets, env, l, u))
  {
    AnswerPeaceful(secrets, env, l, u.codeId.code, u.nonce);
    NotePeaceful(env, l, false);
    NoteKeepsTalk(env, l, false);
  }

  lemma {:induction false} HandleAllPeaceful(secrets: seq<Secret>, env: Env, l: Link, todo: seq<Unanswered>)
    requires Peaceful(l, env.now)
    ensures Peaceful(HandleAll(secrets, env, l, todo), env.now) && SameAwaited(l, HandleAll(secrets, env, l, todo))
    ensures HandleAll(secrets, env, l, todo).conn.value.trust.trusted == l.conn.value.trust.trusted
  {
    if todo != [] {
      var before := HandleAll(secrets, env, l, todo[..|todo| - 1]);
      HandleAllPeaceful(secrets, env, l, todo[..|todo| - 1]);
      HandledPeaceful(secrets, env, before, todo[|todo| - 1]);
      HandleChallengeStanding(secrets, env, before, Some(todo[|todo| - 1].codeId), Some(todo[|todo| - 1].nonce));
    }
  }

  // Every live secret is challenged, or the peer is trusted already.
  ghost predicate Covered(secrets: seq<Secret>, now: nat, c: Conn) {
    c.trust.trusted || forall s | s in secrets && Live(s, now) :: Challenged(c.talk, s.code)
  }

  lemma ToAllPeaceful(secrets: seq<Secret>, env: Env, l: Link, force: bool, held: set<Code>)
    requires Peaceful(l, env.now) && ConnOk(l, held) && Holds(held, secrets)
    ensures var m := SendChallengesToAll(secrets, env, l, force);
            Peaceful(m, env.now) && SameAwaited(l, m) && Covered(secrets, env.now, m.conn.value)
  {
    var taken := With(l, TakePending(l.conn.value));
    var flushed := FlushPending(secrets, env, l);
    HandleAllPeaceful(secrets, env, taken, l.conn.value.talk.pending);
    HandleAllOk(secrets, env, taken, l.conn.value.talk.pending, held);
    SendPeaceful(secrets, env, flushed, force);
    ChallengeNowOk(secrets, env, flushed.conn.value, held);
  }

  lemma ReadyPeaceful(secrets: seq<Secret>, env: Env, l: Link, held: set<Code>)
    requires Peaceful(l, env.now) && ConnOk(l, held) && Holds(held, secrets) && PlainEnv(env)
    ensures var m := ChannelReady(secrets, env, l);
            Peaceful(m, env.now) && SameAwaited(l, m) && Covered(secrets, env.now, m.conn.value)
  {
    SendPeaceful(secrets, env, l, false);
    ChallengeNowOk(secrets, env, l.conn.value, held);
  }

  lemma EnteredPeaceful(secrets: seq<Secret>, env: Env, l: Link, code: Code, held: set<Code>)
    requires Peaceful(l, env.now) && ConnOk(l, held) && Holds(held, secrets)
    ensures var m := CodeEntered(secrets, env, l, code);
            && Peaceful(m, env.now) && Covered(secrets, env.now, m.conn.value)
            && (l.conn.value.trust.trusted ==>
                  forall e | e in m.conn.value.talk.outstanding :: e in l.conn.value.talk.outstanding || e.code == code)
  {
    var cleared := l.(ladders := l.ladders.(unanswered := None));
    ToAllPeaceful(secrets, env, cleared, true, held);
    ToAllStanding(secrets, env, cleared, true);
  }

  // ─── Moves of an undisturbed meeting ──────────────────────────────────────

  predicate Undisturbing(input: Input) {
    input.Ready? || input.Entered? || input.Generated? || input.Drive? || input.Finish? || input.Flush? || input.WriteRow?
  }

  // Steps by which secrets may come; all others may only lose some.
  predicate Brings(input: Input) {
    input.Entered? || input.Generated?
  }

  ghost predicate CalmAct(w: World, env: Env, input: Input, secrets: seq<Secret>) {
    && env.now == w.now && env.me == w.x.me && PlainEnv(env) && Undisturbing(input) && Proper(secrets, input)
    && (!Brings(input) ==> forall s | s in secrets :: s in w.x.secrets)
  }

  // The message is no removal, and if it is a challenge there is room to set it aside.
  ghost predicate CalmDelivery(w: World, env: Env, i: nat) {
    && env.now == w.now && env.me == w.x.me && PlainEnv(env) && i < |w.yx| && w.x.link.conn.Some?
    && var m := w.yx[i];
    && !m.DeviceRemoved?
    && (m.Challenge? && m.codeId.Some? ==>
          Usable(w.x.secrets, m.codeId.value, w.now) || |w.x.link.conn.value.talk.pending| < MAX_PENDING)
  }

  ghost predicate Calm(w: World, m: Move) {
    match m
    case Acts(side, env, input, secrets) => CalmAct(At(w, side), env, input, secrets)
    case Delivers(side, env, i) => CalmDelivery(At(w, side), env, i)
    case Ticks(now) => now >= w.now
    case _ => false
  }

  ghost predicate AllCalm(start: World, moves: seq<Move>) {
    moves == [] ||
    (AllCalm(start, moves[..|moves| - 1]) && Calm(Run(start, moves[..|moves| - 1]), moves[|moves| - 1]))
  }

  // ─── No token is lost ─────────────────────────────────────────────────────

  ghost predicate Whole(w: World, e: Entry)
    requires w.x.link.conn.Some? && w.y.link.conn.Some?
  {
    Asks(w.xy, e) + Waiting(w.y.link.conn.value.talk.pending, e) + Replies(w.yx, e) == Owns(w.x.link.conn.value.talk.outstanding, e)
  }

  ghost predicate Quietly(w: World) {
    && Peaceful(w.x.link, w.now) && w.y.link.conn.Some?
    && |w.x.link.conn.value.talk.pending| <= MAX_PENDING
    && NoneUsable(w.x.secrets, w.now, w.x.link.conn.value.talk.pending)
    && (w.x.ready ==> Covered(w.x.secrets, w.now, w.x.link.conn.value))
    && forall e :: Whole(w, e)
  }

  ghost predicate Peace(w: World, side: Side) {
    Inv(w, side) && Quietly(w) && Quietly(Flip(w))
  }

  // What x's link must satisfy after a calm step.
  ghost predicate Settling(w: World, secrets: seq<Secret>, l: Link, ready: bool) {
    && Peaceful(l, w.now) && |l.conn.value.talk.pending| <= MAX_PENDING
    && NoneUsable(secrets, w.now, l.conn.value.talk.pending)
    && (ready ==> Covered(secrets, w.now, l.conn.value))
  }

  ghost predicate WholeStep(w: World, l: Link, yx: seq<Msg>, e: Entry) {
    && Asks(yx, e) <= Asks(w.yx, e) && Replies(yx, e) == Replies(w.yx, e)
    && Turn(w.x.link, l, e, Asks(w.yx, e) - Asks(yx, e), true)
  }

  lemma QuietAfter(w: World, secrets: seq<Secret>, l: Link, ready: bool, yx: seq<Msg>)
    requires Quietly(w) && Quietly(Flip(w)) && Settling(w, secrets, l, ready) && w.x.link.conn.value.talk.out == []
    requires forall e :: WholeStep(w, l, yx, e)
    ensures var w' := Advance(w, secrets, l, ready, yx); Quietly(w') && Quietly(Flip(w'))
  {
    var w' := Advance(w, secrets, l, ready, yx);
    SettlingDrained(w, secrets, l, ready, yx);
    forall e ensures Whole(w', e) && Whole(Flip(w'), e) {
      assert WholeStep(w, l, yx, e) && Whole(w, e) && Whole(Flip(w), e);
      OutboxSums(w, l, e);
    }
  }

  lemma SettlingDrained(w: World, secrets: seq<Secret>, l: Link, ready: bool, yx: seq<Msg>)
    requires Settling(w, secrets, l, ready)
    ensures var x := Advance(w, secrets, l, ready, yx).x; Settling(w, secrets, x.link, ready) && x.ready == ready
  {
    assert l.conn.value.talk.outstanding == Emptied(l.conn.value).talk.outstanding;
    if ready && !l.conn.value.trust.trusted {
      forall s | s in secrets && Live(s, w.now) ensures Challenged(Emptied(l.conn.value).talk, s.code) {
        assert Challenged(l.conn.value.talk, s.code);
      }
    }
  }

  lemma FewerSecrets(secrets: seq<Secret>, fewer: seq<Secret>, now: nat, c: Conn)
    requires forall s | s in fewer :: s in secrets
    ensures NoneUsable(secrets, now, c.talk.pending) ==> NoneUsable(fewer, now, c.talk.pending)
    ensures Covered(secrets, now, c) ==> Covered(fewer, now, c)
  {
  }

  lemma ChallengingSettles(w: World, side: Side, env: Env, input: Input, secrets: seq<Secret>)
    requires Peace(w, side) && CalmAct(w, env, input, secrets) && (input.Entered? || input.Generated? || input.Drive?)
    ensures Settling(w, secrets, Next(secrets, env, w.x.link, input), w.x.ready || input.Ready?)
  {
    hide SendChallengesToAll, CodeEntered, Token, Whole, Covered;
    var held, l := w.x.held + Codes(secrets), w.x.link;
    CardMore(l.conn.value, w.x.held, held);
    if input.Entered? {
      EnteredPeaceful(secrets, env, l, input.code, held);
      EnteredOk(secrets, env, l, input.code, held, Entry(NotSixteenBytes(""), Code("")));
    } else {
      ToAllPeaceful(secrets, env, l, input.Drive?, held);
      ToAllOk(secrets, env, l, input.Drive?, held);
    }
  }

  lemma CalmActSettles(w: World, side: Side, env: Env, input: Input, secrets: seq<Secret>)
    requires Peace(w, side) && CalmAct(w, env, input, secrets)
    ensures Settling(w, secrets, Next(secrets, env, w.x.link, input), w.x.ready || input.Ready?)
  {
    hide SendChallengesToAll, CodeEntered, ChannelReady, Token, Whole, Covered, NoneUsable;
    var held, l := w.x.held + Codes(secrets), w.x.link;
    if input.Entered? || input.Generated? || input.Drive? {
      ChallengingSettles(w, side, env, input, secrets);
    } else {
      FewerSecrets(w.x.secrets, secrets, w.now, l.conn.value);
      if input.Ready? {
        CardMore(l.conn.value, w.x.held, held);
        ReadyPeaceful(secrets, env, l, held);
        ReadyStep(secrets, env, l, held, Entry(NotSixteenBytes(""), Code("")));
      }
    }
  }

  lemma CalmActKeeps(w: World, side: Side, env: Env, input: Input, secrets: seq<Secret>)
    requires Peace(w, side) && CalmAct(w, env, input, secrets)
    ensures Peace(Act(w, env, input, secrets), side)
  {
    var held, l := w.x.held + Codes(secrets), Next(secrets, env, w.x.link, input);
    ActKeeps(w, side, env, input, secrets);
    CalmActSettles(w, side, env, input, secrets);
    CardMore(w.x.link.conn.value, w.x.held, held);
    forall e ensures WholeStep(w, l, w.yx, e) { LocalStep(secrets, env, w.x.link, input, held, e); }
    QuietAfter(w, secrets, l, w.x.ready || input.Ready?, w.yx);
  }

  // ─── Deliveries ───────────────────────────────────────────────────────────

  // Outstanding entries stay, so what was challenged stays challenged.
  lemma StaysCovered(secrets: seq<Secret>, now: nat, l: Link, m: Link)
    requires l.conn.Some? && m.conn.Some? && Covered(secrets, now, l.conn.value)
    requires forall e :: Turn(l, m, e, 0, false) || Turn(l, m, e, 1, false)
    ensures Covered(secrets, now, m.conn.value)
  {
    if !m.conn.value.trust.trusted {
      assert Turn(l, m, Entry(NotSixteenBytes(""), Code("")), 0, false) || Turn(l, m, Entry(NotSixteenBytes(""), Code("")), 1, false);
      forall s | s in secrets && Live(s, now) ensures Challenged(m.conn.value.talk, s.code) {
        var e :| e in l.conn.value.talk.outstanding && e.code == s.code;
        MemberOwns(l.conn.value.talk.outstanding, e);
        assert Turn(l, m, e, 0, false) || Turn(l, m, e, 1, false);
        OwnsMember(m.conn.value.talk.outstanding, e);
      }
    }
  }

  lemma ChallengeSettles(w: World, side: Side, env: Env, i: nat)
    requires Peace(w, side) && CalmDelivery(w, env, i) && w.yx[i].Challenge?
    ensures Settling(w, w.x.secrets, Next(w.x.secrets, env, w.x.link, Receive(w.yx[i])), w.x.ready)
  {
    var l, m := w.x.link, w.yx[i];
    assert Honest(m, w.y.held);
    var u := Unanswered(m.codeId.value, m.nonce.value);
    var after := Handled(w.x.secrets, env, l, u);
    HandledPeaceful(w.x.secrets, env, l, u);
    HandledOk(w.x.secrets, env, l, u, w.x.held);
    if w.x.ready {
      forall e ensures Turn(l, after, e, 0, false) || Turn(l, after, e, 1, false) { HandledTurn(w.x.secrets, env, l, u, e); }
      StaysCovered(w.x.secrets, w.now, l, after);
    }
  }

  lemma ChallengeWhole(w: World, side: Side, env: Env, i: nat, e: Entry)
    requires Peace(w, side) && CalmDelivery(w, env, i) && w.yx[i].Challenge?
    ensures WholeStep(w, Next(w.x.secrets, env, w.x.link, Receive(w.yx[i])), Drop(w.yx, i), e)
  {
    assert Honest(w.yx[i], w.y.held);
    DropSums(w.yx, i, e);
    ChallengeStep(w.x.secrets, env, w.x.link, w.yx[i], w.x.held, e);
  }

  lemma ChallengeKeeps(w: World, side: Side, env: Env, i: nat)
    requires Peace(w, side) && CalmDelivery(w, env, i) && w.yx[i].Challenge?
    ensures Peace(Deliver(w, env, i), side)
  {
    var l := Next(w.x.secrets, env, w.x.link, Receive(w.yx[i]));
    DeliverKeeps(w, side, env, i);
    ChallengeSettles(w, side, env, i);
    forall e ensures WholeStep(w, l, Drop(w.yx, i), e) { ChallengeWhole(w, side, env, i, e); }
    QuietAfter(w, w.x.secrets, l, w.x.ready, Drop(w.yx, i));
  }

  // An applied handshake leaves the exchange as it was.
  lemma ApplyPeaceful(env: Env, l: Link, h: Hello)
    requires Peaceful(l, env.now)
    ensures Peaceful(ApplyHandshake(env, l, h), env.now)
  {
  }

  lemma ChatSettles(w: World, l: Link, m: Link, ready: bool)
    requires Settling(w, w.x.secrets, l, ready) && Peaceful(m, w.now) && ConnChat(l.conn.value, m.conn.value)
    ensures Settling(w, w.x.secrets, m, ready)
  {
    if ready && !m.conn.value.trust.trusted {
      forall s | s in w.x.secrets && Live(s, w.now) ensures Challenged(m.conn.value.talk, s.code) {
        assert Challenged(l.conn.value.talk, s.code);
      }
    }
  }

  lemma HandshakeKeeps(w: World, side: Side, env: Env, i: nat)
    requires Peace(w, side) && CalmDelivery(w, env, i) && w.yx[i].Handshake?
    ensures Peace(Deliver(w, env, i), side)
  {
    var l := Next(w.x.secrets, env, w.x.link, Receive(w.yx[i]));
    DeliverKeeps(w, side, env, i);
    NoticeStep(w.x.secrets, env, w.x.link, w.yx[i]);
    ApplyPeaceful(env, w.x.link, w.yx[i].hello);
    ChatSettles(w, w.x.link, l, w.x.ready);
    forall e ensures WholeStep(w, l, Drop(w.yx, i), e) {
      DropSums(w.yx, i, e);
      ChatTurn(w.x.link, l, e);
    }
    QuietAfter(w, w.x.secrets, l, w.x.ready, Drop(w.yx, i));
  }

  lemma GrantedPeaceful(env: Env, l: Link, code: Code)
    requires Peaceful(l, env.now)
    ensures Peaceful(OnTrustGranted(env, l, code), env.now)
  {
    var told := With(l, ReplicateExchange(l.conn.value.(code := Some(code))));
    if told.conn.value.buffered.Some? {
      ApplyPeaceful(env, With(told, told.conn.value.(buffered := None)), told.conn.value.buffered.value);
    }
  }

  lemma AcceptPeaceful(secrets: seq<Secret>, env: Env, l: Link, code: Code)
    requires Peaceful(l, env.now)
    ensures Peaceful(Accept(secrets, env, l, code), env.now) && Accept(secrets, env, l, code).conn.value.trust.trusted
  {
    if l.conn.value.trust.trusted {
      GrantedPeaceful(env, With(l, Disarm(l.conn.value)), code);
      GrantedChat(env, With(l, Disarm(l.conn.value)), code);
    } else {
      var trust := l.conn.value.trust.(trusted := true, watchdog := false, verified := true);
      var trusted := Emit(With(l, l.conn.value.(trust := trust)).(ladders := Ladders(None, None)), Verified(code));
      GrantedPeaceful(env, trusted, code);
      GrantStep(env, l, code);
    }
  }

  // Whole, after x accepted the answer for the entry at k.
  lemma AcceptedWhole(w: World, side: Side, i: nat, e: Entry, k: nat, l: Link, d: Entry)
    requires Peace(w, side) && i < |w.yx| && k < |w.x.link.conn.value.talk.outstanding|
    requires e == w.x.link.conn.value.talk.outstanding[k] && w.yx[i] == Response(Some(e.nonce), Some(Mac(e.code, e.nonce)))
    requires Turn(Forgotten(w.x.link, k), l, d, 0, true) && Asks(l.conn.value.talk.out, d) == 0
    ensures var w' := Advance(w, w.x.secrets, l, w.x.ready, Drop(w.yx, i));
            Whole(w', d) && Whole(Flip(w'), d)
  {
    DropSums(w.yx, i, d);
    SumDrop(w.x.link.conn.value.talk.outstanding, k, OwnOf(d));
    assert Whole(w, d) && Whole(Flip(w), d);
    OutboxSums(w, l, d);
  }

  // x's link after the answer at i, and the entry it was for.
  lemma ResponseEffect(w: World, side: Side, env: Env, i: nat) returns (e: Entry, k: nat, l: Link)
    requires Peace(w, side) && CalmDelivery(w, env, i) && w.yx[i].Response?
    ensures k < |w.x.link.conn.value.talk.outstanding| && e == w.x.link.conn.value.talk.outstanding[k]
    ensures w.yx[i] == Response(Some(e.nonce), Some(Mac(e.code, e.nonce))) && e.code in w.x.held && e.code in w.y.held
    ensures l == Accept(w.x.secrets, env, Forgotten(w.x.link, k), e.code)
    ensures Deliver(w, env, i) == Advance(w, w.x.secrets, l, w.x.ready, Drop(w.yx, i))
    ensures Peaceful(l, env.now) && l.conn.value.trust.trusted && ConnChat(Forgotten(w.x.link, k).conn.value, l.conn.value)
  {
    AnswerMatches(w, side, i);
    e := Subject(w.yx[i]);
    k := IndexOf(w.x.link.conn.value.talk.outstanding, e.nonce);
    ResponseStep(w.x.secrets, env, w.x.link, e, w.x.held);
    l := Accept(w.x.secrets, env, Forgotten(w.x.link, k), e.code);
    AcceptPeaceful(w.x.secrets, env, Forgotten(w.x.link, k), e.code);
    AcceptStep(w.x.secrets, env, Forgotten(w.x.link, k), e.code);
  }

  lemma ResponseKeeps(w: World, side: Side, env: Env, i: nat)
    requires Peace(w, side) && CalmDelivery(w, env, i) && w.yx[i].Response?
    ensures Peace(Deliver(w, env, i), side)
  {
    DeliverKeeps(w, side, env, i);
    var e, k, l := ResponseEffect(w, side, env, i);
    ForgottenOk(w.x.link, k, w.x.held);
    var w' := Deliver(w, env, i);
    forall d ensures Whole(w', d) && Whole(Flip(w'), d) {
      AcceptedConn(Forgotten(w.x.link, k), l, w.x.held, d);
      AcceptedWhole(w, side, i, e, k, l, d);
    }
    SettlingDrained(w, w.x.secrets, l, w.x.ready, Drop(w.yx, i));
  }

  lemma CalmDeliveryKeeps(w: World, side: Side, env: Env, i: nat)
    requires Peace(w, side) && CalmDelivery(w, env, i)
    ensures Peace(Deliver(w, env, i), side)
  {
    assert Honest(w.yx[i], w.y.held);
    if w.yx[i].Challenge? {
      ChallengeKeeps(w, side, env, i);
    } else if w.yx[i].Response? {
      ResponseKeeps(w, side, env, i);
    } else {
      HandshakeKeeps(w, side, env, i);
    }
  }

  lemma TickPeace(w: World, now: nat)
    requires Peace(w, Left) && now >= w.now
    ensures Peace(w.(now := now), Left)
  {
    TickKeeps(w, now);
    TickQuiet(w, now);
    TickQuiet(Flip(w), now);
  }

  lemma TickQuiet(w: World, now: nat)
    requires Quietly(w) && now >= w.now
    ensures Quietly(w.(now := now))
  {
    forall e ensures Whole(w.(now := now), e) { assert Whole(w, e); }
  }

  lemma CalmKeeps(w: World, m: Move)
    requires Peace(w, Left) && Calm(w, m)
    ensures Peace(Apply(w, m), Left)
  {
    match m
    case Acts(side, env, input, secrets) => CalmActKeeps(At(w, side), side, env, input, secrets);
    case Delivers(side, env, i) => CalmDeliveryKeeps(At(w, side), side, env, i);
    case Ticks(now) => TickPeace(w, now);
  }

  // ─── Mutual completion ────────────────────────────────────────────────────

  // Neither trusted nor revoked, and no backoff lasts.
  predicate Unknown(l: Link, now: nat) {
    l.conn.None? && l.revokedAt.None? && !l.trustedKey && !Active(l.ladders.failed, now) && !Active(l.ladders.unanswered, now)
  }

  /** Two engines between connections that do not trust each other, whatever codes each
      holds and whatever came of earlier connections. */
  ghost predicate Strangers(w: World) {
    Inv(w, Left) && Unknown(w.x.link, w.now) && Unknown(w.y.link, w.now)
  }

  lemma MeetingIsPeaceful(w: World)
    requires Strangers(w)
    ensures Peace(Connect(w, false, false), Left)
  {
    ConnectKeeps(w, false, false);
  }

  lemma {:induction false} CalmRunKeeps(start: World, moves: seq<Move>)
    requires Peace(start, Left) && AllCalm(start, moves)
    ensures Peace(Run(start, moves), Left)
  {
    if moves != [] {
      CalmRunKeeps(start, moves[..|moves| - 1]);
      CalmKeeps(Run(start, moves[..|moves| - 1]), moves[|moves| - 1]);
    }
  }

  // Both channels opened, nothing is in flight.
  ghost predicate Quiescent(w: World) {
    w.xy == [] && w.yx == [] && w.x.ready && w.y.ready
  }

  lemma SharedCodeVerifies(w: World, side: Side, id: CodeId)
    requires Peace(w, side) && Quiescent(w) && Usable(w.x.secrets, id, w.now) && Usable(w.y.secrets, id, w.now)
    ensures w.x.link.conn.value.trust.trusted
  {
    var c, theirs := w.x.link.conn.value, w.y.link.conn.value.talk.pending;
    if !c.trust.trusted {
      var s :| s in w.x.secrets && CodeId(s.code) == id && Live(s, w.now);
      assert Challenged(c.talk, s.code);
      var e :| e in c.talk.outstanding && e.code == s.code;
      MemberOwns(c.talk.outstanding, e);
      assert Whole(w, e);
      var i := SumPositive(theirs, WaitOf(e));
      assert false;
    }
  }

  /** Mutual completion: whatever the order of registrations and deliveries, once nothing
      is in flight a code both engines hold, unexpired, has made both sides trust. */
  lemma MutualCompletion(start: World, moves: seq<Move>, id: CodeId)
    requires Strangers(start) && AllCalm(Connect(start, false, false), moves)
    requires var w := Run(Connect(start, false, false), moves);
             Quiescent(w) && Usable(w.x.secrets, id, w.now) && Usable(w.y.secrets, id, w.now)
    ensures var w := Run(Connect(start, false, false), moves);
            && w.x.link.conn.Some? && w.x.link.conn.value.trust.trusted
            && w.y.link.conn.Some? && w.y.link.conn.value.trust.trusted
  {
    MeetingIsPeaceful(start);
    CalmRunKeeps(Connect(start, false, false), moves);
    var w := Run(Connect(start, false, false), moves);
    SharedCodeVerifies(w, Left, id);
    SharedCodeVerifies(Flip(w), Right, id);
  }
}
