/** A fresh pairing over the one code two engines share: each side applies the other's
    handshake once and announces the pairing once. */
module PairingAnnouncement {
  import opened Options
  import opened Pairing
  import opened Sums
  import opened LinkInvariants
  import opened PairingTokens
  import opened PairingSteps
  import opened PairingWorld
  import opened PairingCompletion

  function PairedOf(): Event -> nat {
    (v: Event) => if v.TrustPaired? then 1 else 0
  }

  // How often the pairing was announced.
  function Announced(events: seq<Event>): nat { Sum(events, PairedOf()) }

  // Every announcement carries the code.
  predicate Names(events: seq<Event>, code: Code) {
    forall v | v in events :: v.TrustPaired? ==> v.via == Some(code)
  }

  // Nothing was announced yet, and no handshake is being applied.
  ghost predicate Unannounced(w: World) {
    forall l | l in [w.x.link, w.y.link] :: l.jobs == [] && forall v | v in l.events :: !v.TrustPaired?
  }

  lemma {:induction false} NoneAnnounced(events: seq<Event>)
    requires forall v | v in events :: !v.TrustPaired?
    ensures Announced(events) == 0
  {
    if events != [] {
      assert events[|events| - 1] in events;
      NoneAnnounced(events[..|events| - 1]);
    }
  }

  // The sides share no code but `shared`, and enter it once.
  ghost predicate SharesOnly(w: World, shared: Code) {
    forall c | c in w.x.held && c in w.y.held :: c == shared
  }

  ghost predicate EntersOnce(w: World, m: Move, shared: Code) {
    m.Acts? && m.input == Entered(shared) ==> shared !in At(w, m.side).x.held
  }

  // A handshake that arrives is another device's.
  ghost predicate Introduces(w: World, m: Move) {
    m.Delivers? && m.i < |At(w, m.side).yx| ==> Foreign(At(w, m.side).yx[m.i], m.env)
  }

  predicate Foreign(m: Msg, env: Env) {
    m.Handshake? ==> m.hello.identity.Some? && !IsSelf(env, m.hello.identity.value)
  }

  ghost predicate FreshMove(w: World, m: Move, shared: Code) {
    Calm(w, m) && EntersOnce(w, m, shared) && Introduces(w, m)
  }

  ghost predicate FreshPairing(start: World, moves: seq<Move>, shared: Code) {
    SharesOnly(Run(start, moves), shared) &&
    (moves == [] ||
     (FreshPairing(start, moves[..|moves| - 1], shared) && FreshMove(Run(start, moves[..|moves| - 1]), moves[|moves| - 1], shared)))
  }

  // ─── What is conserved ────────────────────────────────────────────────────

  predicate Accepts(me: Identity, h: Hello) {
    h.identity.Some? && h.identity.value.id != me.id && h.identity.value.publicKey != me.publicKey
  }

  /** Each handshake the peer sent (one, if `sent`) is among the `arriving`, buffered,
      being applied, or announced; a trusting side sent its own, awaits no answer for the
      shared code, has its record marked with that code, and buffers nothing. */
  ghost predicate LinkCount(l: Link, me: Identity, held: set<Code>, arriving: nat, sent: bool, shared: Code) {
    && l.conn.Some?
    && var c := l.conn.value;
    && arriving + Bit(c.buffered.Some?) + |l.jobs| + Announced(l.events) == Bit(sent)
    && (c.trust.complete <==> |l.jobs| + Announced(l.events) > 0)
    && (c.trust.trusted ==> c.handshakeSent && c.buffered.None? && shared in held && c.code == Some(shared))
    && (!c.trust.trusted ==> !c.handshakeSent)
    && (c.trust.trusted ==> forall e | e in c.talk.outstanding :: e.code != shared)
    && (forall j | j in l.jobs :: j == Attached(false)) && Names(l.events, shared)
    && (c.buffered.Some? ==> Accepts(me, c.buffered.value))
  }

  ghost predicate Counted(w: World, shared: Code) {
    && w.x.link.conn.Some? && w.y.link.conn.Some?
    && LinkCount(w.x.link, w.x.me, w.x.held, Hellos(w.yx), w.y.link.conn.value.handshakeSent, shared)
  }

  ghost predicate Tallied(w: World, side: Side, shared: Code) {
    Peace(w, side) && Counted(w, shared) && Counted(Flip(w), shared)
  }

  // x moved to `l`, with its own count right and its handshake flag matching its outbox.
  lemma CountAfter(w: World, shared: Code, secrets: seq<Secret>, l: Link, ready: bool, yx: seq<Msg>)
    requires Counted(w, shared) && Counted(Flip(w), shared)
    requires LinkCount(l, w.x.me, w.x.held + Codes(secrets), Hellos(yx), w.y.link.conn.value.handshakeSent, shared)
    requires Hellos(Outbox(l)) + Bit(w.x.link.conn.value.handshakeSent) == Bit(l.conn.value.handshakeSent)
    ensures var w' := Advance(w, secrets, l, ready, yx);
            Counted(w', shared) && Counted(Flip(w'), shared)
  {
    SumConcat(w.xy, Outbox(l), HelloOf());
  }

  // ─── Links under one step ─────────────────────────────────────────────────

  lemma StandingCounts(l: Link, m: Link, me: Identity, held: set<Code>, arriving: nat, sent: bool, shared: Code)
    requires SameStanding(l, m) && LinkCount(l, me, held, arriving, sent, shared)
    requires l.conn.value.trust.trusted ==> forall e | e in m.conn.value.talk.outstanding :: e.code != shared
    ensures LinkCount(m, me, held, arriving, sent, shared)
  {
  }

  lemma FinishCounts(l: Link, now: nat, i: nat, me: Identity, held: set<Code>, arriving: nat, sent: bool, shared: Code)
    requires Peaceful(l, now) && LinkCount(l, me, held, arriving, sent, shared) && i < |l.jobs|
    ensures LinkCount(FinishJob(l, i), me, held, arriving, sent, shared)
  {
    assert l.jobs[i] in l.jobs;
    SumSnoc(l.events, TrustPaired(CodeOf(l, l.jobs[i])), PairedOf());
  }

  lemma HandshakeCounts(env: Env, l: Link, h: Hello, held: set<Code>, arriving: nat, sent: bool, shared: Code)
    requires Peaceful(l, env.now) && LinkCount(l, env.me, held, arriving + 1, sent, shared) && Accepts(env.me, h)
    ensures var m := ReceiveHandshake(env, l, h);
            && LinkCount(m, env.me, held, arriving, sent, shared)
            && m.conn.value.handshakeSent == l.conn.value.handshakeSent && m.conn.value.talk.out == l.conn.value.talk.out
  {
  }

  // What granting trust does to a side that neither trusted nor introduced itself.
  lemma GrantShape(env: Env, l: Link, code: Code)
    requires Peaceful(l, env.now) && !l.conn.value.trust.trusted && !l.conn.value.handshakeSent
    requires l.conn.value.buffered.Some? ==> Accepts(env.me, l.conn.value.buffered.value)
    ensures var m := Grant(env, l, code);
            && m.conn.Some?
            && m.jobs == l.jobs + (if l.conn.value.buffered.Some? then [Attached(false)] else [])
            && m.events == l.events + [Verified(code)]
            && var c, d := l.conn.value, m.conn.value;
            && d.buffered.None? && d.trust.trusted && d.handshakeSent && d.code == Some(code)
            && d.trust.complete == (c.trust.complete || c.buffered.Some?)
            && d.talk == c.talk.(out := c.talk.out + [Handshake(Hello(Some(env.me)))])
  {
    var trust := l.conn.value.trust.(trusted := true, watchdog := false, verified := true);
    var trusted := Emit(With(l, l.conn.value.(trust := trust)).(ladders := Ladders(None, None)), Verified(code));
    GrantedShape(env, trusted, code);
  }

  lemma GrantedShape(env: Env, l: Link, code: Code)
    requires l.conn.Some? && l.conn.value.trust.trusted && l.revokedAt.None? && !l.conn.value.handshakeSent && !l.conn.value.trust.complete
    requires l.conn.value.buffered.Some? ==> Accepts(env.me, l.conn.value.buffered.value)
    ensures var m := OnTrustGranted(env, l, code);
            && m.conn.Some?
            && m.jobs == l.jobs + (if l.conn.value.buffered.Some? then [Attached(false)] else [])
            && m.events == l.events
            && var c, d := l.conn.value, m.conn.value;
            && d.buffered.None? && d.trust.trusted && d.handshakeSent == c.buffered.Some? && d.code == Some(code)
            && d.trust.complete == c.buffered.Some?
            && d.talk == if c.buffered.Some? then c.talk.(out := c.talk.out + [Handshake(Hello(Some(env.me)))]) else c.talk
  {
  }

  lemma GrantCounts(env: Env, l: Link, code: Code, held: set<Code>, arriving: nat, sent: bool)
    requires Peaceful(l, env.now) && !l.conn.value.trust.trusted && LinkCount(l, env.me, held, arriving, sent, code)
    requires code in held && forall e | e in l.conn.value.talk.outstanding :: e.code != code
    ensures LinkCount(Grant(env, l, code), env.me, held, arriving, sent, code)
    ensures Grant(env, l, code).conn.value.handshakeSent
    ensures Grant(env, l, code).conn.value.talk.out == l.conn.value.talk.out + [Handshake(Hello(Some(env.me)))]
  {
    GrantShape(env, l, code);
    SumSnoc(l.events, Verified(code), PairedOf());
  }

  // ─── Acting ───────────────────────────────────────────────────────────────

  lemma ChallengingStanding(secrets: seq<Secret>, env: Env, l: Link, input: Input, held: set<Code>)
    requires Peaceful(l, env.now) && ConnOk(l, held) && Holds(held, secrets) && PlainEnv(env)
    requires Challenging(l, input)
    ensures var m := Next(secrets, env, l, input);
            && SameStanding(l, m)
            && (l.conn.value.trust.trusted ==>
                  forall e | e in m.conn.value.talk.outstanding ::
                    e in l.conn.value.talk.outstanding || (input.Entered? && e.code == input.code))
  {
    if input.Entered? {
      CodeEnteredStanding(secrets, env, l, input.code);
      EnteredPeaceful(secrets, env, l, input.code, held);
    } else if input.Ready? {
      SendChallengesStanding(secrets, env, l, false);
    } else {
      ToAllStanding(secrets, env, l, input.Drive?);
      ToAllPeaceful(secrets, env, l, input.Drive?, held);
    }
  }

  // Inputs that may challenge.
  predicate Challenging(l: Link, input: Input) {
    input.Entered? || input.Generated? || input.Drive? || (input.Ready? && l.conn.Some? && !l.conn.value.trust.trusted)
  }

  lemma ChallengingLink(w: World, side: Side, shared: Code, env: Env, input: Input, secrets: seq<Secret>)
    requires Tallied(w, side, shared) && CalmAct(w, env, input, secrets) && Challenging(w.x.link, input)
    requires input == Entered(shared) ==> shared !in w.x.held
    ensures LinkCount(Next(secrets, env, w.x.link, input), w.x.me, w.x.held, Hellos(w.yx),
                      w.y.link.conn.value.handshakeSent, shared)
  {
    hide Next, Whole, Token;
    var held, l := w.x.held + Codes(secrets), w.x.link;
    CardMore(l.conn.value, w.x.held, held);
    ChallengingStanding(secrets, env, l, input, held);
    StandingCounts(l, Next(secrets, env, l, input), w.x.me, w.x.held, Hellos(w.yx), w.y.link.conn.value.handshakeSent, shared);
  }

  lemma HeldMore(l: Link, me: Identity, held: set<Code>, more: set<Code>, arriving: nat, sent: bool, shared: Code)
    requires LinkCount(l, me, held, arriving, sent, shared) && held <= more
    ensures LinkCount(l, me, more, arriving, sent, shared)
  {
  }

  // x's link after a calm action.
  lemma ActLink(w: World, side: Side, shared: Code, env: Env, input: Input, secrets: seq<Secret>)
    requires Tallied(w, side, shared) && CalmAct(w, env, input, secrets)
    requires input == Entered(shared) ==> shared !in w.x.held
    ensures LinkCount(Next(secrets, env, w.x.link, input), w.x.me, w.x.held + Codes(secrets), Hellos(w.yx),
                      w.y.link.conn.value.handshakeSent, shared)
  {
    hide Whole, Token, SendChallengesToAll, CodeEntered, SendChallenges, LinkCount;
    var l := w.x.link;
    var arriving, sent := Hellos(w.yx), w.y.link.conn.value.handshakeSent;
    if Challenging(l, input) {
      ChallengingLink(w, side, shared, env, input, secrets);
    } else if input.Finish? && input.job < |l.jobs| {
      FinishCounts(l, w.now, input.job, w.x.me, w.x.held, arriving, sent, shared);
    } else {
      SameCounts(secrets, env, l, input, w.x.me, w.x.held, arriving, sent, shared);
    }
    HeldMore(Next(secrets, env, l, input), w.x.me, w.x.held, w.x.held + Codes(secrets), arriving, sent, shared);
  }

  lemma SameCounts(secrets: seq<Secret>, env: Env, l: Link, input: Input,
                   me: Identity, held: set<Code>, arriving: nat, sent: bool, shared: Code)
    requires LinkCount(l, me, held, arriving, sent, shared) && Undisturbing(input) && !Challenging(l, input)
    requires input.Finish? ==> input.job >= |l.jobs|
    ensures LinkCount(Next(secrets, env, l, input), me, held, arriving, sent, shared)
  {
  }

  lemma ActGreets(w: World, side: Side, env: Env, input: Input, secrets: seq<Secret>)
    requires Peace(w, side) && CalmAct(w, env, input, secrets)
    ensures var l := Next(secrets, env, w.x.link, input);
            l.conn.Some? && Hellos(Outbox(l)) + Bit(w.x.link.conn.value.handshakeSent) == Bit(l.conn.value.handshakeSent)
  {
    var held := w.x.held + Codes(secrets);
    CardMore(w.x.link.conn.value, w.x.held, held);
    LocalStep(secrets, env, w.x.link, input, held, Entry(NotSixteenBytes(""), Code("")));
  }

  lemma ActCounts(w: World, side: Side, shared: Code, env: Env, input: Input, secrets: seq<Secret>)
    requires Tallied(w, side, shared) && CalmAct(w, env, input, secrets)
    requires input == Entered(shared) ==> shared !in w.x.held
    ensures Tallied(Act(w, env, input, secrets), side, shared)
  {
    CalmActKeeps(w, side, env, input, secrets);
    ActLink(w, side, shared, env, input, secrets);
    ActGreets(w, side, env, input, secrets);
    CountAfter(w, shared, secrets, Next(secrets, env, w.x.link, input), w.x.ready || input.Ready?, w.yx);
  }

  // ─── Delivering ───────────────────────────────────────────────────────────

  lemma ChallengeLink(w: World, side: Side, shared: Code, env: Env, i: nat)
    requires Tallied(w, side, shared) && CalmDelivery(w, env, i) && w.yx[i].Challenge?
    ensures var l := Next(w.x.secrets, env, w.x.link, Receive(w.yx[i]));
            && LinkCount(l, w.x.me, w.x.held, Hellos(w.yx), w.y.link.conn.value.handshakeSent, shared)
            && Hellos(Outbox(l)) + Bit(w.x.link.conn.value.handshakeSent) == Bit(l.conn.value.handshakeSent)
  {
    var l, m := w.x.link, w.yx[i];
    assert Honest(m, w.y.held);
    var u := Unanswered(m.codeId.value, m.nonce.value);
    HandleChallengeStanding(w.x.secrets, env, l, m.codeId, m.nonce);
    HandledPeaceful(w.x.secrets, env, l, u);
    HandledTurn(w.x.secrets, env, l, u, Entry(NotSixteenBytes(""), Code("")));
    StandingCounts(l, Handled(w.x.secrets, env, l, u), w.x.me, w.x.held, Hellos(w.yx), w.y.link.conn.value.handshakeSent, shared);
  }

  lemma HelloLink(w: World, side: Side, shared: Code, env: Env, i: nat)
    requires Tallied(w, side, shared) && CalmDelivery(w, env, i) && w.yx[i].Handshake? && Foreign(w.yx[i], env)
    ensures var l := Next(w.x.secrets, env, w.x.link, Receive(w.yx[i]));
            && LinkCount(l, w.x.me, w.x.held, Hellos(Drop(w.yx, i)), w.y.link.conn.value.handshakeSent, shared)
            && Hellos(Outbox(l)) + Bit(w.x.link.conn.value.handshakeSent) == Bit(l.conn.value.handshakeSent)
  {
    SumDrop(w.yx, i, HelloOf());
    HandshakeCounts(env, w.x.link, w.yx[i].hello, w.x.held, Hellos(Drop(w.yx, i)), w.y.link.conn.value.handshakeSent, shared);
  }

  /** The answer that arrives is for the shared code, and its receiver does not trust yet:
      no pairing is announced a second time. */
  lemma AnswerIsFirst(w: World, side: Side, shared: Code, env: Env, i: nat) returns (k: nat)
    requires Tallied(w, side, shared) && SharesOnly(w, shared) && CalmDelivery(w, env, i) && w.yx[i].Response?
    ensures !w.x.link.conn.value.trust.trusted && shared in w.x.held
    ensures k < |w.x.link.conn.value.talk.outstanding|
    ensures forall e | e in Forgotten(w.x.link, k).conn.value.talk.outstanding :: e.code != shared
    ensures Next(w.x.secrets, env, w.x.link, Receive(w.yx[i])) == Grant(env, Forgotten(w.x.link, k), shared)
  {
    AnswerMatches(w, side, i);
    var e, c := Subject(w.yx[i]), w.x.link.conn.value;
    assert e.code == shared && !c.trust.trusted;
    ResponseStep(w.x.secrets, env, w.x.link, e, w.x.held);
    k := IndexOf(c.talk.outstanding, e.nonce);
    NoneLeft(c.talk.outstanding, k);
  }

  lemma AnswerLink(w: World, side: Side, shared: Code, env: Env, i: nat)
    requires Tallied(w, side, shared) && SharesOnly(w, shared) && CalmDelivery(w, env, i) && w.yx[i].Response?
    ensures var l := Next(w.x.secrets, env, w.x.link, Receive(w.yx[i]));
            && LinkCount(l, w.x.me, w.x.held, Hellos(w.yx), w.y.link.conn.value.handshakeSent, shared)
            && Hellos(Outbox(l)) + Bit(w.x.link.conn.value.handshakeSent) == Bit(l.conn.value.handshakeSent)
  {
    var k := AnswerIsFirst(w, side, shared, env, i);
    var f, h := Forgotten(w.x.link, k), Handshake(Hello(Some(env.me)));
    assert LinkCount(f, w.x.me, w.x.held, Hellos(w.yx), w.y.link.conn.value.handshakeSent, shared);
    GrantCounts(env, f, shared, w.x.held, Hellos(w.yx), w.y.link.conn.value.handshakeSent);
    SumSnoc([], h, HelloOf());
    assert [] + [h] == [h];
  }

  lemma DeliveryCounts(w: World, side: Side, shared: Code, env: Env, i: nat)
    requires Tallied(w, side, shared) && SharesOnly(w, shared) && CalmDelivery(w, env, i) && Foreign(w.yx[i], env)
    ensures Tallied(Deliver(w, env, i), side, shared)
  {
    hide Next, Whole, Token, LinkCount, Quietly;
    CalmDeliveryKeeps(w, side, env, i);
    assert Honest(w.yx[i], w.y.held);
    SumDrop(w.yx, i, HelloOf());
    if w.yx[i].Challenge? {
      ChallengeLink(w, side, shared, env, i);
    } else if w.yx[i].Response? {
      AnswerLink(w, side, shared, env, i);
    } else {
      HelloLink(w, side, shared, env, i);
    }
    var l := Next(w.x.secrets, env, w.x.link, Receive(w.yx[i]));
    assert w.x.held + Codes(w.x.secrets) == w.x.held;
    CountAfter(w, shared, w.x.secrets, l, w.x.ready, Drop(w.yx, i));
  }

  lemma MoveCounts(w: World, m: Move, shared: Code)
    requires Tallied(w, Left, shared) && SharesOnly(w, shared) && FreshMove(w, m, shared)
    ensures Tallied(Apply(w, m), Left, shared)
  {
    hide Next, Half, Quietly, LinkCount, Deliver, Act;
    match m
    case Acts(side, env, input, secrets) => ActCounts(At(w, side), side, shared, env, input, secrets);
    case Delivers(side, env, i) => DeliveryCounts(At(w, side), side, shared, env, i);
    case Ticks(now) => TickPeace(w, now);
  }

  lemma {:induction false} FreshPairingCounts(start: World, moves: seq<Move>, shared: Code)
    requires Strangers(start) && Unannounced(start) && FreshPairing(Connect(start, false, false), moves, shared)
    ensures Tallied(Run(Connect(start, false, false), moves), Left, shared)
  {
    var met := Connect(start, false, false);
    if moves == [] {
      assert start.x.link in [start.x.link, start.y.link] && start.y.link in [start.x.link, start.y.link];
      NoneAnnounced(start.x.link.events);
      NoneAnnounced(start.y.link.events);
      MeetingIsPeaceful(start);
    } else {
      FreshPairingCounts(start, moves[..|moves| - 1], shared);
      MoveCounts(Run(met, moves[..|moves| - 1]), moves[|moves| - 1], shared);
    }
  }

  /** At no point has either side announced the pairing twice or applied more than one
      handshake, whatever the order of handshakes and answers. */
  lemma AnnouncedAtMostOnce(start: World, moves: seq<Move>, shared: Code, side: Side)
    requires Strangers(start) && Unannounced(start) && FreshPairing(Connect(start, false, false), moves, shared)
    ensures var w := At(Run(Connect(start, false, false), moves), side);
            Announced(w.x.link.events) + |w.x.link.jobs| <= 1
  {
    FreshPairingCounts(start, moves, shared);
  }

  /** When nothing is in flight and no application is under way, each side that shares a
      live code has completed the pairing and announced it exactly once, under that code:
      whoever waits for the code is told. */
  lemma AnnouncedExactlyOnce(start: World, moves: seq<Move>, shared: Code, side: Side)
    requires Strangers(start) && Unannounced(start) && FreshPairing(Connect(start, false, false), moves, shared)
    requires var w := At(Run(Connect(start, false, false), moves), side);
             && Quiescent(w) && w.x.link.jobs == []
             && Usable(w.x.secrets, CodeId(shared), w.now) && Usable(w.y.secrets, CodeId(shared), w.now)
    ensures var w := At(Run(Connect(start, false, false), moves), side);
            && Announced(w.x.link.events) == 1 && TrustPaired(Some(shared)) in w.x.link.events
            && w.x.link.conn.Some? && w.x.link.conn.value.trust.complete && w.x.link.conn.value.buffered.None?
  {
    FreshPairingCounts(start, moves, shared);
    var w := At(Run(Connect(start, false, false), moves), side);
    SharedCodeVerifies(w, side, CodeId(shared));
    SharedCodeVerifies(Flip(w), Other(side), CodeId(shared));
    var k := SumPositive(w.x.link.events, PairedOf());
    assert w.x.link.events[k] in w.x.link.events;
  }
}
