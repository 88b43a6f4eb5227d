/** Two engines of this code and the channel between them.  Messages are delivered in any
    order; users, timers and the network act at any time. */
module PairingWorld {
  import opened Options
  import opened Pairing
  import opened Sums
  import opened LinkInvariants
  import opened PairingTokens
  import opened PairingSteps

  // `held` collects the codes an engine ever held; `ready` says its channel opened.
  datatype Engine = Engine(me: Identity, secrets: seq<Secret>, held: set<Code>, link: Link, ready: bool)

  /** `xy` and `yx` are in flight; `sx` and `sy` is all that was sent on this connection. */
  datatype World = World(now: nat, x: Engine, y: Engine, xy: seq<Msg>, yx: seq<Msg>, sx: seq<Msg>, sy: seq<Msg>)

  function Flip(w: World): World {
    World(w.now, w.y, w.x, w.yx, w.xy, w.sy, w.sx)
  }

  function Codes(secrets: seq<Secret>): set<Code> {
    set s | s in secrets :: s.code
  }

  function Outbox(l: Link): seq<Msg> {
    if l.conn.Some? then l.conn.value.talk.out else []
  }

  function Emptied(c: Conn): Conn {
    c.(talk := c.talk.(out := []))
  }

  function Drained(l: Link): Link {
    if l.conn.Some? then With(l, Emptied(l.conn.value)) else l
  }

  // Engine x moved to link `l`; its outbox goes onto the wire.
  function Advance(w: World, secrets: seq<Secret>, l: Link, ready: bool, yx: seq<Msg>): World {
    w.(x := Engine(w.x.me, secrets, w.x.held + Codes(secrets), Drained(l), ready),
       xy := w.xy + Outbox(l), yx := yx, sx := w.sx + Outbox(l))
  }

  function Act(w: World, env: Env, input: Input, secrets: seq<Secret>): World {
    Advance(w, secrets, Next(secrets, env, w.x.link, input), w.x.ready || input.Ready?, w.yx)
  }

  function Deliver(w: World, env: Env, i: nat): World
    requires i < |w.yx|
  {
    Advance(w, w.x.secrets, Next(w.x.secrets, env, w.x.link, Receive(w.yx[i])), w.x.ready, Drop(w.yx, i))
  }

  function Connect(w: World, lanX: bool, lanY: bool): World {
    World(w.now, w.x.(link := OpenConnection(w.x.link, Left, lanX), ready := false),
          w.y.(link := OpenConnection(w.y.link, Right, lanY), ready := false), [], [], [], [])
  }

  function Unplug(e: Engine): Engine {
    e.(link := Hangup(e.link), ready := false)
  }

  datatype Move =
    | Acts(side: Side, env: Env, input: Input, secrets: seq<Secret>)
    | Delivers(side: Side, env: Env, i: nat)
    | Connects(lanX: bool, lanY: bool)
    | Disconnects
    | Ticks(now: nat)

  function At(w: World, side: Side): World {
    if side.Left? then w else Flip(w)
  }

  function Apply(w: World, m: Move): World {
    match m
    case Acts(side, env, input, secrets) => At(Act(At(w, side), env, input, secrets), side)
    case Delivers(side, env, i) => if i < |At(w, side).yx| then At(Deliver(At(w, side), env, i), side) else w
    case Connects(lanX, lanY) => Connect(w, lanX, lanY)
    case Disconnects => World(w.now, Unplug(w.x), Unplug(w.y), [], [], [], [])
    case Ticks(now) => w.(now := now)
  }

  // An engine's secrets are a map from code to secret; the step for a code it enters
  // finds the secret stored.
  ghost predicate Proper(secrets: seq<Secret>, input: Input) {
    DistinctSecrets(secrets) && (input.Entered? ==> input.code in Codes(secrets))
  }

  /** What may happen.  Everything an engine does by itself may happen while a connection
      lasts; a restart, only between connections. */
  ghost predicate Allowed(w: World, m: Move) {
    match m
    case Acts(side, env, input, secrets) =>
      && env.now == w.now && env.me == At(w, side).x.me && Proper(secrets, input)
      && if w.x.link.conn.Some? then Local(input) else Local(input) || input.Reboot?
    case Delivers(side, env, i) => env.now == w.now && env.me == At(w, side).x.me && w.x.link.conn.Some?
    case Connects(lanX, lanY) => w.x.link.conn.None?
    case Disconnects => true
    case Ticks(now) => now >= w.now
  }

  // ─── The invariant ────────────────────────────────────────────────────────

  ghost predicate Sound(events: seq<Event>, mine: set<Code>, theirs: set<Code>) {
    forall v | v in events :: !v.PairingFailed? && (v.Verified? ==> v.code in mine && v.code in theirs)
  }

  /** Tokens of one entry that x issued: each is in one place at most, answers an
      outstanding entry, and none is answered twice. */
  ghost predicate Token(w: World, side: Side, e: Entry)
    requires w.x.link.conn.Some? && w.y.link.conn.Some?
  {
    var c, theirs := w.x.link.conn.value, w.y.link.conn.value.talk.pending;
    && Asks(w.xy, e) + Waiting(theirs, e) + Replies(w.yx, e) <= Owns(c.talk.outstanding, e)
    && Asks(w.xy, e) + Waiting(theirs, e) + Replies(w.sy, e) <= Asks(w.sx, e) <= 1
    && (Asks(w.sx, e) > 0 ==> Drawnby(e, side, c.talk.drawn))
    && (!c.trust.trusted && !c.destroyed ==> Asks(w.sx, e) == Owns(c.talk.outstanding, e))
  }

  ghost predicate Wired(w: World, side: Side)
    requires w.x.link.conn.Some? && w.y.link.conn.Some?
  {
    var c := w.x.link.conn.value;
    && c.side == side && CardOk(c, w.x.held) && c.talk.out == []
    && AllHonest(w.xy, w.x.held) && AllHonest(w.sx, w.x.held)
    && Hellos(w.sx) == Bit(c.handshakeSent)
    && forall e :: Token(w, side, e)
  }

  ghost predicate Half(w: World, side: Side) {
    && Holds(w.x.held, w.x.secrets) && Sound(w.x.link.events, w.x.held, w.y.held)
    && (w.x.link.conn.Some? <==> w.y.link.conn.Some?)
    && (w.x.link.conn.Some? ==> Wired(w, side))
  }

  function Other(side: Side): Side {
    if side.Left? then Right else Left
  }

  ghost predicate Inv(w: World, side: Side) {
    Half(w, side) && Half(Flip(w), Other(side))
  }

  // ─── Steps of x keep both halves ──────────────────────────────────────────

  lemma HonestMore(m: Msg, held: set<Code>, more: set<Code>)
    requires Honest(m, held) && held <= more
    ensures Honest(m, more)
  {
  }

  lemma EmptiedOk(c: Conn, held: set<Code>)
    requires CardOk(c, held)
    ensures CardOk(Emptied(c), held)
  {
  }

  lemma CardMore(c: Conn, held: set<Code>, more: set<Code>)
    requires CardOk(c, held) && held <= more
    ensures CardOk(c, more)
  {
    forall m | m in c.talk.out ensures Honest(m, more) { HonestMore(m, held, more); }
  }

  lemma OutboxSums(w: World, l: Link, e: Entry)
    ensures Asks(w.xy + Outbox(l), e) == Asks(w.xy, e) + Asks(Outbox(l), e)
    ensures Replies(w.xy + Outbox(l), e) == Replies(w.xy, e) + Replies(Outbox(l), e)
    ensures Asks(w.sx + Outbox(l), e) == Asks(w.sx, e) + Asks(Outbox(l), e)
    ensures Replies(w.sx + Outbox(l), e) == Replies(w.sx, e) + Replies(Outbox(l), e)
    ensures Hellos(w.sx + Outbox(l)) == Hellos(w.sx) + Hellos(Outbox(l))
  {
    SumConcat(w.xy, Outbox(l), AskOf(e));
    SumConcat(w.xy, Outbox(l), ReplyOf(e));
    SumConcat(w.sx, Outbox(l), AskOf(e));
    SumConcat(w.sx, Outbox(l), ReplyOf(e));
    SumConcat(w.sx, Outbox(l), HelloOf());
  }

  // Distinct nonces: an entry is outstanding at most once.
  lemma {:induction false} OwnsOnce(o: seq<Entry>, e: Entry)
    requires DistinctNonces(o)
    ensures Owns(o, e) <= 1
  {
    if o != [] {
      var n := |o| - 1;
      OwnsOnce(o[..n], e);
      if o[n] == e && Owns(o[..n], e) > 0 {
        var i := SumPositive(o[..n], OwnOf(e));
        assert false;
      }
    }
  }

  // Tokens x issued, after x moved to `l` by a step that received `got` tokens of y's.
  lemma MyTokens(w: World, side: Side, secrets: seq<Secret>, l: Link, ready: bool, yx: seq<Msg>, e: Entry, got: nat)
    requires w.x.link.conn.Some? && w.y.link.conn.Some? && Wired(w, side)
    requires ConnOk(l, w.x.held + Codes(secrets)) && Turn(w.x.link, l, e, got, false)
    requires Replies(yx, e) <= Replies(w.yx, e)
    ensures Token(Advance(w, secrets, l, ready, yx), side, e)
  {
    assert Token(w, side, e);
    OutboxSums(w, l, e);
    OwnsOnce(l.conn.value.talk.outstanding, e);
    if Asks(Outbox(l), e) > 0 { OwnsMember(l.conn.value.talk.outstanding, e); }
  }

  // Tokens y issued, after the same step took `got` of them off the wire.
  lemma TheirTokens(w: World, side: Side, secrets: seq<Secret>, l: Link, ready: bool, yx: seq<Msg>, e: Entry, got: nat)
    requires w.x.link.conn.Some? && w.y.link.conn.Some? && Wired(Flip(w), side)
    requires w.x.link.conn.value.talk.out == [] && Turn(w.x.link, l, e, got, false)
    requires Asks(w.yx, e) == Asks(yx, e) + got
    ensures Token(Flip(Advance(w, secrets, l, ready, yx)), side, e)
  {
    assert Token(Flip(w), side, e);
    OutboxSums(w, l, e);
  }

  lemma WiredAfter(w: World, side: Side, secrets: seq<Secret>, l: Link, ready: bool, yx: seq<Msg>)
    requires Inv(w, side) && w.x.link.conn.Some? && Holds(w.x.held + Codes(secrets), secrets)
    requires ConnOk(l, w.x.held + Codes(secrets)) && l.conn.value.side == side
    requires Hellos(l.conn.value.talk.out) + Bit(w.x.link.conn.value.handshakeSent) == Bit(l.conn.value.handshakeSent)
    requires forall m | m in yx :: m in w.yx
    requires Sound(l.events, w.x.held + Codes(secrets), w.y.held)
    requires var w' := Advance(w, secrets, l, ready, yx);
             forall e :: Token(w', side, e) && Token(Flip(w'), Other(side), e)
    ensures Inv(Advance(w, secrets, l, ready, yx), side)
  {
    var held := w.x.held + Codes(secrets);
    EmptiedOk(l.conn.value, held);
    OutboxSums(w, l, Entry(NotSixteenBytes(""), Code("")));
    forall m | m in w.xy || m in w.sx ensures Honest(m, held) { HonestMore(m, w.x.held, held); }
  }

  // A step of x over the wire: it moved tokens only, and took `w.yx - yx` off the wire.
  ghost predicate Steps(w: World, l: Link, yx: seq<Msg>, e: Entry) {
    && Asks(yx, e) <= Asks(w.yx, e) && Replies(yx, e) <= Replies(w.yx, e)
    && Turn(w.x.link, l, e, Asks(w.yx, e) - Asks(yx, e), false)
  }

  lemma StepsKeep(w: World, side: Side, secrets: seq<Secret>, l: Link, ready: bool, yx: seq<Msg>)
    requires Inv(w, side) && w.x.link.conn.Some? && DistinctSecrets(secrets)
    requires ConnOk(l, w.x.held + Codes(secrets))
    requires Sound(l.events, w.x.held + Codes(secrets), w.y.held)
    requires forall m | m in yx :: m in w.yx
    requires forall e :: Steps(w, l, yx, e)
    ensures Inv(Advance(w, secrets, l, ready, yx), side)
  {
    var w' := Advance(w, secrets, l, ready, yx);
    forall e ensures Token(w', side, e) && Token(Flip(w'), Other(side), e) {
      assert Steps(w, l, yx, e);
      MyTokens(w, side, secrets, l, ready, yx, e, Asks(w.yx, e) - Asks(yx, e));
      TheirTokens(w, Other(side), secrets, l, ready, yx, e, Asks(w.yx, e) - Asks(yx, e));
    }
    assert Steps(w, l, yx, Entry(NotSixteenBytes(""), Code("")));
    WiredAfter(w, side, secrets, l, ready, yx);
  }

  lemma ActKeeps(w: World, side: Side, env: Env, input: Input, secrets: seq<Secret>)
    requires Inv(w, side) && w.x.link.conn.Some? && Local(input) && Proper(secrets, input)
    ensures Inv(Act(w, env, input, secrets), side)
  {
    var held, l := w.x.held + Codes(secrets), Next(secrets, env, w.x.link, input);
    CardMore(w.x.link.conn.value, w.x.held, held);
    LocalStep(secrets, env, w.x.link, input, held, Entry(NotSixteenBytes(""), Code("")));
    forall e ensures Steps(w, l, w.yx, e) { LocalStep(secrets, env, w.x.link, input, held, e); }
    StepsKeep(w, side, secrets, l, w.x.ready || input.Ready?, w.yx);
  }

  // ─── Deliveries keep both halves ──────────────────────────────────────────

  lemma DropSums(s: seq<Msg>, i: nat, e: Entry)
    requires i < |s|
    ensures Asks(s, e) == Asks(Drop(s, i), e) + AskOf(e)(s[i])
    ensures Replies(s, e) == Replies(Drop(s, i), e) + ReplyOf(e)(s[i])
  {
    SumDrop(s, i, AskOf(e));
    SumDrop(s, i, ReplyOf(e));
  }

  lemma PlainStep(secrets: seq<Secret>, env: Env, l: Link, m: Msg, held: set<Code>, theirs: set<Code>, e: Entry)
    requires ConnOk(l, held) && Holds(held, secrets) && Honest(m, theirs)
    requires l.conn.value.destroyed || !m.Response?
    ensures var after := Next(secrets, env, l, Receive(m));
            ConnOk(after, held) && Turn(l, after, e, AskOf(e)(m), false) && Tells(l.events, after.events)
  {
    if l.conn.value.destroyed {
      Idle(l, e, AskOf(e)(m));
    } else if m.Challenge? {
      ChallengeStep(secrets, env, l, m, held, e);
    } else {
      NoticeStep(secrets, env, l, m);
      ChatOk(l, HandlePeerMessage(secrets, env, l, m), held);
      ChatTurn(l, HandlePeerMessage(secrets, env, l, m), e);
    }
  }

  // A challenge, a handshake, a removal, or any message to a connection being closed.
  lemma PlainDelivery(w: World, side: Side, env: Env, i: nat)
    requires Inv(w, side) && w.x.link.conn.Some? && i < |w.yx|
    requires w.x.link.conn.value.destroyed || !w.yx[i].Response?
    ensures Inv(Deliver(w, env, i), side)
  {
    var m, l := w.yx[i], Next(w.x.secrets, env, w.x.link, Receive(w.yx[i]));
    assert w.x.held + Codes(w.x.secrets) == w.x.held;
    assert Honest(m, w.y.held);
    PlainStep(w.x.secrets, env, w.x.link, m, w.x.held, w.y.held, Entry(NotSixteenBytes(""), Code("")));
    forall e ensures Steps(w, l, Drop(w.yx, i), e) {
      PlainStep(w.x.secrets, env, w.x.link, m, w.x.held, w.y.held, e);
      DropSums(w.yx, i, e);
    }
    StepsKeep(w, side, w.x.secrets, l, w.x.ready, Drop(w.yx, i));
  }

  // The entry an honest answer is for.
  function Subject(m: Msg): Entry
    requires m.Response? && m.answered.Some? && m.mac.Some? && m.mac.value.Mac?
  {
    Entry(m.answered.value, m.mac.value.code)
  }

  /** Every answer in flight matches an outstanding entry of its receiver: same nonce,
      same code, and the MAC the receiver expects. */
  lemma AnswerMatches(w: World, side: Side, i: nat)
    requires Inv(w, side) && w.x.link.conn.Some? && i < |w.yx| && w.yx[i].Response?
    ensures Honest(w.yx[i], w.y.held)
    ensures var e := Subject(w.yx[i]);
            && e in w.x.link.conn.value.talk.outstanding
            && w.yx[i] == Response(Some(e.nonce), Some(Mac(e.code, e.nonce)))
            && e.code in w.x.held && e.code in w.y.held
  {
    assert Honest(w.yx[i], w.y.held);
    var e := Subject(w.yx[i]);
    assert Token(w, side, e);
    SumAtLeast(w.yx, i, ReplyOf(e));
    OwnsMember(w.x.link.conn.value.talk.outstanding, e);
  }

  lemma ResponseDelivery(w: World, side: Side, env: Env, i: nat)
    requires Inv(w, side) && w.x.link.conn.Some? && i < |w.yx|
    requires !w.x.link.conn.value.destroyed && w.yx[i].Response?
    ensures Inv(Deliver(w, env, i), side)
  {
    AnswerMatches(w, side, i);
    var e := Subject(w.yx[i]);
    ResponseStep(w.x.secrets, env, w.x.link, e, w.x.held);
    assert w.x.held + Codes(w.x.secrets) == w.x.held;
    if Listens(w.x.link) {
      AcceptedDelivery(w, side, env, i, e);
    } else {
      forall d ensures Steps(w, w.x.link, Drop(w.yx, i), d) { DropSums(w.yx, i, d); }
      StepsKeep(w, side, w.x.secrets, w.x.link, w.x.ready, Drop(w.yx, i));
    }
  }

  // Tokens after x accepted the answer for `e` and its link became `l`.
  lemma AcceptedTokens(w: World, side: Side, i: nat, e: Entry, k: nat, l: Link, d: Entry)
    requires Inv(w, side) && w.x.link.conn.Some? && i < |w.yx| && k < |w.x.link.conn.value.talk.outstanding|
    requires e == w.x.link.conn.value.talk.outstanding[k]
    requires w.yx[i] == Response(Some(e.nonce), Some(Mac(e.code, e.nonce)))
    requires Turn(Forgotten(w.x.link, k), l, d, 0, true) && (l.conn.value.trust.trusted || l.conn.value.destroyed)
    requires Asks(l.conn.value.talk.out, d) == 0
    ensures var w' := Advance(w, w.x.secrets, l, w.x.ready, Drop(w.yx, i));
            Token(w', side, d) && Token(Flip(w'), Other(side), d)
  {
    DropSums(w.yx, i, d);
    SumDrop(w.x.link.conn.value.talk.outstanding, k, OwnOf(d));
    assert Token(w, side, d) && Token(Flip(w), Other(side), d);
    OutboxSums(w, l, d);
  }

  lemma AcceptedDelivery(w: World, side: Side, env: Env, i: nat, e: Entry)
    requires Inv(w, side) && w.x.link.conn.Some? && i < |w.yx|
    requires e in w.x.link.conn.value.talk.outstanding && e.code in w.x.held && e.code in w.y.held
    requires w.yx[i] == Response(Some(e.nonce), Some(Mac(e.code, e.nonce)))
    requires IndexOf(w.x.link.conn.value.talk.outstanding, e.nonce) < |w.x.link.conn.value.talk.outstanding|
    ensures var k := IndexOf(w.x.link.conn.value.talk.outstanding, e.nonce);
            Inv(Advance(w, w.x.secrets, Accept(w.x.secrets, env, Forgotten(w.x.link, k), e.code), w.x.ready, Drop(w.yx, i)), side)
  {
    var o := w.x.link.conn.value.talk.outstanding;
    var k := IndexOf(o, e.nonce);
    IndexOfEntry(o, e);
    var f := Forgotten(w.x.link, k);
    var l := Accept(w.x.secrets, env, f, e.code);
    assert w.x.held + Codes(w.x.secrets) == w.x.held;
    ForgottenOk(w.x.link, k, w.x.held);
    AcceptStep(w.x.secrets, env, f, e.code);
    AcceptedConn(f, l, w.x.held, e);
    var w' := Advance(w, w.x.secrets, l, w.x.ready, Drop(w.yx, i));
    forall d ensures Token(w', side, d) && Token(Flip(w'), Other(side), d) {
      AcceptedConn(f, l, w.x.held, d);
      AcceptedTokens(w, side, i, e, k, l, d);
    }
    WiredAfter(w, side, w.x.secrets, l, w.x.ready, Drop(w.yx, i));
  }

  lemma AcceptedConn(f: Link, l: Link, held: set<Code>, d: Entry)
    requires ConnOk(f, held) && f.conn.value.talk.out == [] && l.conn.Some? && ConnChat(f.conn.value, l.conn.value)
    ensures ConnOk(l, held) && Turn(f, l, d, 0, true) && Asks(l.conn.value.talk.out, d) == 0
  {
    ChatOk(f, f.(conn := l.conn), held);
    ChatTurn(f, f.(conn := l.conn), d);
  }

  lemma DeliverKeeps(w: World, side: Side, env: Env, i: nat)
    requires Inv(w, side) && w.x.link.conn.Some? && i < |w.yx|
    ensures Inv(Deliver(w, env, i), side)
  {
    if w.x.link.conn.value.destroyed || !w.yx[i].Response? {
      PlainDelivery(w, side, env, i);
    } else {
      ResponseDelivery(w, side, env, i);
    }
  }

  // ─── Connections come and go ──────────────────────────────────────────────

  lemma IdleActKeeps(w: World, side: Side, env: Env, input: Input, secrets: seq<Secret>)
    requires Inv(w, side) && w.x.link.conn.None? && (Local(input) || input.Reboot?) && Proper(secrets, input)
    ensures Inv(Act(w, env, input, secrets), side)
  {
    assert Next(secrets, env, w.x.link, input).conn.None?;
    assert Tells(w.x.link.events, Next(secrets, env, w.x.link, input).events);
  }

  lemma ConnectKeeps(w: World, lanX: bool, lanY: bool)
    requires Inv(w, Left) && w.x.link.conn.None?
    ensures Inv(Connect(w, lanX, lanY), Left)
  {
  }

  lemma TickKeeps(w: World, now: nat)
    requires Inv(w, Left)
    ensures Inv(w.(now := now), Left)
  {
    var w' := w.(now := now);
    if w.x.link.conn.Some? {
      forall e ensures Token(w', Left, e) && Token(Flip(w'), Right, e) {
        assert Token(w, Left, e) && Token(Flip(w), Right, e);
      }
    }
  }

  lemma ApplyKeeps(w: World, m: Move)
    requires Inv(w, Left) && Allowed(w, m)
    ensures Inv(Apply(w, m), Left)
  {
    match m
    case Acts(side, env, input, secrets) =>
      if w.x.link.conn.Some? {
        ActKeeps(At(w, side), side, env, input, secrets);
      } else {
        IdleActKeeps(At(w, side), side, env, input, secrets);
      }
    case Delivers(side, env, i) =>
      if i < |At(w, side).yx| { DeliverKeeps(At(w, side), side, env, i); }
    case Connects(lanX, lanY) => ConnectKeeps(w, lanX, lanY);
    case Disconnects =>
    case Ticks(now) => TickKeeps(w, now);
  }

  // ─── Whole runs ───────────────────────────────────────────────────────────

  ghost function Run(start: World, moves: seq<Move>): World {
    if moves == [] then start else Apply(Run(start, moves[..|moves| - 1]), moves[|moves| - 1])
  }

  ghost predicate Lawful(start: World, moves: seq<Move>) {
    moves == [] ||
    (Lawful(start, moves[..|moves| - 1]) && Allowed(Run(start, moves[..|moves| - 1]), moves[|moves| - 1]))
  }

  // Two engines that never met: secrets and stored rows may already be there.
  ghost predicate Fresh(w: World) {
    && w.x.link.conn.None? && w.y.link.conn.None?
    && w.x.link.events == [] && w.y.link.events == []
    && Holds(w.x.held, w.x.secrets) && Holds(w.y.held, w.y.secrets)
  }

  lemma {:induction false} RunKeeps(start: World, moves: seq<Move>)
    requires Fresh(start) && Lawful(start, moves)
    ensures Inv(Run(start, moves), Left)
  {
    if moves != [] {
      RunKeeps(start, moves[..|moves| - 1]);
      ApplyKeeps(Run(start, moves[..|moves| - 1]), moves[|moves| - 1]);
    }
  }

  // ─── What every run guarantees ────────────────────────────────────────────

  /** Every answer in flight is one its receiver waits for and will accept, and no engine
      ever disconnects over a mismatch. */
  lemma NoMismatch(start: World, moves: seq<Move>, side: Side)
    requires Fresh(start) && Lawful(start, moves)
    ensures var w := At(Run(start, moves), side);
            && (forall v | v in w.x.link.events :: !v.PairingFailed?)
            && (w.x.link.conn.Some? ==>
                  forall m | m in w.yx && m.Response? ::
                    exists e :: e in w.x.link.conn.value.talk.outstanding && m == Response(Some(e.nonce), Some(Mac(e.code, e.nonce))))
  {
    RunKeeps(start, moves);
    var w := At(Run(start, moves), side);
    if w.x.link.conn.Some? {
      forall m | m in w.yx && m.Response?
        ensures exists e :: e in w.x.link.conn.value.talk.outstanding && m == Response(Some(e.nonce), Some(Mac(e.code, e.nonce)))
      {
        var i :| 0 <= i < |w.yx| && w.yx[i] == m;
        AnswerMatches(w, side, i);
        assert Subject(m) in w.x.link.conn.value.talk.outstanding;
      }
    }
  }

  /** Trust granted by pairing over a code implies that both engines have held it. */
  lemma VerifiedMeansBothHeld(start: World, moves: seq<Move>, side: Side, code: Code)
    requires Fresh(start) && Lawful(start, moves) && Verified(code) in At(Run(start, moves), side).x.link.events
    ensures code in Run(start, moves).x.held && code in Run(start, moves).y.held
  {
    RunKeeps(start, moves);
  }

  /** On one connection a side sends at most one handshake, a challenge draws at most one
      answer, and no challenge is sent twice. */
  lemma NoPingPong(start: World, moves: seq<Move>, side: Side, e: Entry)
    requires Fresh(start) && Lawful(start, moves) && Run(start, moves).x.link.conn.Some?
    ensures var w := At(Run(start, moves), side);
            Hellos(w.sx) <= 1 && Replies(w.sy, e) <= Asks(w.sx, e) <= 1
  {
    RunKeeps(start, moves);
    assert Token(At(Run(start, moves), side), side, e);
  }

  lemma ChallengedOnce(w: World, side: Side, i: nat, j: nat)
    requires Inv(w, side) && w.x.link.conn.Some? && !w.x.link.conn.value.trust.trusted && !w.x.link.conn.value.destroyed
    requires i < j < |w.sx| && w.sx[i].Challenge? && w.sx[j].Challenge?
    ensures w.sx[i].codeId != w.sx[j].codeId
  {
    assert Honest(w.sx[i], w.x.held) && Honest(w.sx[j], w.x.held);
    var d := Entry(w.sx[i].nonce.value, w.sx[i].codeId.value.code);
    var e := Entry(w.sx[j].nonce.value, w.sx[j].codeId.value.code);
    var o := w.x.link.conn.value.talk.outstanding;
    assert Token(w, side, d) && Token(w, side, e);
    SumAtLeast(w.sx, i, AskOf(d));
    SumAtLeast(w.sx, j, AskOf(e));
    OwnsMember(o, d);
    OwnsMember(o, e);
    if d == e {
      TwoAsks(w.sx, i, j, e);
      assert false;
    }
  }

  lemma TwoAsks(s: seq<Msg>, i: nat, j: nat, e: Entry)
    requires i < j < |s| && AskOf(e)(s[i]) == 1 && AskOf(e)(s[j]) == 1
    ensures Asks(s, e) >= 2
  {
    SumDrop(s, i, AskOf(e));
    assert Drop(s, i)[j - 1] == s[j];
    SumAtLeast(Drop(s, i), j - 1, AskOf(e));
  }

  /** While its peer is untrusted, a side challenges each code at most once. */
  lemma OneChallengePerCode(start: World, moves: seq<Move>, side: Side, i: nat, j: nat)
    requires Fresh(start) && Lawful(start, moves) && At(Run(start, moves), side).x.link.conn.Some?
    requires var w := At(Run(start, moves), side);
             && !w.x.link.conn.value.trust.trusted && !w.x.link.conn.value.destroyed
             && i < j < |w.sx| && w.sx[i].Challenge? && w.sx[j].Challenge?
    ensures var w := At(Run(start, moves), side);
            w.sx[i].codeId != w.sx[j].codeId
  {
    RunKeeps(start, moves);
    ChallengedOnce(At(Run(start, moves), side), side, i, j);
  }
}
