/** Removing a device.  Until its codes are rotated, a removed device that can still answer
    for one of them is challenged again on every turn of the pairing loop, because each
    accepted answer forgets its challenge.  Once they are rotated the exchange dies out,
    however often the loop drives the connection before it is closed. */
module PairingRemoval {
  import opened Options
  import opened Pairing
  import opened Sums
  import opened LinkInvariants
  import opened PairingTokens
  import opened PairingSteps
  import opened PairingWorld
  import opened PairingTermination

  // ─── After the rotation ───────────────────────────────────────────────────

  /** What removeDevice does once the key is revoked: the codes are rotated, which leaves
      the one fresh host code, and the peer is told. */
  function Rotation(side: Side, env: Env, host: Secret): seq<Move> {
    [Acts(side, env, Generated, [host]), Acts(side, env, Notify, [host])]
  }

  lemma RunTwo(w: World, a: Move, b: Move)
    ensures Run(w, [a, b]) == Apply(Apply(w, a), b)
    ensures Lawful(w, [a, b]) <==> Allowed(w, a) && Allowed(Apply(w, a), b)
  {
    assert [a, b][..1] == [a] && [a][..0] == [];
    assert Run(w, [a]) == Apply(w, a);
    assert Lawful(w, [a]) <==> Allowed(w, a);
  }

  // One step of a side whose only code is one the other side never held.
  lemma AloneUnshares(w: World, side: Side, env: Env, input: Input, host: Secret)
    requires Inv(w, Left) && w.x.link.conn.Some? && env.now == w.now && env.me == At(w, side).x.me
    requires host.code !in At(w, side).y.held && Local(input) && !input.Entered?
    ensures var m := Acts(side, env, input, [host]);
      var after := Apply(w, m);
      && Allowed(w, m) && Inv(after, Left) && after.x.link.conn.Some? && NothingShared(after)
      && after.now == w.now && At(after, side).x.me == At(w, side).x.me && At(after, side).y.held == At(w, side).y.held
  {
    hide Inv, Next;
    assert DistinctSecrets([host]);
    ActConnected(w, side, env, input, [host]);
    ApplyKeeps(w, Acts(side, env, input, [host]));
    OthersHeld(w, side);
  }

  // The other side never held the fresh code, so it cannot answer for it.
  lemma RotationUnshares(w: World, side: Side, env: Env, host: Secret)
    requires Inv(w, Left) && w.x.link.conn.Some? && env.now == w.now && env.me == At(w, side).x.me
    requires host.code !in At(w, side).y.held
    ensures Lawful(w, Rotation(side, env, host))
    ensures var told := Run(w, Rotation(side, env, host));
      Inv(told, Left) && told.x.link.conn.Some? && NothingShared(told)
  {
    hide Inv, Apply, Allowed, NothingShared, Run, Lawful;
    var a, b := Acts(side, env, Generated, [host]), Acts(side, env, Notify, [host]);
    RunTwo(w, a, b);
    AloneUnshares(w, side, env, Generated, host);
    AloneUnshares(Apply(w, a), side, env, Notify, host);
  }

  lemma OthersHeld(w: World, side: Side)
    requires Inv(w, Left)
    ensures forall t | t in At(w, side).y.secrets :: t.code in At(w, side).y.held
  {
  }

  // Acting keeps the connection.
  lemma ActConnected(w: World, side: Side, env: Env, input: Input, secrets: seq<Secret>)
    requires Inv(w, Left) && w.x.link.conn.Some? && Local(input) && Proper(secrets, input)
    ensures Apply(w, Acts(side, env, input, secrets)).x.link.conn.Some?
  {
    InvFlips(w, side);
    ActKeeps(At(w, side), side, env, input, secrets);
    StillConnected(At(w, side), side, env, input, secrets);
  }

  lemma StillConnected(w: World, side: Side, env: Env, input: Input, secrets: seq<Secret>)
    requires Inv(w, side) && w.x.link.conn.Some? && Local(input) && Proper(secrets, input)
    ensures w.y.link.conn.Some? && Act(w, env, input, secrets).x.link.conn.Some?
  {
    CardMore(w.x.link.conn.value, w.x.held, w.x.held + Codes(secrets));
    LocalStep(secrets, env, w.x.link, input, w.x.held + Codes(secrets), Entry(NotSixteenBytes(""), Code("")));
  }

  /** From whatever state a removal finds the exchange in, once the codes are rotated and
      the peer is told, the number of deliveries is bounded in advance: no turn of the
      pairing loop adds to it. */
  lemma RemovalSettles(w: World, side: Side, env: Env, host: Secret, moves: seq<Move>)
    requires Inv(w, Left) && w.x.link.conn.Some? && env.now == w.now && env.me == At(w, side).x.me
    requires host.code !in At(w, side).y.held
    requires var told := Run(w, Rotation(side, env, host)); Lawful(told, moves) && AllLeftAlone(told, moves)
    ensures var told := Run(w, Rotation(side, env, host));
      && Lawful(w, Rotation(side, env, host))
      && told.x.link.conn.Some? && told.y.link.conn.Some? && Deliveries(moves) <= Measure(told)
  {
    RotationUnshares(w, side, env, host);
    BothConnected(Run(w, Rotation(side, env, host)));
    UnsharedTerminates(Run(w, Rotation(side, env, host)), moves);
  }

  // ─── Before the rotation ──────────────────────────────────────────────────

  predicate Answers(l: Link) {
    l.conn.Some? && !l.conn.value.destroyed && !LanOnly(l.conn.value)
  }

  // Connected, not locked out: the pairing loop will challenge the removed device.
  predicate Drivable(w: World) {
    Removed(w.x.link) && !Active(w.x.link.ladders.failed, w.now)
  }

  /** The first end removed the second, still holds a live code that the second can answer
      for, and does not await an answer for it. */
  ghost predicate Going(w: World, s: Secret) {
    && Inv(w, Left) && Drivable(w) && Answers(w.y.link)
    && s in w.x.secrets && Live(s, w.now) && Usable(w.y.secrets, CodeId(s.code), w.now)
    && !Challenged(w.x.link.conn.value.talk, s.code)
  }

  function Here(w: World): Env {
    Env(w.now, w.x.me, false, false, {})
  }

  function There(w: World): Env {
    Env(w.now, w.y.me, false, false, {})
  }

  // The first end awaits the answer for e.
  ghost predicate Awaits(w: World, s: Secret, e: Entry) {
    && Inv(w, Left) && Drivable(w) && Answers(w.y.link)
    && s in w.x.secrets && Live(s, w.now) && Usable(w.y.secrets, CodeId(s.code), w.now)
    && e in w.x.link.conn.value.talk.outstanding && e.code == s.code && e.nonce.Drawn?
  }

  // A trusted end challenges nobody when it handles a challenge.
  lemma TrustedHandles(secrets: seq<Secret>, env: Env, l: Link, u: Unanswered)
    requires l.conn.Some? && l.conn.value.trust.trusted
    ensures AsksNoMore(l, HandleChallenge(secrets, env, l, Some(u.codeId), Some(u.nonce)))
  {
    hide Usable, SendChallenges, NoteChallenge;
    NotesOnly(env, l, true);
    NotesOnly(env, l, false);
  }

  predicate AsksNoMore(l: Link, m: Link) {
    && l.conn.Some? && m.conn.Some? && m.ladders.failed == l.ladders.failed && m.revokedAt == l.revokedAt
    && var c, d := l.conn.value, m.conn.value;
    && d.trust.trusted == c.trust.trusted && d.side == c.side && d.destroyed == c.destroyed
    && d.talk.outstanding == c.talk.outstanding && d.talk.drawn == c.talk.drawn
  }

  lemma NotesOnly(env: Env, l: Link, usable: bool)
    requires l.conn.Some?
    ensures AsksNoMore(l, NoteChallenge(env, l, usable))
  {
  }

  lemma {:induction false} TrustedHandlesAll(secrets: seq<Secret>, env: Env, l: Link, todo: seq<Unanswered>)
    requires l.conn.Some? && l.conn.value.trust.trusted
    ensures AsksNoMore(l, HandleAll(secrets, env, l, todo))
  {
    hide HandleChallenge;
    if todo != [] {
      TrustedHandlesAll(secrets, env, l, todo[..|todo| - 1]);
      TrustedHandles(secrets, env, HandleAll(secrets, env, l, todo[..|todo| - 1]), todo[|todo| - 1]);
    }
  }

  lemma {:induction false} ChallengesListed(entries: seq<Entry>, e: Entry)
    requires e in entries
    ensures ChallengeFor(e) in ChallengesFor(entries)
  {
    if entries[|entries| - 1] != e { ChallengesListed(entries[..|entries| - 1], e); }
  }

  // Challenging a removed device asks for every live code it was not asked for.
  lemma DriveAsks(secrets: seq<Secret>, env: Env, l: Link, s: Secret) returns (e: Entry)
    requires Removed(l) && !Active(l.ladders.failed, env.now) && s in secrets && Live(s, env.now) && !Challenged(l.conn.value.talk, s.code)
    ensures var m := SendChallengesToAll(secrets, env, l, true);
      && Removed(m) && !Active(m.ladders.failed, env.now)
      && e in m.conn.value.talk.outstanding && ChallengeFor(e) in m.conn.value.talk.out && e.code == s.code && e.nonce.Drawn?
  {
    hide HandleAll, Missing, ChallengesFor;
    var taken := With(l, TakePending(l.conn.value));
    TrustedHandlesAll(secrets, env, taken, l.conn.value.talk.pending);
    var c := FlushPending(secrets, env, l).conn.value;
    var entries := Missing(secrets, env.now, c.side, c.talk);
    MissingOk(secrets, env.now, c.side, c.talk);
    e :| e in entries && e.code == s.code;
    var k :| 0 <= k < |entries| && entries[k] == e;
    ChallengesListed(entries, e);
  }

  lemma Driven(w: World, s: Secret) returns (e: Entry, i: nat)
    requires Going(w, s)
    ensures var m := Acts(Left, Here(w), Drive, w.x.secrets);
      var v := Apply(w, m);
      && Allowed(w, m) && LeftAlone(w, m) && Awaits(v, s, e) && v.now == w.now
      && i < |v.xy| && v.xy[i] == ChallengeFor(e)
  {
    hide SendChallengesToAll, Wired;
    e := DriveAsks(w.x.secrets, Here(w), w.x.link, s);
    var m := Acts(Left, Here(w), Drive, w.x.secrets);
    ApplyKeeps(w, m);
    var v := Apply(w, m);
    assert ChallengeFor(e) in v.xy;
    i :| 0 <= i < |v.xy| && v.xy[i] == ChallengeFor(e);
  }

  lemma AnswersAtOnce(secrets: seq<Secret>, env: Env, l: Link, e: Entry)
    requires Answers(l) && e.nonce.Drawn? && Usable(secrets, CodeId(e.code), env.now)
    ensures var m := Next(secrets, env, l, Receive(ChallengeFor(e)));
      Answers(m) && Response(Some(e.nonce), Some(Mac(e.code, e.nonce))) in m.conn.value.talk.out
  {
    hide NoteChallenge, SendChallenges, Usable;
    HandleChallengeStanding(secrets, env, l, Some(CodeId(e.code)), Some(e.nonce));
    var noted := NoteChallenge(env, l, true);
    NoteKeepsTalk(env, l, true);
    var reply := Response(Some(e.nonce), Some(Mac(e.code, e.nonce)));
    var answered := With(noted, Say(noted.conn.value, reply));
    assert reply in answered.conn.value.talk.out;
    AppendsOnly(secrets, env, answered, true);
    assert Next(secrets, env, l, Receive(ChallengeFor(e))) == Answer(secrets, env, l, e.code, e.nonce);
  }

  lemma AppendsOnly(secrets: seq<Secret>, env: Env, l: Link, force: bool)
    requires l.conn.Some?
    ensures var m := SendChallenges(secrets, env, l, force);
      m.conn.Some? && forall x | x in l.conn.value.talk.out :: x in m.conn.value.talk.out
  {
  }

  lemma Asked(w: World, s: Secret, e: Entry, i: nat) returns (j: nat)
    requires Awaits(w, s, e) && i < |w.xy| && w.xy[i] == ChallengeFor(e)
    ensures var m := Delivers(Right, There(w), i);
      var v := Apply(w, m);
      && Allowed(w, m) && LeftAlone(w, m) && Awaits(v, s, e) && v.now == w.now
      && j < |v.yx| && v.yx[j] == Response(Some(e.nonce), Some(Mac(e.code, e.nonce)))
  {
    hide Next, Wired;
    var m := Delivers(Right, There(w), i);
    AnswersAtOnce(w.y.secrets, There(w), w.y.link, e);
    ApplyKeeps(w, m);
    var v := Apply(w, m);
    var reply := Response(Some(e.nonce), Some(Mac(e.code, e.nonce)));
    assert reply in v.yx;
    j :| 0 <= j < |v.yx| && v.yx[j] == reply;
  }

  // A trusted end that gets a right answer confirms the trust and forgets the challenge.
  lemma Reconfirms(secrets: seq<Secret>, env: Env, l: Link, code: Code)
    requires Removed(l)
    ensures var m := Accept(secrets, env, l, code);
      && Removed(m) && m.ladders == l.ladders && m.conn.value.talk.outstanding == l.conn.value.talk.outstanding
  {
    hide FlushBuffered;
    var told := With(l, ReplicateExchange(Disarm(l.conn.value).(code := Some(code))));
    FlushOfRemoved(env, told);
  }

  lemma FlushOfRemoved(env: Env, l: Link)
    requires Removed(l)
    ensures var m := FlushBuffered(env, l);
      && Removed(m) && m.ladders == l.ladders && m.conn.value.talk.outstanding == l.conn.value.talk.outstanding
  {
  }

  lemma Reopened(w: World, s: Secret, e: Entry, j: nat)
    requires Awaits(w, s, e) && j < |w.yx| && w.yx[j] == Response(Some(e.nonce), Some(Mac(e.code, e.nonce)))
    ensures var m := Delivers(Left, Here(w), j);
      && Allowed(w, m) && LeftAlone(w, m) && Going(Apply(w, m), s) && Apply(w, m).now == w.now
  {
    hide Next, Accept, Token;
    var m, l := Delivers(Left, Here(w), j), w.x.link;
    var k := IndexOf(l.conn.value.talk.outstanding, e.nonce);
    ResponseTaken(w.x.secrets, Here(w), l, e, w.x.held);
    Reconfirms(w.x.secrets, Here(w), Forgotten(l, k), e.code);
    NoneLeft(l.conn.value.talk.outstanding, k);
    ApplyKeeps(w, m);
  }

  lemma ResponseTaken(secrets: seq<Secret>, env: Env, l: Link, e: Entry, held: set<Code>)
    requires Removed(l) && ConnOk(l, held) && e in l.conn.value.talk.outstanding
    ensures var k := IndexOf(l.conn.value.talk.outstanding, e.nonce);
      && k < |l.conn.value.talk.outstanding| && l.conn.value.talk.outstanding[k] == e
      && Next(secrets, env, l, Receive(Response(Some(e.nonce), Some(Mac(e.code, e.nonce)))))
         == Accept(secrets, env, Forgotten(l, k), e.code)
  {
    hide Accept;
    ResponseStep(secrets, env, l, e, held);
  }

  // ─── One turn, and any number ─────────────────────────────────────────────

  lemma RunOneMore(start: World, moves: seq<Move>, m: Move)
    ensures Run(start, moves + [m]) == Apply(Run(start, moves), m)
    ensures Lawful(start, moves + [m]) <==> Lawful(start, moves) && Allowed(Run(start, moves), m)
    ensures AllLeftAlone(start, moves + [m]) <==> AllLeftAlone(start, moves) && LeftAlone(Run(start, moves), m)
    ensures Deliveries(moves + [m]) == Deliveries(moves) + DeliveryOf()(m)
  {
    assert (moves + [m])[..|moves|] == moves;
    SumSnoc(moves, m, DeliveryOf());
  }

  // The loop drives, the challenge arrives, the answer arrives: all as before.
  lemma OneTurnMore(start: World, moves: seq<Move>, s: Secret) returns (longer: seq<Move>)
    requires Lawful(start, moves) && AllLeftAlone(start, moves) && Going(Run(start, moves), s)
    ensures Lawful(start, longer) && AllLeftAlone(start, longer) && Going(Run(start, longer), s)
    ensures Deliveries(longer) == Deliveries(moves) + 2 && Run(start, longer).now == Run(start, moves).now
  {
    hide Apply, Allowed, LeftAlone, Going, Awaits;
    var w := Run(start, moves);
    var e, i := Driven(w, s);
    var a := Acts(Left, Here(w), Drive, w.x.secrets);
    RunOneMore(start, moves, a);
    var v := Apply(w, a);
    var j := Asked(v, s, e, i);
    var b := Delivers(Right, There(v), i);
    RunOneMore(start, moves + [a], b);
    var u := Apply(v, b);
    Reopened(u, s, e, j);
    var c := Delivers(Left, Here(u), j);
    RunOneMore(start, moves + [a] + [b], c);
    longer := moves + [a] + [b] + [c];
  }

  /** However many deliveries one asks for, a removed device whose codes are not rotated
      makes them without any user: two on every turn of the pairing loop. */
  lemma {:induction false} NeverSettles(w: World, s: Secret, n: nat) returns (moves: seq<Move>)
    requires Going(w, s)
    ensures Lawful(w, moves) && AllLeftAlone(w, moves) && Deliveries(moves) == 2 * n
    ensures Going(Run(w, moves), s) && Run(w, moves).now == w.now
  {
    hide Apply, Allowed, LeftAlone, Going;
    if n == 0 {
      moves := [];
    } else {
      var before := NeverSettles(w, s, n - 1);
      moves := OneTurnMore(w, before, s);
    }
  }

  // Some run without a user makes so many deliveries.
  ghost predicate Reaches(w: World, n: nat) {
    exists moves :: Lawful(w, moves) && AllLeftAlone(w, moves) && Deliveries(moves) >= n
  }

  ghost predicate Endless(w: World) {
    forall n: nat :: Reaches(w, n)
  }

  /** A code of the first end is live and the second can answer for it. */
  ghost predicate SharesCode(w: World) {
    exists s :: s in w.x.secrets && Live(s, w.now) && Usable(w.y.secrets, CodeId(s.code), w.now)
  }

  /** Exactly when a removed device's exchange can go on without end: its connection is
      open, the loop may challenge it, it listens, no answer for a code held on both sides
      is awaited; then it can go on if and only if there is such a code. */
  lemma GoesOnExactly(w: World)
    requires Inv(w, Left) && Drivable(w) && Answers(w.y.link)
    requires forall s | s in w.x.secrets && Live(s, w.now) && Usable(w.y.secrets, CodeId(s.code), w.now) ::
      !Challenged(w.x.link.conn.value.talk, s.code)
    ensures Endless(w) <==> SharesCode(w)
  {
    hide Inv, Lawful, AllLeftAlone, Measure, Run;
    if SharesCode(w) {
      var s :| s in w.x.secrets && Live(s, w.now) && Usable(w.y.secrets, CodeId(s.code), w.now);
      forall n: nat ensures Reaches(w, n) {
        var moves := NeverSettles(w, s, n);
      }
    } else {
      assert NothingShared(w);
      BothConnected(w);
      if Reaches(w, Measure(w) + 1) {
        var moves :| Lawful(w, moves) && AllLeftAlone(w, moves) && Deliveries(moves) >= Measure(w) + 1;
        UnsharedTerminates(w, moves);
        assert false;
      }
    }
  }

  // Two engines paired in an earlier session that still hold a code in common.
  ghost predicate PairedBefore(w: World, s: Secret) {
    && Fresh(w) && s in w.x.secrets && Live(s, w.now) && Usable(w.y.secrets, CodeId(s.code), w.now)
    && w.x.link.trustedKey && w.x.link.revokedAt.None? && !Active(w.x.link.ladders.failed, w.now)
    && w.y.link.trustedKey && w.y.link.revokedAt.None?
  }

  /** The state is reached: paired engines connect, one of them revokes the other, and its
      codes are not rotated yet. */
  lemma GapGoesOn(start: World, s: Secret)
    requires PairedBefore(start, s)
    ensures var moves := [Connects(false, false), Acts(Left, Here(start), Revoke, start.x.secrets)];
      Lawful(start, moves) && Going(Run(start, moves), s)
  {
    var a, b := Connects(false, false), Acts(Left, Here(start), Revoke, start.x.secrets);
    RunTwo(start, a, b);
    RunKeeps(start, []);
    ApplyKeeps(start, a);
    ApplyKeeps(Apply(start, a), b);
  }
}
