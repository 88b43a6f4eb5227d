/** What goes out to a peer and what is awaited from it, step by step: which challenges are
    sent, which are answered, how long a peer is left alone after failures. */
module PairingExchange {
  import opened Options
  import opened Pairing
  import opened LinkInvariants
  import opened PairingEffects

  // ─── The two ladders ──────────────────────────────────────────────────────

  // How long the nth failed answer in a row locks a peer out, in milliseconds.
  function LockoutAfter(n: nat): nat
    requires n > 0
  {
    match n
    case 1 => 5000
    case 2 => 10000
    case 3 => 20000
    case 4 => 40000
    case 5 => 80000
    case 6 => 160000
    case _ => 300000
  }

  // How long automatic challenges stop after the nth unanswered cycle in a row.
  function PauseAfter(n: nat): nat
    requires n > 0
  {
    match n
    case 1 => 15000
    case 2 => 30000
    case 3 => 60000
    case 4 => 120000
    case 5 => 240000
    case 6 => 480000
    case 7 => 960000
    case _ => 1800000
  }

  function Times(b: Option<Backoff>): nat {
    if b.Some? then b.value.count else 0
  }

  lemma {:induction false} Doubling(n: nat, k: nat)
    requires k <= n
    ensures Pow2(n) >= Pow2(k)
    decreases n
  {
    if k < n { Doubling(n - 1, k); }
  }

  lemma SmallPowers()
    ensures Pow2(0) == 1 && Pow2(1) == 2 && Pow2(2) == 4 && Pow2(3) == 8 && Pow2(4) == 16 && Pow2(5) == 32 && Pow2(6) == 64 && Pow2(7) == 128
  {
    assert Pow2(3) == 8;
    assert Pow2(5) == 32;
  }

  lemma LockoutTable(n: nat)
    requires n > 0
    ensures Min(5000 * Pow2(n - 1), 300000) == LockoutAfter(n)
  {
    SmallPowers();
    if n >= 7 { Doubling(n - 1, 6); }
  }

  lemma PauseTable(n: nat)
    requires n > 0
    ensures Min(15000 * Pow2(n - 1), 1800000) == PauseAfter(n)
  {
    SmallPowers();
    if n >= 8 { Doubling(n - 1, 7); }
  }

  /** A failure counts one more and starts the lockout of that count; an unanswered cycle
      counts one more and starts its pause. */
  lemma LaddersExact(b: Ladders, now: nat)
    ensures RecordFailure(b, now) == b.(failed := Some(Backoff(Times(b.failed) + 1, now + LockoutAfter(Times(b.failed) + 1))))
    ensures RecordUnanswered(b, now) == b.(unanswered := Some(Backoff(Times(b.unanswered) + 1, now + PauseAfter(Times(b.unanswered) + 1))))
  {
    LockoutTable(Times(b.failed) + 1);
    PauseTable(Times(b.unanswered) + 1);
  }

  // ─── Sending challenges ───────────────────────────────────────────────────

  // A lockout or pause is running.
  predicate Running(b: Option<Backoff>, now: nat) {
    b.Some? && now < b.value.until
  }

  /** A peer may be challenged: it is not a trusted peer in good standing, not a peer merely
      recognized on the LAN, not locked out, and not left alone, unless somebody asked. */
  predicate MayBeChallenged(env: Env, l: Link, force: bool) {
    && l.conn.Some?
    && (l.conn.value.trust.trusted || !l.conn.value.trust.mode.LanMode?)
    && (l.conn.value.trust.trusted ==> l.revokedAt.Some?)
    && !Running(l.ladders.failed, env.now)
    && (force || !Running(l.ladders.unanswered, env.now))
  }

  // The peer's lockout is looked at, and forgotten if it is over.
  predicate Considered(l: Link) {
    l.conn.Some? && (l.conn.value.trust.trusted || !l.conn.value.trust.mode.LanMode?) && (l.conn.value.trust.trusted ==> l.revokedAt.Some?)
  }

  predicate Asked(o: seq<Entry>, code: Code) {
    exists e | e in o :: e.code == code
  }

  // The code is held, in time, and not among the awaited answers.
  predicate ToAsk(secrets: seq<Secret>, now: nat, o: seq<Entry>, code: Code) {
    !Asked(o, code) && exists s | s in secrets :: s.code == code && (s.expiresAt == 0 || now < s.expiresAt)
  }

  predicate Watched(env: Env, t: Trust) {
    !t.trusted && !t.complete && !env.tunnel
  }

  // One fresh nonce for every code there is to ask for.
  ghost predicate Fresh(secrets: seq<Secret>, now: nat, side: Side, t: Talk, added: seq<Entry>) {
    && (forall i :: 0 <= i < |added| ==> added[i].nonce == Drawn(side, t.drawn + i) && ToAsk(secrets, now, t.outstanding, added[i].code))
    && (forall code | ToAsk(secrets, now, t.outstanding, code) :: Asked(added, code))
    && (DistinctSecrets(secrets) ==> forall i, j :: 0 <= i < j < |added| ==> added[i].code != added[j].code)
  }

  function Questions(added: seq<Entry>): seq<Msg> {
    seq(|added|, i requires 0 <= i < |added| => Challenge(Some(CodeId(added[i].code)), Some(added[i].nonce)))
  }

  // Challenges for the added entries go out, in order, and start the watchdog if there is any.
  ghost predicate Asks(secrets: seq<Secret>, env: Env, c: Conn, d: Conn) {
    && |c.talk.outstanding| <= |d.talk.outstanding|
    && var added := d.talk.outstanding[|c.talk.outstanding|..];
    && Fresh(secrets, env.now, c.side, c.talk, added)
    && d == c.(talk := Talk(c.talk.outstanding + added, c.talk.pending, c.talk.drawn + |added|, c.talk.out + Questions(added)),
               trust := c.trust.(watchdog := c.trust.watchdog || (added != [] && Watched(env, c.trust))))
  }

  lemma {:induction false} MissingExact(secrets: seq<Secret>, now: nat, side: Side, t: Talk)
    ensures Fresh(secrets, now, side, t, Missing(secrets, now, side, t))
  {
    if secrets != [] {
      var rest, s := secrets[..|secrets| - 1], secrets[|secrets| - 1];
      MissingExact(rest, now, side, t);
      var before, m := Missing(rest, now, side, t), Missing(secrets, now, side, t);
      forall code | ToAsk(secrets, now, t.outstanding, code) ensures Asked(m, code) {
        if ToAsk(rest, now, t.outstanding, code) {
          var e :| e in before && e.code == code;
          assert e in m;
        } else {
          assert m[|m| - 1] in m;
        }
      }
    }
  }

  lemma {:induction false} ChallengesInOrder(entries: seq<Entry>)
    ensures ChallengesFor(entries) == Questions(entries)
  {
    if entries != [] { ChallengesInOrder(entries[..|entries| - 1]); }
  }

  lemma AsksExact(secrets: seq<Secret>, env: Env, c: Conn)
    ensures Asks(secrets, env, c, ChallengeNow(secrets, env, c))
  {
    hide Missing, ChallengesFor, Fresh;
    var m := Missing(secrets, env.now, c.side, c.talk);
    MissingExact(secrets, env.now, c.side, c.talk);
    ChallengesInOrder(m);
    assert (c.talk.outstanding + m)[|c.talk.outstanding|..] == m;
  }

  ghost predicate Challenges(secrets: seq<Secret>, env: Env, l: Link, force: bool, m: Link) {
    && m == l.(conn := m.conn, ladders := m.ladders)
    && (MayBeChallenged(env, l, force) ==> m.conn.Some? && m.ladders == Ladders(None, None) && Asks(secrets, env, l.conn.value, m.conn.value))
    && (!MayBeChallenged(env, l, force) ==>
          && m.conn == l.conn
          && m.ladders == l.ladders.(failed := if Considered(l) && !Running(l.ladders.failed, env.now) then None else l.ladders.failed))
  }

  /** Whoever may be challenged is asked, once each, for every code that is held and in time
      and not awaited already, which ends both ladders; nobody else is sent anything. */
  lemma ChallengesExact(secrets: seq<Secret>, env: Env, l: Link, force: bool)
    ensures Challenges(secrets, env, l, force, SendChallenges(secrets, env, l, force))
  {
    hide Asks, ChallengeNow;
    if l.conn.Some? { AsksExact(secrets, env, l.conn.value); }
  }

  // ─── A challenge that arrives ─────────────────────────────────────────────

  predicate Held(secrets: seq<Secret>, now: nat, id: CodeId) {
    exists s | s in secrets :: CodeId(s.code) == id && (s.expiresAt == 0 || now < s.expiresAt)
  }

  // A challenge is dropped if it is malformed, if its peer is merely recognized on the LAN,
  // or if its peer is revoked and we do not hold the code.
  predicate Hears(secrets: seq<Secret>, env: Env, l: Link, id: Option<CodeId>, nonce: Option<Nonce>) {
    && l.conn.Some? && id.Some? && nonce.Some?
    && (l.conn.value.trust.trusted || !l.conn.value.trust.mode.LanMode?)
    && (l.revokedAt.Some? ==> Held(secrets, env.now, id.value))
  }

  // The pause ends, and the watchdog starts against a peer that is not trusted.
  function Roused(env: Env, l: Link): Link
    requires l.conn.Some?
  {
    var c := l.conn.value;
    l.(ladders := l.ladders.(unanswered := None),
       conn := Some(c.(trust := c.trust.(watchdog := c.trust.watchdog || Watched(env, c.trust)))))
  }

  function WithTalk(l: Link, t: Talk): Link
    requires l.conn.Some?
  {
    l.(conn := Some(l.conn.value.(talk := t)))
  }

  function Replied(l: Link, id: CodeId, nonce: Nonce): Link
    requires l.conn.Some?
  {
    var t := l.conn.value.talk;
    WithTalk(l, t.(out := t.out + [Response(Some(nonce), Some(Mac(id.code, nonce)))]))
  }

  // The challenge is kept for when its code is entered; the oldest of more than sixteen goes.
  function Kept(l: Link, id: CodeId, nonce: Nonce): Link
    requires l.conn.Some?
  {
    var t := l.conn.value.talk;
    var all := t.pending + [Unanswered(id, nonce)];
    WithTalk(l, t.(pending := if |all| <= 16 then all else all[1..]))
  }

  // We ask back, so that trust becomes mutual, unless we are asking already.
  predicate AsksBack(env: Env, l: Link) {
    l.conn.Some? && l.conn.value.talk.outstanding == [] && !l.conn.value.trust.trusted && !env.site
  }

  ghost predicate Heard(secrets: seq<Secret>, env: Env, l: Link, id: CodeId, nonce: Nonce, m: Link)
    requires l.conn.Some?
  {
    if Held(secrets, env.now, id) then
      var noted := if env.site then l else Roused(env, l);
      if nonce.NotSixteenBytes? then m == noted
      else if AsksBack(env, l) then Challenges(secrets, env, Replied(noted, id, nonce), true, m)
      else m == Replied(noted, id, nonce)
    else m == Kept(if env.site || Running(l.ladders.unanswered, env.now) then l else Roused(env, l), id, nonce)
  }

  lemma UsableIsHeld(secrets: seq<Secret>, now: nat, id: CodeId)
    ensures Usable(secrets, id, now) <==> Held(secrets, now, id)
  {
  }

  lemma NotedExact(env: Env, l: Link, usable: bool)
    requires l.conn.Some?
    ensures NoteChallenge(env, l, usable) == if env.site || (!usable && Running(l.ladders.unanswered, env.now)) then l else Roused(env, l)
  {
  }

  /** A challenge for a code we hold is answered at once, and its peer asked back; one for a
      code we do not hold is kept; everything else is dropped. */
  lemma ChallengeExact(secrets: seq<Secret>, env: Env, l: Link, id: Option<CodeId>, nonce: Option<Nonce>)
    ensures var m := HandleChallenge(secrets, env, l, id, nonce);
      if Hears(secrets, env, l, id, nonce) then Heard(secrets, env, l, id.value, nonce.value, m) else m == l
  {
    hide NoteChallenge, Usable, Held, SendChallenges, Challenges;
    if id.Some? { UsableIsHeld(secrets, env.now, id.value); }
    if Hears(secrets, env, l, id, nonce) {
      var held := Held(secrets, env.now, id.value);
      NotedExact(env, l, held);
      var noted := NoteChallenge(env, l, held);
      if held && nonce.value.Drawn? { ChallengesExact(secrets, env, Replied(noted, id.value, nonce.value), true); }
    }
  }

  // ─── Challenges kept for later ────────────────────────────────────────────

  function Responses(s: seq<Msg>): seq<Msg> {
    if s == [] then []
    else Responses(s[..|s| - 1]) + (if s[|s| - 1].Response? then [s[|s| - 1]] else [])
  }

  function Others(s: seq<Msg>): seq<Msg> {
    if s == [] then []
    else Others(s[..|s| - 1]) + (if s[|s| - 1].Response? then [] else [s[|s| - 1]])
  }

  predicate Answerable(secrets: seq<Secret>, now: nat, u: Unanswered) {
    Held(secrets, now, u.codeId) && !u.nonce.NotSixteenBytes?
  }

  // The answers owed for kept challenges, in the order the challenges came.
  function Owed(secrets: seq<Secret>, now: nat, kept: seq<Unanswered>): seq<Msg> {
    if kept == [] then []
    else
      var u := kept[|kept| - 1];
      Owed(secrets, now, kept[..|kept| - 1])
      + (if Answerable(secrets, now, u) then [Response(Some(u.nonce), Some(Mac(u.codeId.code, u.nonce)))] else [])
  }

  // What stays kept: challenges whose codes are still not held.
  function StillKept(secrets: seq<Secret>, now: nat, kept: seq<Unanswered>): seq<Unanswered> {
    if kept == [] then []
    else
      var u := kept[|kept| - 1];
      StillKept(secrets, now, kept[..|kept| - 1]) + (if Held(secrets, now, u.codeId) then [] else [u])
  }

  ghost predicate SomeHeld(secrets: seq<Secret>, now: nat, kept: seq<Unanswered>) {
    exists u | u in kept :: Held(secrets, now, u.codeId)
  }

  ghost predicate SomeAnswerable(secrets: seq<Secret>, now: nat, kept: seq<Unanswered>) {
    exists u | u in kept :: Answerable(secrets, now, u)
  }

  // Over what was kept, `asks` or not: every answer owed goes out, the rest stays kept, and
  // questions are asked for every code there is to ask for, or none.
  ghost predicate Flushed(secrets: seq<Secret>, env: Env, l: Link, m: Link, kept: seq<Unanswered>, asks: bool) {
    && SameStanding(l, m) && l.conn.Some?
    && var c, d := l.conn.value, m.conn.value;
    && d.talk.pending == c.talk.pending + (if l.revokedAt.Some? then [] else StillKept(secrets, env.now, kept))
    && Responses(d.talk.out) == Responses(c.talk.out) + Owed(secrets, env.now, kept)
    && Grows(secrets, env, c, d, asks)
    && (Running(m.ladders.failed, env.now) <==> Running(l.ladders.failed, env.now))
    && (Running(m.ladders.unanswered, env.now) <==> Running(l.ladders.unanswered, env.now) && (env.site || !SomeHeld(secrets, env.now, kept)))
  }

  ghost predicate Grows(secrets: seq<Secret>, env: Env, c: Conn, d: Conn, asks: bool) {
    && |c.talk.outstanding| <= |d.talk.outstanding|
    && var added := d.talk.outstanding[|c.talk.outstanding|..];
    && d.talk.outstanding == c.talk.outstanding + added && d.talk.drawn == c.talk.drawn + |added|
    && Others(d.talk.out) == Others(c.talk.out) + Questions(added)
    && (if asks then Fresh(secrets, env.now, c.side, c.talk, added) else added == [])
  }

  lemma {:induction false} OutSplits(a: seq<Msg>, b: seq<Msg>)
    ensures Responses(a + b) == Responses(a) + Responses(b)
    ensures Others(a + b) == Others(a) + Others(b)
  {
    if b == [] {
      assert a + b == a;
    } else {
      assert (a + b)[..|a + b| - 1] == a + b[..|b| - 1];
      OutSplits(a, b[..|b| - 1]);
    }
  }

  lemma {:induction false} QuestionsAreOthers(added: seq<Entry>)
    ensures Responses(Questions(added)) == [] && Others(Questions(added)) == Questions(added)
  {
    if added != [] {
      var rest := added[..|added| - 1];
      QuestionsAreOthers(rest);
      assert Questions(added)[..|added| - 1] == Questions(rest);
    }
  }

  lemma AskedAppend(a: seq<Entry>, b: seq<Entry>, code: Code)
    ensures Asked(a + b, code) <==> Asked(a, code) || Asked(b, code)
  {
    if e :| e in a && e.code == code { assert e in a + b; }
    if e :| e in b && e.code == code { assert e in a + b; }
  }

  // Asking again finds nothing new.
  lemma NothingTwice(secrets: seq<Secret>, now: nat, side: Side, t: Talk, u: Talk, added: seq<Entry>, more: seq<Entry>)
    requires Fresh(secrets, now, side, t, added) && u.outstanding == t.outstanding + added && Fresh(secrets, now, side, u, more)
    ensures more == []
  {
    hide DistinctSecrets, Asked;
    forall code ensures !ToAsk(secrets, now, u.outstanding, code) {
      AskedAppend(t.outstanding, added, code);
      assert ToAsk(secrets, now, t.outstanding, code) ==> Asked(added, code);
    }
    assert more != [] ==> ToAsk(secrets, now, u.outstanding, more[0].code);
  }

  predicate Attended(l: Link) {
    l.conn.Some? && (l.conn.value.trust.trusted || !l.conn.value.trust.mode.LanMode?)
  }

  lemma OneKept(secrets: seq<Secret>, now: nat, u: Unanswered)
    ensures Owed(secrets, now, [u]) == if Answerable(secrets, now, u) then [Response(Some(u.nonce), Some(Mac(u.codeId.code, u.nonce)))] else []
    ensures StillKept(secrets, now, [u]) == if Held(secrets, now, u.codeId) then [] else [u]
    ensures SomeHeld(secrets, now, [u]) <==> Held(secrets, now, u.codeId)
  {
    assert [u][..|[u]| - 1] == [];
    assert u in [u];
  }

  lemma GrowsNot(secrets: seq<Secret>, env: Env, c: Conn, d: Conn)
    requires d.talk.outstanding == c.talk.outstanding && d.talk.drawn == c.talk.drawn && Others(d.talk.out) == Others(c.talk.out)
    ensures Grows(secrets, env, c, d, false)
  {
    assert c.talk.outstanding[|c.talk.outstanding|..] == [] && Questions([]) == [];
  }

  lemma OneResponse(r: Msg)
    requires r.Response?
    ensures Responses([r]) == [r] && Others([r]) == []
  {
    assert [r][..|[r]| - 1] == [];
  }

  lemma RepliedFlushed(secrets: seq<Secret>, env: Env, l: Link, u: Unanswered)
    requires Attended(l) && Answerable(secrets, env.now, u)
    ensures Flushed(secrets, env, l, Replied(if env.site then l else Roused(env, l), u.codeId, u.nonce), [u], false)
  {
    hide Held, Grows, SomeHeld, Responses, Others, Owed, StillKept;
    var r := Response(Some(u.nonce), Some(Mac(u.codeId.code, u.nonce)));
    OutSplits(l.conn.value.talk.out, [r]);
    OneResponse(r);
    OneKept(secrets, env.now, u);
    GrowsNot(secrets, env, l.conn.value, Replied(if env.site then l else Roused(env, l), u.codeId, u.nonce).conn.value);
  }

  lemma UnheldFlushed(secrets: seq<Secret>, env: Env, l: Link, u: Unanswered, m: Link)
    requires Attended(l) && |l.conn.value.talk.pending| < 16 && !Held(secrets, env.now, u.codeId)
    requires m == HandleChallenge(secrets, env, l, Some(u.codeId), Some(u.nonce))
    ensures Flushed(secrets, env, l, m, [u], false)
  {
    hide HandleChallenge, Held, Challenges, Grows, SomeHeld, Responses, Others, Owed, StillKept, Roused, Kept;
    ChallengeExact(secrets, env, l, Some(u.codeId), Some(u.nonce));
    OneKept(secrets, env.now, u);
    if l.revokedAt.Some? {
      GrowsNot(secrets, env, l.conn.value, l.conn.value);
    } else {
      KeptExact(env, l, u.codeId, u.nonce);
      GrowsNot(secrets, env, l.conn.value, m.conn.value);
    }
  }

  lemma KeptExact(env: Env, l: Link, id: CodeId, nonce: Nonce)
    requires l.conn.Some? && |l.conn.value.talk.pending| < 16
    ensures var m := Kept(if env.site || Running(l.ladders.unanswered, env.now) then l else Roused(env, l), id, nonce);
      && SameStanding(l, m) && m.ladders.failed == l.ladders.failed
      && m.conn.value.talk == l.conn.value.talk.(pending := l.conn.value.talk.pending + [Unanswered(id, nonce)])
      && (Running(m.ladders.unanswered, env.now) <==> Running(l.ladders.unanswered, env.now))
  {
  }

  lemma MalformedFlushed(secrets: seq<Secret>, env: Env, l: Link, u: Unanswered, m: Link)
    requires Attended(l) && |l.conn.value.talk.pending| < 16 && Held(secrets, env.now, u.codeId) && u.nonce.NotSixteenBytes?
    requires m == HandleChallenge(secrets, env, l, Some(u.codeId), Some(u.nonce))
    ensures Flushed(secrets, env, l, m, [u], false)
  {
    hide HandleChallenge, Held, Challenges, Grows, SomeHeld, Responses, Others, Owed, StillKept;
    ChallengeExact(secrets, env, l, Some(u.codeId), Some(u.nonce));
    OneKept(secrets, env.now, u);
    GrowsNot(secrets, env, l.conn.value, m.conn.value);
  }

  // Asking after a reply, or not at all.
  lemma AskedFlushed(secrets: seq<Secret>, env: Env, l: Link, k: Link, m: Link, kept: seq<Unanswered>)
    requires Flushed(secrets, env, l, k, kept, false) && Challenges(secrets, env, k, true, m) && Attended(l) && !l.conn.value.trust.trusted
    requires SomeHeld(secrets, env.now, kept) && !env.site && SameStanding(l, m)
    ensures Flushed(secrets, env, l, m, kept, !Running(l.ladders.failed, env.now))
  {
    hide Held, Fresh, Responses, Others, Owed, StillKept, SomeHeld;
    if MayBeChallenged(env, k, true) {
      var c, d := k.conn.value, m.conn.value;
      var added := d.talk.outstanding[|c.talk.outstanding|..];
      OutSplits(c.talk.out, Questions(added));
      QuestionsAreOthers(added);
      FreshSame(secrets, env.now, c.side, l.conn.value.talk, c.talk, added);
    }
  }

  lemma FreshSame(secrets: seq<Secret>, now: nat, side: Side, t: Talk, u: Talk, added: seq<Entry>)
    requires t.outstanding == u.outstanding && t.drawn == u.drawn && Fresh(secrets, now, side, u, added)
    ensures Fresh(secrets, now, side, t, added)
  {
  }

  // The peer is asked back over the answers owed for what was kept.
  ghost predicate AskedBack(secrets: seq<Secret>, env: Env, l: Link, kept: seq<Unanswered>) {
    AsksBack(env, l) && !Running(l.ladders.failed, env.now) && SomeAnswerable(secrets, env.now, kept)
  }

  lemma HandledFlushed(secrets: seq<Secret>, env: Env, l: Link, u: Unanswered)
    requires Attended(l) && |l.conn.value.talk.pending| < 16
    ensures Flushed(secrets, env, l, HandleChallenge(secrets, env, l, Some(u.codeId), Some(u.nonce)), [u], AskedBack(secrets, env, l, [u]))
  {
    hide HandleChallenge, Held, Challenges, Flushed, Roused;
    var m := HandleChallenge(secrets, env, l, Some(u.codeId), Some(u.nonce));
    assert u in [u];
    if !Held(secrets, env.now, u.codeId) {
      UnheldFlushed(secrets, env, l, u, m);
    } else if u.nonce.NotSixteenBytes? {
      MalformedFlushed(secrets, env, l, u, m);
    } else {
      AnsweredFlushed(secrets, env, l, u, m);
    }
  }

  lemma AnsweredFlushed(secrets: seq<Secret>, env: Env, l: Link, u: Unanswered, m: Link)
    requires Attended(l) && Answerable(secrets, env.now, u)
    requires m == HandleChallenge(secrets, env, l, Some(u.codeId), Some(u.nonce))
    ensures Flushed(secrets, env, l, m, [u], AsksBack(env, l) && !Running(l.ladders.failed, env.now))
  {
    hide HandleChallenge, Held, Challenges, Flushed;
    ChallengeExact(secrets, env, l, Some(u.codeId), Some(u.nonce));
    RepliedFlushed(secrets, env, l, u);
    OneKept(secrets, env.now, u);
    if AsksBack(env, l) {
      HandleChallengeStanding(secrets, env, l, Some(u.codeId), Some(u.nonce));
      AskedFlushed(secrets, env, l, Replied(Roused(env, l), u.codeId, u.nonce), m, [u]);
    }
  }

  lemma KeptThen(secrets: seq<Secret>, now: nat, kept: seq<Unanswered>)
    requires kept != []
    ensures var front, last := kept[..|kept| - 1], [kept[|kept| - 1]];
      && Owed(secrets, now, kept) == Owed(secrets, now, front) + Owed(secrets, now, last)
      && StillKept(secrets, now, kept) == StillKept(secrets, now, front) + StillKept(secrets, now, last)
      && (SomeHeld(secrets, now, kept) <==> SomeHeld(secrets, now, front) || SomeHeld(secrets, now, last))
      && (SomeAnswerable(secrets, now, kept) <==> SomeAnswerable(secrets, now, front) || SomeAnswerable(secrets, now, last))
  {
    hide Held;
    OneKept(secrets, now, kept[|kept| - 1]);
    assert kept == kept[..|kept| - 1] + [kept[|kept| - 1]];
  }

  // What was kept, handled up to the last one, and then the last one.
  lemma FlushedThen(secrets: seq<Secret>, env: Env, l: Link, k: Link, m: Link, kept: seq<Unanswered>)
    requires kept != [] && Attended(l)
    requires Flushed(secrets, env, l, k, kept[..|kept| - 1], AskedBack(secrets, env, l, kept[..|kept| - 1]))
    requires Flushed(secrets, env, k, m, [kept[|kept| - 1]], AskedBack(secrets, env, k, [kept[|kept| - 1]]))
    ensures Flushed(secrets, env, l, m, kept, AskedBack(secrets, env, l, kept))
  {
    hide Held, Grows, Responses, Others, AskedBack, Owed, StillKept, SomeHeld, SameStanding;
    StandingTransitive(l, k, m);
    KeptThen(secrets, env.now, kept);
    SameRevocation(l, k);
    GrowsThen(secrets, env, l, k, m, kept);
  }

  lemma SameRevocation(l: Link, k: Link)
    requires SameStanding(l, k)
    ensures k.revokedAt == l.revokedAt && (l.conn.Some? ==> k.conn.Some? && k.conn.value.side == l.conn.value.side && k.conn.value.trust.trusted == l.conn.value.trust.trusted && k.conn.value.trust.mode == l.conn.value.trust.mode)
  {
  }

  lemma TwoSuffixes<T>(a: seq<T>, first: seq<T>, more: seq<T>)
    ensures a + first + more == a + (first + more) && (a + (first + more))[|a|..] == first + more
  {
  }

  lemma QuestionsAppend(a: seq<Entry>, b: seq<Entry>)
    ensures Questions(a + b) == Questions(a) + Questions(b)
  {
  }

  lemma GrowsTwice(secrets: seq<Secret>, env: Env, c: Conn, b: Conn, d: Conn, asks: bool, again: bool)
    requires Grows(secrets, env, c, b, asks) && Grows(secrets, env, b, d, again) && b.side == c.side
    ensures Grows(secrets, env, c, d, asks || again)
  {
    hide Fresh, Others, Questions;
    var first, more := b.talk.outstanding[|c.talk.outstanding|..], d.talk.outstanding[|b.talk.outstanding|..];
    TwoSuffixes(c.talk.outstanding, first, more);
    QuestionsAppend(first, more);
    if !again {
      assert first + more == first;
    } else if asks {
      NothingTwice(secrets, env.now, c.side, c.talk, b.talk, first, more);
      assert first + more == first;
    } else {
      FreshSame(secrets, env.now, c.side, c.talk, b.talk, more);
      assert first + more == more;
    }
  }

  lemma BackThen(secrets: seq<Secret>, env: Env, l: Link, k: Link, kept: seq<Unanswered>)
    requires kept != [] && l.conn.Some? && k.conn.Some? && k.conn.value.trust.trusted == l.conn.value.trust.trusted
    requires Running(k.ladders.failed, env.now) <==> Running(l.ladders.failed, env.now)
    requires |l.conn.value.talk.outstanding| <= |k.conn.value.talk.outstanding|
    requires !AskedBack(secrets, env, l, kept[..|kept| - 1]) ==> k.conn.value.talk.outstanding == l.conn.value.talk.outstanding
    ensures AskedBack(secrets, env, l, kept) <==> AskedBack(secrets, env, l, kept[..|kept| - 1]) || AskedBack(secrets, env, k, [kept[|kept| - 1]])
  {
    hide SomeAnswerable, Running;
    KeptThen(secrets, env.now, kept);
  }

  lemma GrowsThen(secrets: seq<Secret>, env: Env, l: Link, k: Link, m: Link, kept: seq<Unanswered>)
    requires kept != [] && Attended(l) && SameStanding(l, k) && SameStanding(k, m)
    requires Running(k.ladders.failed, env.now) <==> Running(l.ladders.failed, env.now)
    requires Grows(secrets, env, l.conn.value, k.conn.value, AskedBack(secrets, env, l, kept[..|kept| - 1]))
    requires Grows(secrets, env, k.conn.value, m.conn.value, AskedBack(secrets, env, k, [kept[|kept| - 1]]))
    ensures Grows(secrets, env, l.conn.value, m.conn.value, AskedBack(secrets, env, l, kept))
  {
    hide SameStanding, AskedBack, Running, Fresh, Others;
    SameRevocation(l, k);
    SameRevocation(k, m);
    BackThen(secrets, env, l, k, kept);
    GrowsTwice(secrets, env, l.conn.value, k.conn.value, m.conn.value, AskedBack(secrets, env, l, kept[..|kept| - 1]), AskedBack(secrets, env, k, [kept[|kept| - 1]]));
  }

  lemma FlushedNothing(secrets: seq<Secret>, env: Env, l: Link)
    requires Attended(l)
    ensures Flushed(secrets, env, l, l, [], AskedBack(secrets, env, l, []))
  {
    hide Grows;
    GrowsNot(secrets, env, l.conn.value, l.conn.value);
  }

  lemma {:induction false} HandleAllFlushed(secrets: seq<Secret>, env: Env, l: Link, kept: seq<Unanswered>)
    requires Attended(l) && |l.conn.value.talk.pending| + |kept| <= 16
    ensures Flushed(secrets, env, l, HandleAll(secrets, env, l, kept), kept, AskedBack(secrets, env, l, kept))
  {
    hide AskedBack, HandleChallenge, Grows, SameStanding, Responses, Owed, SomeHeld;
    if kept == [] {
      FlushedNothing(secrets, env, l);
    } else {
      var n := |kept| - 1;
      var k := HandleAll(secrets, env, l, kept[..n]);
      HandleAllFlushed(secrets, env, l, kept[..n]);
      SameRevocation(l, k);
      FewerKept(secrets, env.now, kept[..n]);
      HandledFlushed(secrets, env, k, kept[n]);
      FlushedThen(secrets, env, l, k, HandleAll(secrets, env, l, kept), kept);
    }
  }

  lemma {:induction false} FewerKept(secrets: seq<Secret>, now: nat, kept: seq<Unanswered>)
    ensures |StillKept(secrets, now, kept)| <= |kept|
  {
    if kept != [] { FewerKept(secrets, now, kept[..|kept| - 1]); }
  }

  // ─── Everything that is asked and answered when the codes change ──────────

  // The codes are gone through again for this peer, on somebody's word (`force`) or not.
  predicate AskedAll(secrets: seq<Secret>, env: Env, l: Link, force: bool) {
    && Attended(l) && (l.conn.value.trust.trusted ==> l.revokedAt.Some?) && !Running(l.ladders.failed, env.now)
    && (force || !Running(l.ladders.unanswered, env.now) || (!env.site && exists u | u in l.conn.value.talk.pending :: Held(secrets, env.now, u.codeId)))
  }

  ghost predicate ToldAll(secrets: seq<Secret>, env: Env, l: Link, force: bool, m: Link)
    requires l.conn.Some?
  {
    && m.conn.Some?
    && var t, u := l.conn.value.talk, m.conn.value.talk;
    && u.pending == (if l.revokedAt.Some? then [] else StillKept(secrets, env.now, t.pending))
    && Responses(u.out) == Responses(t.out) + Owed(secrets, env.now, t.pending)
    && Grows(secrets, env, l.conn.value, m.conn.value, AskedAll(secrets, env, l, force))
    && (AskedAll(secrets, env, l, force) ==> m.ladders == Ladders(None, None))
  }

  /** When the codes change, every challenge kept for one that is now held is answered, the
      rest stays kept, and a peer that may be challenged is asked for every code not asked
      for yet; a peer merely recognized on the LAN gets nothing. */
  lemma ToAllExact(secrets: seq<Secret>, env: Env, l: Link, force: bool)
    requires l.conn.Some? && |l.conn.value.talk.pending| <= 16
    ensures var m := SendChallengesToAll(secrets, env, l, force);
      if Attended(l) then SameStanding(l, m) && ToldAll(secrets, env, l, force, m) else m == l
  {
    hide HandleAll, SendChallenges, Flushed, Challenges, AskedBack, Grows, SameStanding;
    ToAllStanding(secrets, env, l, force);
    if Attended(l) {
      var taken := With(l, TakePending(l.conn.value));
      var k := FlushPending(secrets, env, l);
      HandleAllFlushed(secrets, env, taken, l.conn.value.talk.pending);
      ChallengesExact(secrets, env, k, force);
      if l.conn.value.trust.trusted && l.revokedAt.None? {
        ToldAfterFlush(secrets, env, l, taken, k, force);
      } else {
        ToldAfterAsking(secrets, env, l, taken, k, SendChallenges(secrets, env, k, force), force);
      }
    }
  }

  lemma ToldAfterFlush(secrets: seq<Secret>, env: Env, l: Link, taken: Link, k: Link, force: bool)
    requires Attended(l) && taken == With(l, TakePending(l.conn.value)) && l.conn.value.trust.trusted && l.revokedAt.None?
    requires Flushed(secrets, env, taken, k, l.conn.value.talk.pending, AskedBack(secrets, env, taken, l.conn.value.talk.pending))
    ensures ToldAll(secrets, env, l, force, k)
  {
    hide Responses, Owed, StillKept, SomeHeld, SomeAnswerable, Held, Others, Fresh, Running;
  }

  lemma ToldAfterAsking(secrets: seq<Secret>, env: Env, l: Link, taken: Link, k: Link, m: Link, force: bool)
    requires Attended(l) && taken == With(l, TakePending(l.conn.value)) && (l.conn.value.trust.trusted ==> l.revokedAt.Some?)
    requires Flushed(secrets, env, taken, k, l.conn.value.talk.pending, AskedBack(secrets, env, taken, l.conn.value.talk.pending))
    requires Challenges(secrets, env, k, force, m)
    ensures ToldAll(secrets, env, l, force, m)
  {
    hide Responses, Owed, StillKept, Grows, Running, Fresh, Asks;
    SameRevocation(taken, k);
    AnswerableIsHeld(secrets, env.now, l.conn.value.talk.pending);
    assert MayBeChallenged(env, k, force) <==> AskedAll(secrets, env, l, force);
    if MayBeChallenged(env, k, force) {
      AsksGrows(secrets, env, k.conn.value, m.conn.value);
      GrowsTwice(secrets, env, taken.conn.value, k.conn.value, m.conn.value, AskedBack(secrets, env, taken, l.conn.value.talk.pending), true);
    }
    GrowsFrom(secrets, env, l.conn.value, taken.conn.value, m.conn.value, AskedAll(secrets, env, l, force));
  }

  lemma AnswerableIsHeld(secrets: seq<Secret>, now: nat, kept: seq<Unanswered>)
    ensures SomeAnswerable(secrets, now, kept) ==> SomeHeld(secrets, now, kept)
  {
    hide Held;
  }

  lemma AsksGrows(secrets: seq<Secret>, env: Env, c: Conn, d: Conn)
    requires Asks(secrets, env, c, d)
    ensures Grows(secrets, env, c, d, true) && Responses(d.talk.out) == Responses(c.talk.out) && d.talk.pending == c.talk.pending
  {
    hide Fresh;
    var added := d.talk.outstanding[|c.talk.outstanding|..];
    OutSplits(c.talk.out, Questions(added));
    QuestionsAreOthers(added);
  }

  // What was kept plays no part in what is asked.
  lemma GrowsFrom(secrets: seq<Secret>, env: Env, l: Conn, c: Conn, d: Conn, asks: bool)
    requires c == TakePending(l)
    ensures Grows(secrets, env, c, d, asks) <==> Grows(secrets, env, l, d, asks)
  {
    hide ToAsk, Others;
  }

  predicate InGoodStanding(l: Link) {
    l.conn.Some? && l.conn.value.trust.trusted && l.revokedAt.None?
  }

  // A code is tried on a trusted peer by one challenge for it, unless one is awaited.
  ghost predicate Probed(c: Conn, d: Conn, code: Code) {
    && d.talk.outstanding == c.talk.outstanding + (if Asked(c.talk.outstanding, code) then [] else [Entry(Drawn(c.side, c.talk.drawn), code)])
    && d.talk.drawn == c.talk.drawn + (if Asked(c.talk.outstanding, code) then 0 else 1)
    && Others(d.talk.out) == Others(c.talk.out)
       + (if Asked(c.talk.outstanding, code) then [] else [Challenge(Some(CodeId(code)), Some(Drawn(c.side, c.talk.drawn)))])
  }

  lemma ProbeExact(l: Link, code: Code)
    requires InGoodStanding(l)
    ensures var m := Probe(l, code);
      && m == l.(conn := m.conn) && m.conn.Some? && Probed(l.conn.value, m.conn.value, code)
      && m.conn.value.talk.pending == l.conn.value.talk.pending && Responses(m.conn.value.talk.out) == Responses(l.conn.value.talk.out)
  {
    hide Asked, Others, Responses;
    var e := Entry(Drawn(l.conn.value.side, l.conn.value.talk.drawn), code);
    assert Asked(l.conn.value.talk.outstanding, code) <==> Challenged(l.conn.value.talk, code) by { AskedIsChallenged(l.conn.value.talk, code); }
    ChallengesInOrder([e]);
    OutSplits(l.conn.value.talk.out, Questions([e]));
    QuestionsAreOthers([e]);
  }

  lemma AskedIsChallenged(t: Talk, code: Code)
    ensures Asked(t.outstanding, code) <==> Challenged(t, code)
  {
  }

  /** Entering a code ends the pause and goes through the codes on the user's word; a peer
      trusted already is tried with the entered code. */
  lemma EnteredExact(secrets: seq<Secret>, env: Env, l: Link, code: Code)
    requires l.conn.Some? && |l.conn.value.talk.pending| <= 16
    ensures var m, k := Next(secrets, env, l, Entered(code)), l.(ladders := l.ladders.(unanswered := None));
      && SameStanding(l, m) && m.conn.Some?
      && (!Attended(l) ==> m == k)
      && (Attended(l) && !InGoodStanding(l) ==> ToldAll(secrets, env, k, true, m))
      && (InGoodStanding(l) ==>
            && Probed(l.conn.value, m.conn.value, code)
            && m.conn.value.talk.pending == StillKept(secrets, env.now, l.conn.value.talk.pending)
            && Responses(m.conn.value.talk.out) == Responses(l.conn.value.talk.out) + Owed(secrets, env.now, l.conn.value.talk.pending))
  {
    hide SendChallengesToAll, Probe, Held, Responses, Owed, StillKept, Others, SameStanding, Asked;
    var k := l.(ladders := l.ladders.(unanswered := None));
    ToAllExact(secrets, env, k, true);
    CodeEnteredStanding(secrets, env, l, code);
    SameRevocation(k, SendChallengesToAll(secrets, env, k, true));
    SameRevocation(l, CodeEntered(secrets, env, l, code));
    if InGoodStanding(l) {
      var b := SendChallengesToAll(secrets, env, k, true);
      ProbeExact(b, code);
      assert Questions([]) == [];
      assert b.conn.value.talk.outstanding == l.conn.value.talk.outstanding;
    }
  }

  /** Whenever the channel is ready, a peer that is recognized is greeted, and any other is
      challenged, unless it is a site session or came with a tunnel code. */
  lemma ReadyExact(secrets: seq<Secret>, env: Env, l: Link)
    requires l.conn.Some?
    ensures var m, c := Next(secrets, env, l, Ready), l.conn.value;
      if c.trust.trusted || c.trust.mode.LanMode? then
        m == (if c.handshakeSent then l else With(l, c.(handshakeSent := true, talk := c.talk.(out := c.talk.out + [Hail(env)]))))
      else if env.site || env.tunnel then m == l
      else Challenges(secrets, env, l, false, m)
  {
    hide SendChallenges, Challenges;
    ChallengesExact(secrets, env, l, false);
  }
}
