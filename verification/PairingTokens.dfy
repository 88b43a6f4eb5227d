/** Accounting for challenges.  Every nonce an engine draws is one token: a challenge in
    flight, a challenge the other side set aside, or an answer in flight.  Handlers move
    tokens and never copy them. */
module PairingTokens {
  import opened Options
  import opened Pairing
  import opened LinkInvariants
  import opened Sums

  function AskOf(e: Entry): Msg -> nat {
    (m: Msg) => if m == Challenge(Some(CodeId(e.code)), Some(e.nonce)) then 1 else 0
  }

  function ReplyOf(e: Entry): Msg -> nat {
    (m: Msg) => if m.Response? && m.answered == Some(e.nonce) && m.mac.Some? && m.mac.value.Mac? && m.mac.value.code == e.code
      then 1 else 0
  }

  function WaitOf(e: Entry): Unanswered -> nat {
    (u: Unanswered) => if u == Unanswered(CodeId(e.code), e.nonce) then 1 else 0
  }

  function OwnOf(e: Entry): Entry -> nat {
    (d: Entry) => if d == e then 1 else 0
  }

  function HelloOf(): Msg -> nat {
    (m: Msg) => if m.Handshake? then 1 else 0
  }

  function Hellos(s: seq<Msg>): nat { Sum(s, HelloOf()) }

  function Bit(b: bool): nat { if b then 1 else 0 }

  // How many tokens for `e` are challenges, answers, set aside, or awaited.
  function Asks(s: seq<Msg>, e: Entry): nat { Sum(s, AskOf(e)) }
  function Replies(s: seq<Msg>, e: Entry): nat { Sum(s, ReplyOf(e)) }
  function Waiting(p: seq<Unanswered>, e: Entry): nat { Sum(p, WaitOf(e)) }
  function Owns(o: seq<Entry>, e: Entry): nat { Sum(o, OwnOf(e)) }

  /** A message of the pairing exchange as this code writes it, by an engine that has
      held the codes in `held`. */
  predicate Honest(m: Msg, held: set<Code>) {
    match m
    case Challenge(id, nonce) => id.Some? && nonce.Some? && nonce.value.Drawn?
    case Response(nonce, mac) =>
      nonce.Some? && mac.Some? && mac.value.Mac? && mac.value.nonce == nonce.value && mac.value.code in held
    case Handshake(h) => h.identity.Some?
    case DeviceRemoved => true
    case _ => false
  }

  ghost predicate AllHonest(s: seq<Msg>, held: set<Code>) {
    forall m | m in s :: Honest(m, held)
  }

  predicate Drawnby(e: Entry, side: Side, drawn: nat) {
    e.nonce.Drawn? && e.nonce.side == side && e.nonce.serial < drawn
  }

  ghost predicate DistinctNonces(s: seq<Entry>) {
    forall i, j | 0 <= i < j < |s| :: s[i].nonce != s[j].nonce
  }

  ghost predicate TalkOk(t: Talk, side: Side, held: set<Code>) {
    && (forall e | e in t.outstanding :: Drawnby(e, side, t.drawn) && e.code in held)
    && DistinctNonces(t.outstanding)
    && (forall u | u in t.pending :: u.nonce.Drawn?)
    && AllHonest(t.out, held)
  }

  // Codes are challenged one at a time.
  ghost predicate DistinctCodes(s: seq<Entry>) {
    forall i, j | 0 <= i < j < |s| :: s[i].code != s[j].code
  }

  ghost predicate Holds(held: set<Code>, secrets: seq<Secret>) {
    DistinctSecrets(secrets) && forall s | s in secrets :: s.code in held
  }

  /** From `t` to `u`, counting tokens for one entry `e`: every nonce drawn became a
      challenge in the outbox, and each of the `got` tokens received went to the set-aside
      list or became an answer (all of them, if nothing was lost). */
  ghost predicate Moves(t: Talk, u: Talk, e: Entry, got: nat, lossless: bool) {
    && Owns(u.outstanding, e) + Asks(t.out, e) == Owns(t.outstanding, e) + Asks(u.out, e)
    && Waiting(u.pending, e) + Replies(u.out, e) <= Waiting(t.pending, e) + Replies(t.out, e) + got
    && (lossless ==> Waiting(u.pending, e) + Replies(u.out, e) == Waiting(t.pending, e) + Replies(t.out, e) + got)
    && t.drawn <= u.drawn && Asks(t.out, e) <= Asks(u.out, e)
    && (Asks(t.out, e) < Asks(u.out, e) ==> e.nonce.Drawn? && t.drawn <= e.nonce.serial < u.drawn)
  }

  // ─── Issuing ──────────────────────────────────────────────────────────────

  lemma {:induction false} ChallengesAreAsks(entries: seq<Entry>, e: Entry)
    ensures Asks(ChallengesFor(entries), e) == Owns(entries, e) && Replies(ChallengesFor(entries), e) == 0
    ensures Hellos(ChallengesFor(entries)) == 0
  {
    if entries != [] {
      var n := |entries| - 1;
      ChallengesAreAsks(entries[..n], e);
      SumSnoc(ChallengesFor(entries[..n]), ChallengeFor(entries[n]), AskOf(e));
      SumSnoc(ChallengesFor(entries[..n]), ChallengeFor(entries[n]), ReplyOf(e));
      SumSnoc(ChallengesFor(entries[..n]), ChallengeFor(entries[n]), HelloOf());
    }
  }

  lemma {:induction false} ChallengesAreHonest(entries: seq<Entry>, held: set<Code>)
    requires forall e | e in entries :: e.nonce.Drawn?
    ensures AllHonest(ChallengesFor(entries), held)
  {
    if entries != [] { ChallengesAreHonest(entries[..|entries| - 1], held); }
  }

  lemma {:induction false} MissingOk(secrets: seq<Secret>, now: nat, side: Side, t: Talk)
    ensures var entries := Missing(secrets, now, side, t);
            && |entries| <= |secrets|
            && (forall k | 0 <= k < |entries| :: entries[k].nonce == Drawn(side, t.drawn + k))
            && (forall e | e in entries :: exists s :: s in secrets && s.code == e.code)
            && (forall s | s in secrets && Live(s, now) && !Challenged(t, s.code) :: exists e :: e in entries && e.code == s.code)
  {
    if secrets != [] {
      var n := |secrets| - 1;
      var before, entries := Missing(secrets[..n], now, side, t), Missing(secrets, now, side, t);
      MissingOk(secrets[..n], now, side, t);
      forall s | s in secrets && Live(s, now) && !Challenged(t, s.code)
        ensures exists e :: e in entries && e.code == s.code
      {
        if s in secrets[..n] {
          var e :| e in before && e.code == s.code;
          assert e in entries;
        } else {
          assert entries[|entries| - 1].code == s.code;
        }
      }
    }
  }

  lemma {:induction false} MissingDistinct(secrets: seq<Secret>, now: nat, side: Side, t: Talk)
    requires DistinctSecrets(secrets)
    ensures DistinctCodes(Missing(secrets, now, side, t))
    ensures forall e | e in Missing(secrets, now, side, t) :: !Challenged(t, e.code)
  {
    if secrets != [] {
      var n := |secrets| - 1;
      MissingDistinct(secrets[..n], now, side, t);
      MissingOk(secrets[..n], now, side, t);
      forall e | e in Missing(secrets[..n], now, side, t) ensures e.code != secrets[n].code {
        var s :| s in secrets[..n] && s.code == e.code;
      }
    }
  }

  lemma DistinctAppend(a: seq<Entry>, b: seq<Entry>)
    requires DistinctCodes(a) && DistinctCodes(b) && forall d, e | d in a && e in b :: d.code != e.code
    ensures DistinctCodes(a + b)
  {
    var s := a + b;
    forall i, j | 0 <= i < j < |s| ensures s[i].code != s[j].code {
      if i < |a| <= j { assert s[i] in a && s[j] in b; }
    }
  }

  lemma IssueOk(t: Talk, entries: seq<Entry>, side: Side, held: set<Code>)
    requires TalkOk(t, side, held)
    requires forall k | 0 <= k < |entries| :: entries[k].nonce == Drawn(side, t.drawn + k)
    requires forall e | e in entries :: e.code in held
    ensures TalkOk(Issue(t, entries), side, held)
  {
    ChallengesAreHonest(entries, held);
    var u := Issue(t, entries);
    forall i, j | 0 <= i < j < |u.outstanding| ensures u.outstanding[i].nonce != u.outstanding[j].nonce {
      if i < |t.outstanding| {
        assert t.outstanding[i] in t.outstanding;
      }
    }
  }

  lemma IssueMoves(t: Talk, entries: seq<Entry>, side: Side, e: Entry)
    requires forall k | 0 <= k < |entries| :: entries[k].nonce == Drawn(side, t.drawn + k)
    ensures Moves(t, Issue(t, entries), e, 0, true)
    ensures Hellos(Issue(t, entries).out) == Hellos(t.out)
  {
    ChallengesAreAsks(entries, e);
    SumConcat(t.out, ChallengesFor(entries), HelloOf());
    if Owns(entries, e) > 0 {
      var k := SumPositive(entries, OwnOf(e));
    }
    SumConcat(t.outstanding, entries, OwnOf(e));
    SumConcat(t.out, ChallengesFor(entries), AskOf(e));
    SumConcat(t.out, ChallengesFor(entries), ReplyOf(e));
  }

  lemma SayMoves(t: Talk, m: Msg, e: Entry)
    requires !m.Challenge?
    ensures Moves(t, t.(out := t.out + [m]), e, ReplyOf(e)(m), true)
    ensures Hellos(t.out + [m]) == Hellos(t.out) + Bit(m.Handshake?)
  {
    SumSnoc(t.out, m, HelloOf());
    SumSnoc(t.out, m, AskOf(e));
    SumSnoc(t.out, m, ReplyOf(e));
  }

  // The challenge part of a connection record is in order.
  ghost predicate CardOk(c: Conn, held: set<Code>) {
    TalkOk(c.talk, c.side, held) && DistinctCodes(c.talk.outstanding)
  }

  lemma ChallengeNowOk(secrets: seq<Secret>, env: Env, c: Conn, held: set<Code>)
    requires CardOk(c, held) && Holds(held, secrets)
    ensures var d := ChallengeNow(secrets, env, c);
            && CardOk(d, held) && d.talk.pending == c.talk.pending
            && (forall s | s in secrets && Live(s, env.now) :: Challenged(d.talk, s.code))
  {
    var entries := Missing(secrets, env.now, c.side, c.talk);
    MissingOk(secrets, env.now, c.side, c.talk);
    MissingDistinct(secrets, env.now, c.side, c.talk);
    IssueOk(c.talk, entries, c.side, held);
    DistinctAppend(c.talk.outstanding, entries);
    var t := ChallengeNow(secrets, env, c).talk;
    assert t.outstanding == c.talk.outstanding + entries;
    forall s | s in secrets && Live(s, env.now) ensures Challenged(t, s.code) {
      if Challenged(c.talk, s.code) {
        var e :| e in c.talk.outstanding && e.code == s.code;
        assert e in t.outstanding;
      } else {
        var e :| e in entries && e.code == s.code;
        assert e in t.outstanding;
      }
    }
  }

  // ─── Handlers ─────────────────────────────────────────────────────────────

  ghost predicate ConnOk(l: Link, held: set<Code>) {
    l.conn.Some? && CardOk(l.conn.value, held)
  }

  /** A link and its successor over one live connection: the tokens for `e` moved, and a
      handshake went out exactly if the flag for it went up. */
  ghost predicate Turn(l: Link, m: Link, e: Entry, got: nat, lossless: bool) {
    l.conn.Some? && m.conn.Some? && ConnTurn(l.conn.value, m.conn.value, e, got, lossless)
  }

  ghost predicate ConnTurn(c: Conn, d: Conn, e: Entry, got: nat, lossless: bool) {
    && d.side == c.side && (c.trust.trusted ==> d.trust.trusted) && (c.destroyed ==> d.destroyed)
    && Moves(c.talk, d.talk, e, got, lossless)
    && Hellos(d.talk.out) + Bit(c.handshakeSent) == Hellos(c.talk.out) + Bit(d.handshakeSent)
  }

  lemma SendChallengesOk(secrets: seq<Secret>, env: Env, l: Link, force: bool, held: set<Code>)
    requires ConnOk(l, held) && Holds(held, secrets)
    ensures ConnOk(SendChallenges(secrets, env, l, force), held)
    ensures SendChallenges(secrets, env, l, force).conn.value.talk.pending == l.conn.value.talk.pending
  {
    ChallengeNowOk(secrets, env, l.conn.value, held);
  }

  lemma TurnTransitive(a: Link, b: Link, c: Link, e: Entry, got: nat, more: nat, lossless: bool)
    requires Turn(a, b, e, got, lossless) && Turn(b, c, e, more, lossless)
    ensures Turn(a, c, e, got + more, lossless)
  {
  }

  lemma ChallengeNowTurn(secrets: seq<Secret>, env: Env, c: Conn, e: Entry)
    ensures ConnTurn(c, ChallengeNow(secrets, env, c), e, 0, true)
  {
    var entries := Missing(secrets, env.now, c.side, c.talk);
    MissingOk(secrets, env.now, c.side, c.talk);
    IssueMoves(c.talk, entries, c.side, e);
    assert ConnTurn(c, c.(talk := Issue(c.talk, entries)), e, 0, true);
  }

  lemma SendChallengesTurn(secrets: seq<Secret>, env: Env, l: Link, force: bool, e: Entry)
    requires l.conn.Some?
    ensures Turn(l, SendChallenges(secrets, env, l, force), e, 0, true)
  {
    ChallengeNowTurn(secrets, env, l.conn.value, e);
  }

  lemma NoteKeepsTalk(env: Env, l: Link, usable: bool)
    requires l.conn.Some?
    ensures NoteChallenge(env, l, usable).conn.Some?
    ensures var c, d := l.conn.value, NoteChallenge(env, l, usable).conn.value;
            d == c.(trust := d.trust) && d.trust.trusted == c.trust.trusted
  {
  }

  lemma AnswerOk(secrets: seq<Secret>, env: Env, l: Link, code: Code, nonce: Nonce, held: set<Code>)
    requires ConnOk(l, held) && Holds(held, secrets) && nonce.Drawn? && code in held
    ensures ConnOk(Answer(secrets, env, l, code, nonce), held)
    ensures Answer(secrets, env, l, code, nonce).conn.value.talk.pending == l.conn.value.talk.pending
  {
    var noted := NoteChallenge(env, l, true);
    NoteKeepsTalk(env, l, true);
    var answered := With(noted, Say(noted.conn.value, Response(Some(nonce), Some(Mac(code, nonce)))));
    SendChallengesOk(secrets, env, answered, true, held);
  }

  lemma NoteTurn(env: Env, l: Link, usable: bool, e: Entry)
    requires l.conn.Some?
    ensures Turn(l, NoteChallenge(env, l, usable), e, 0, true)
  {
    NoteKeepsTalk(env, l, usable);
  }

  lemma ReplyTurn(l: Link, code: Code, nonce: Nonce, e: Entry)
    requires l.conn.Some? && nonce.Drawn?
    ensures Turn(l, With(l, Say(l.conn.value, Response(Some(nonce), Some(Mac(code, nonce))))), e, OwnOf(e)(Entry(nonce, code)), true)
  {
    SayMoves(l.conn.value.talk, Response(Some(nonce), Some(Mac(code, nonce))), e);
  }

  lemma AnswerTurn(secrets: seq<Secret>, env: Env, l: Link, code: Code, nonce: Nonce, e: Entry)
    requires l.conn.Some? && nonce.Drawn?
    ensures Turn(l, Answer(secrets, env, l, code, nonce), e, OwnOf(e)(Entry(nonce, code)), true)
  {
    var noted, got := NoteChallenge(env, l, true), OwnOf(e)(Entry(nonce, code));
    NoteTurn(env, l, true, e);
    ReplyTurn(noted, code, nonce, e);
    var answered := With(noted, Say(noted.conn.value, Response(Some(nonce), Some(Mac(code, nonce)))));
    TurnTransitive(l, noted, answered, e, 0, got, true);
    SendChallengesTurn(secrets, env, answered, true, e);
    TurnTransitive(l, answered, SendChallenges(secrets, env, answered, true), e, got, 0, true);
  }

  lemma RememberMoves(t: Talk, u: Unanswered, e: Entry)
    ensures Moves(t, Remember(t, u), e, OwnOf(e)(Entry(u.nonce, u.codeId.code)), |t.pending| < MAX_PENDING)
  {
    var grown := t.pending + [u];
    SumSnoc(t.pending, u, WaitOf(e));
    SumCons(grown, WaitOf(e));
  }

  lemma SetAsideTurn(env: Env, l: Link, u: Unanswered, e: Entry)
    requires l.conn.Some?
    ensures Turn(l, SetAside(env, l, u), e, OwnOf(e)(Entry(u.nonce, u.codeId.code)), |l.conn.value.talk.pending| < MAX_PENDING)
    ensures SetAside(env, l, u).conn.value.talk == Remember(l.conn.value.talk, u)
  {
    NoteKeepsTalk(env, l, false);
    RememberMoves(l.conn.value.talk, u, e);
  }

  // Nothing makes this link drop a challenge.
  predicate Attentive(l: Link) {
    l.conn.Some? && !LanOnly(l.conn.value) && l.revokedAt.None?
  }

  function Handled(secrets: seq<Secret>, env: Env, l: Link, u: Unanswered): Link {
    HandleChallenge(secrets, env, l, Some(u.codeId), Some(u.nonce))
  }

  lemma HandledOk(secrets: seq<Secret>, env: Env, l: Link, u: Unanswered, held: set<Code>)
    requires ConnOk(l, held) && Holds(held, secrets) && u.nonce.Drawn?
    ensures ConnOk(Handled(secrets, env, l, u), held)
    ensures var p, q := l.conn.value.talk.pending, Handled(secrets, env, l, u).conn.value.talk.pending;
            q == p || (!Usable(secrets, u.codeId, env.now) && q == Remember(l.conn.value.talk, u).pending)
  {
    if Usable(secrets, u.codeId, env.now) {
      var s :| s in secrets && CodeId(s.code) == u.codeId;
      AnswerOk(secrets, env, l, u.codeId.code, u.nonce, held);
    } else {
      NoteKeepsTalk(env, l, false);
    }
  }

  lemma Idle(l: Link, e: Entry, got: nat)
    requires l.conn.Some?
    ensures Turn(l, l, e, got, false)
  {
  }

  lemma Lossy(l: Link, m: Link, e: Entry, got: nat)
    ensures Turn(l, m, e, got, true) ==> Turn(l, m, e, got, false)
  {
  }

  lemma HandledTurn(secrets: seq<Secret>, env: Env, l: Link, u: Unanswered, e: Entry)
    requires l.conn.Some? && u.nonce.Drawn?
    ensures Turn(l, Handled(secrets, env, l, u), e, OwnOf(e)(Entry(u.nonce, u.codeId.code)),
                 Attentive(l) && (Usable(secrets, u.codeId, env.now) || |l.conn.value.talk.pending| < MAX_PENDING))
  {
    hide Answer, SetAside, Turn;
    if LanOnly(l.conn.value) || (l.revokedAt.Some? && !Usable(secrets, u.codeId, env.now)) {
      Idle(l, e, OwnOf(e)(Entry(u.nonce, u.codeId.code)));
    } else if Usable(secrets, u.codeId, env.now) {
      AnswerTurn(secrets, env, l, u.codeId.code, u.nonce, e);
      Lossy(l, Answer(secrets, env, l, u.codeId.code, u.nonce), e, OwnOf(e)(Entry(u.nonce, u.codeId.code)));
    } else {
      SetAsideTurn(env, l, u, e);
      Lossy(l, SetAside(env, l, u), e, OwnOf(e)(Entry(u.nonce, u.codeId.code)));
    }
  }

  // No set-aside challenge is for a code we hold now.
  ghost predicate NoneUsable(secrets: seq<Secret>, now: nat, p: seq<Unanswered>) {
    forall u | u in p :: !Usable(secrets, u.codeId, now)
  }

  lemma {:induction false} HandleAllOk(secrets: seq<Secret>, env: Env, l: Link, todo: seq<Unanswered>, held: set<Code>)
    requires ConnOk(l, held) && Holds(held, secrets) && forall u | u in todo :: u.nonce.Drawn?
    requires NoneUsable(secrets, env.now, l.conn.value.talk.pending)
    ensures var m := HandleAll(secrets, env, l, todo);
            && ConnOk(m, held)
            && NoneUsable(secrets, env.now, m.conn.value.talk.pending)
            && |m.conn.value.talk.pending| <= |l.conn.value.talk.pending| + |todo|
  {
    if todo != [] {
      var n := |todo| - 1;
      HandleAllOk(secrets, env, l, todo[..n], held);
      HandledOk(secrets, env, HandleAll(secrets, env, l, todo[..n]), todo[n], held);
    }
  }

  lemma {:induction false} HandleAllTurn(secrets: seq<Secret>, env: Env, l: Link, todo: seq<Unanswered>, held: set<Code>, e: Entry)
    requires ConnOk(l, held) && Holds(held, secrets) && forall u | u in todo :: u.nonce.Drawn?
    requires NoneUsable(secrets, env.now, l.conn.value.talk.pending)
    ensures Turn(l, HandleAll(secrets, env, l, todo), e, Waiting(todo, e),
                 Attentive(l) && |l.conn.value.talk.pending| + |todo| <= MAX_PENDING)
  {
    if todo != [] {
      var n := |todo| - 1;
      var before := HandleAll(secrets, env, l, todo[..n]);
      HandleAllOk(secrets, env, l, todo[..n], held);
      HandleAllTurn(secrets, env, l, todo[..n], held, e);
      HandledTurn(secrets, env, before, todo[n], e);
      HandleAllStanding(secrets, env, l, todo[..n]);
    }
  }

  lemma ToAllOk(secrets: seq<Secret>, env: Env, l: Link, force: bool, held: set<Code>)
    requires ConnOk(l, held) && Holds(held, secrets)
    ensures ConnOk(SendChallengesToAll(secrets, env, l, force), held)
    ensures var p := SendChallengesToAll(secrets, env, l, force).conn.value.talk.pending;
            |p| <= |l.conn.value.talk.pending| && (!LanOnly(l.conn.value) ==> NoneUsable(secrets, env.now, p))
  {
    if !LanOnly(l.conn.value) {
      var taken := With(l, TakePending(l.conn.value));
      HandleAllOk(secrets, env, taken, l.conn.value.talk.pending, held);
      SendChallengesOk(secrets, env, FlushPending(secrets, env, l), force, held);
    }
  }

  lemma ToAllTurn(secrets: seq<Secret>, env: Env, l: Link, force: bool, held: set<Code>, e: Entry)
    requires ConnOk(l, held) && Holds(held, secrets)
    ensures Turn(l, SendChallengesToAll(secrets, env, l, force), e, 0,
                 Attentive(l) && |l.conn.value.talk.pending| <= MAX_PENDING)
  {
    if !LanOnly(l.conn.value) {
      var taken := With(l, TakePending(l.conn.value));
      HandleAllTurn(secrets, env, taken, l.conn.value.talk.pending, held, e);
      SendChallengesTurn(secrets, env, FlushPending(secrets, env, l), force, e);
    }
  }

  lemma ProbeOk(l: Link, code: Code, held: set<Code>, e: Entry)
    requires ConnOk(l, held) && code in held
    ensures ConnOk(Probe(l, code), held) && Turn(l, Probe(l, code), e, 0, true)
    ensures Probe(l, code).conn.value.talk.pending == l.conn.value.talk.pending
  {
    var c := l.conn.value;
    var entries := [Entry(Drawn(c.side, c.talk.drawn), code)];
    IssueOk(c.talk, entries, c.side, held);
    IssueMoves(c.talk, entries, c.side, e);
    if !Challenged(c.talk, code) { DistinctAppend(c.talk.outstanding, entries); }
  }

  // An entry taken off a list of distinct codes leaves no other for its code.
  lemma NoneLeft(o: seq<Entry>, k: nat)
    requires DistinctCodes(o) && k < |o|
    ensures forall e | e in o[..k] + o[k + 1..] :: e.code != o[k].code
  {
  }

  lemma EnteredOk(secrets: seq<Secret>, env: Env, l: Link, code: Code, held: set<Code>, e: Entry)
    requires ConnOk(l, held) && Holds(held, secrets) && code in held
    ensures ConnOk(CodeEntered(secrets, env, l, code), held)
    ensures Turn(l, CodeEntered(secrets, env, l, code), e, 0, Attentive(l) && |l.conn.value.talk.pending| <= MAX_PENDING)
    ensures var p := CodeEntered(secrets, env, l, code).conn.value.talk.pending;
            |p| <= |l.conn.value.talk.pending| && (!LanOnly(l.conn.value) ==> NoneUsable(secrets, env.now, p))
  {
    var cleared := l.(ladders := l.ladders.(unanswered := None));
    ToAllOk(secrets, env, cleared, true, held);
    ToAllTurn(secrets, env, cleared, true, held, e);
    ProbeOk(SendChallengesToAll(secrets, env, cleared, true), code, held, e);
  }
}
