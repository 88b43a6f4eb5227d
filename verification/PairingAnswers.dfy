/** An engine answers only for codes it holds, unexpired, at that moment. */
module PairingAnswers {
  import opened Options
  import opened Pairing
  import opened LinkInvariants
  import opened PairingTokens
  import opened PairingSteps

  // A message answers, if it answers at all, for a code held now.
  ghost predicate Covers(secrets: seq<Secret>, now: nat, m: Msg) {
    m.Response? ==> m.mac.Some? && m.mac.value.Mac? && Usable(secrets, CodeId(m.mac.value.code), now)
  }

  // What was added to the outbox answers only for codes held now.
  ghost predicate AddsCovered(secrets: seq<Secret>, now: nat, l: Link, m: Link) {
    l.conn.Some? && m.conn.Some? && forall x | x in m.conn.value.talk.out :: x in l.conn.value.talk.out || Covers(secrets, now, x)
  }

  lemma CoveredTransitive(secrets: seq<Secret>, now: nat, a: Link, b: Link, c: Link)
    requires AddsCovered(secrets, now, a, b) && AddsCovered(secrets, now, b, c)
    ensures AddsCovered(secrets, now, a, c)
  {
  }

  lemma {:induction false} ChallengesAnswerNothing(entries: seq<Entry>)
    ensures forall m | m in ChallengesFor(entries) :: m.Challenge?
  {
    if entries != [] { ChallengesAnswerNothing(entries[..|entries| - 1]); }
  }

  lemma SendChallengesCovered(secrets: seq<Secret>, env: Env, l: Link, force: bool)
    requires l.conn.Some?
    ensures AddsCovered(secrets, env.now, l, SendChallenges(secrets, env, l, force))
  {
    ChallengesAnswerNothing(Missing(secrets, env.now, l.conn.value.side, l.conn.value.talk));
  }

  lemma AnswerCovered(secrets: seq<Secret>, env: Env, l: Link, code: Code, nonce: Nonce)
    requires l.conn.Some? && Usable(secrets, CodeId(code), env.now)
    ensures AddsCovered(secrets, env.now, l, Answer(secrets, env, l, code, nonce))
  {
    hide SendChallenges, NoteChallenge, Usable;
    NoteKeepsTalk(env, l, true);
    var noted := NoteChallenge(env, l, true);
    var answered := With(noted, Say(noted.conn.value, Response(Some(nonce), Some(Mac(code, nonce)))));
    SendChallengesCovered(secrets, env, answered, true);
    CoveredTransitive(secrets, env.now, l, answered, SendChallenges(secrets, env, answered, true));
  }

  lemma HandledCovered(secrets: seq<Secret>, env: Env, l: Link, u: Unanswered)
    requires l.conn.Some?
    ensures AddsCovered(secrets, env.now, l, Handled(secrets, env, l, u))
  {
    hide Answer, NoteChallenge, Usable;
    if Usable(secrets, u.codeId, env.now) { AnswerCovered(secrets, env, l, u.codeId.code, u.nonce); }
    NoteKeepsTalk(env, l, false);
  }

  lemma {:induction false} HandleAllCovered(secrets: seq<Secret>, env: Env, l: Link, todo: seq<Unanswered>)
    requires l.conn.Some?
    ensures AddsCovered(secrets, env.now, l, HandleAll(secrets, env, l, todo))
  {
    hide HandleChallenge;
    if todo != [] {
      var before := HandleAll(secrets, env, l, todo[..|todo| - 1]);
      HandleAllCovered(secrets, env, l, todo[..|todo| - 1]);
      HandledCovered(secrets, env, before, todo[|todo| - 1]);
      CoveredTransitive(secrets, env.now, l, before, HandleAll(secrets, env, l, todo));
    }
  }

  lemma ToAllCovered(secrets: seq<Secret>, env: Env, l: Link, force: bool)
    requires l.conn.Some?
    ensures AddsCovered(secrets, env.now, l, SendChallengesToAll(secrets, env, l, force))
  {
    hide SendChallenges, HandleAll;
    var taken := With(l, TakePending(l.conn.value));
    HandleAllCovered(secrets, env, taken, l.conn.value.talk.pending);
    SendChallengesCovered(secrets, env, FlushPending(secrets, env, l), force);
    CoveredTransitive(secrets, env.now, taken, FlushPending(secrets, env, l),
                      SendChallenges(secrets, env, FlushPending(secrets, env, l), force));
  }

  // A handshake answers nothing.
  lemma ChatCovered(secrets: seq<Secret>, now: nat, c: Conn, d: Conn)
    requires ConnChat(c, d)
    ensures forall x | x in d.talk.out :: x in c.talk.out || Covers(secrets, now, x)
  {
    if d.talk.out != c.talk.out { assert d.talk.out == c.talk.out + [d.talk.out[|d.talk.out| - 1]]; }
  }

  lemma ReadyCovered(secrets: seq<Secret>, env: Env, l: Link)
    requires l.conn.Some?
    ensures AddsCovered(secrets, env.now, l, ChannelReady(secrets, env, l))
  {
    hide SendChallenges;
    HandshakeChat(env, l.conn.value);
    ChatCovered(secrets, env.now, l.conn.value, SendHandshake(env, l.conn.value));
    SendChallengesCovered(secrets, env, l, false);
  }

  lemma AcceptCovered(secrets: seq<Secret>, env: Env, l: Link, i: nat, code: Code)
    requires l.conn.Some? && i < |l.conn.value.talk.outstanding|
    ensures AddsCovered(secrets, env.now, l, Accept(secrets, env, Forgotten(l, i), code))
  {
    hide Accept;
    AcceptStep(secrets, env, Forgotten(l, i), code);
    ChatCovered(secrets, env.now, Forgotten(l, i).conn.value, Accept(secrets, env, Forgotten(l, i), code).conn.value);
  }
}
