/** The exchange dies out: a measure over both engines and the wire that every delivery
    lowers.  Without its user an engine raises it in one way only: by driving a connection
    that is still trusted although its key is revoked, and then only while it holds a live
    code that the other side can answer for. */
module PairingTermination {
  import opened Collections
  import opened Options
  import opened Pairing
  import opened Sums
  import opened LinkInvariants
  import opened PairingTokens
  import opened PairingSteps
  import opened PairingWorld
  import opened PairingAnswers

  function WeightOf(): Msg -> nat {
    (m: Msg) => if m.Challenge? then 2 else 1
  }

  function Weight(s: seq<Msg>): nat { Sum(s, WeightOf()) }

  // ─── What a connection may still say ──────────────────────────────────────

  /** What decides whether a code can be challenged again: the time, the codes the other
      side can answer for, and the codes of the answers on their way. */
  datatype Outlook = Outlook(now: nat, shared: set<Code>, answered: set<Code>)

  function Answerable(secrets: seq<Secret>, now: nat): set<Code> {
    set s | s in secrets && Live(s, now) :: s.code
  }

  predicate Names(m: Msg) {
    m.Response? && m.mac.Some? && m.mac.value.Mac?
  }

  function Answered(s: seq<Msg>): set<Code> {
    set m | m in s && Names(m) :: m.mac.value.code
  }

  /** Twice the challenges that may still go out for one code.  Accepting an answer forgets
      its challenge, so a code that was challenged may be challenged again if an answer for
      it is on its way or can still come. */
  function OwedFor(c: Conn, o: Outlook): Secret -> nat {
    (s: Secret) =>
      var open := Bit(!Challenged(c.talk, s.code));
      if !Live(s, o.now) then 0
      else if c.destroyed then 2 * open
      else if s.code !in o.shared then 2 * Bit(!Challenged(c.talk, s.code) || s.code in o.answered)
      else if c.trust.trusted then 2
      else 2 * open + 2
  }

  function Owed(secrets: seq<Secret>, c: Conn, o: Outlook): nat { Sum(secrets, OwedFor(c, o)) }

  /** What a connection may still say without a user: challenges, answers to set-aside
      challenges, a handshake. */
  function Potential(secrets: seq<Secret>, c: Conn, o: Outlook): nat {
    Owed(secrets, c, o) + |c.talk.pending| + Bit(!c.handshakeSent)
  }

  function Cost(secrets: seq<Secret>, c: Conn, o: Outlook): nat {
    Weight(c.talk.out) + Potential(secrets, c, o)
  }

  function OutlookOf(w: World): Outlook {
    Outlook(w.now, Answerable(w.y.secrets, w.now), Answered(w.yx))
  }

  function SideMeasure(w: World): nat
    requires w.x.link.conn.Some?
  {
    Weight(w.yx) + Potential(w.x.secrets, w.x.link.conn.value, OutlookOf(w))
  }

  function Measure(w: World): nat
    requires w.x.link.conn.Some? && w.y.link.conn.Some?
  {
    SideMeasure(w) + SideMeasure(Flip(w))
  }

  // Whether the other side can answer for a live secret.
  function SharedOf(o: Outlook): Secret -> nat {
    (s: Secret) => if Live(s, o.now) && s.code in o.shared then 1 else 0
  }

  /** How many live secrets of this side the other side can answer for. */
  function SharedCount(w: World): nat { Sum(w.x.secrets, SharedOf(OutlookOf(w))) }

  // ─── Sums ─────────────────────────────────────────────────────────────────

  lemma {:induction false} SumBelow<T>(s: seq<T>, f: T -> nat, g: T -> nat)
    requires forall x | x in s :: f(x) <= g(x)
    ensures Sum(s, f) <= Sum(s, g)
  {
    if s != [] { SumBelow(s[..|s| - 1], f, g); }
  }

  // Fewer secrets sum to less.
  lemma {:induction false} FewerSum(fewer: seq<Secret>, secrets: seq<Secret>, f: Secret -> nat)
    requires DistinctSecrets(fewer) && forall s | s in fewer :: s in secrets
    ensures Sum(fewer, f) <= Sum(secrets, f)
  {
    if fewer != [] {
      var init, last := fewer[..|fewer| - 1], fewer[|fewer| - 1];
      assert last in fewer;
      var i :| 0 <= i < |secrets| && secrets[i] == last;
      var rest := Drop(secrets, i);
      forall s | s in init ensures s in rest {
        var k :| 0 <= k < |init| && init[k] == s;
        assert fewer[k].code != last.code && s in fewer;
        DropAt(secrets, i, s);
      }
      FewerSum(init, rest, f);
      SumDrop(secrets, i, f);
    }
  }

  // Later, with fewer codes to answer for and no new answers under way, less is owed.
  ghost predicate Dimmer(o: Outlook, p: Outlook) {
    o.now <= p.now && p.shared <= o.shared && forall k | k in p.answered :: k in o.answered || k in p.shared
  }

  lemma DimmerOwes(secrets: seq<Secret>, c: Conn, o: Outlook, p: Outlook)
    requires Dimmer(o, p)
    ensures Potential(secrets, c, p) <= Potential(secrets, c, o)
  {
    SumBelow(secrets, OwedFor(c, p), OwedFor(c, o));
  }

  lemma FewerOwes(fewer: seq<Secret>, secrets: seq<Secret>, c: Conn, o: Outlook)
    requires DistinctSecrets(fewer) && forall s | s in fewer :: s in secrets
    ensures Potential(fewer, c, o) <= Potential(secrets, c, o)
  {
    FewerSum(fewer, secrets, OwedFor(c, o));
  }

  // ─── Challenging ──────────────────────────────────────────────────────────

  lemma {:induction false} ChallengesWeigh(entries: seq<Entry>)
    ensures Weight(ChallengesFor(entries)) == 2 * |entries|
  {
    if entries != [] {
      var n := |entries| - 1;
      ChallengesWeigh(entries[..n]);
      SumSnoc(ChallengesFor(entries[..n]), ChallengeFor(entries[n]), WeightOf());
    }
  }

  // A code whose answer is under way has its challenge outstanding.
  ghost predicate Backed(o: Outlook, t: Talk) {
    forall k | k in o.answered :: Challenged(t, k)
  }

  ghost predicate StaysChallenged(t: Talk, u: Talk) {
    forall k :: Challenged(t, k) ==> Challenged(u, k)
  }

  // What challenging costs beyond what was owed.
  function Surplus(secrets: seq<Secret>, c: Conn, o: Outlook): nat {
    if c.trust.trusted && !c.destroyed then 2 * Sum(secrets, SharedOf(o)) else 0
  }

  lemma {:induction false} IssueOwes(secrets: seq<Secret>, c: Conn, d: Conn, o: Outlook)
    requires Backed(o, c.talk) && StaysChallenged(c.talk, d.talk) && d.trust.trusted == c.trust.trusted && d.destroyed == c.destroyed
    requires forall e | e in Missing(secrets, o.now, c.side, c.talk) :: Challenged(d.talk, e.code)
    ensures Owed(secrets, d, o) + 2 * |Missing(secrets, o.now, c.side, c.talk)| <= Owed(secrets, c, o) + Surplus(secrets, c, o)
  {
    if secrets != [] {
      var n := |secrets| - 1;
      var before, m := Missing(secrets[..n], o.now, c.side, c.talk), Missing(secrets, o.now, c.side, c.talk);
      assert forall e | e in before :: e in m;
      IssueOwes(secrets[..n], c, d, o);
      if |m| > |before| {
        assert m[|m| - 1] in m;
      }
    }
  }

  lemma IssueStays(t: Talk, entries: seq<Entry>)
    ensures StaysChallenged(t, Issue(t, entries)) && forall e | e in entries :: Challenged(Issue(t, entries), e.code)
  {
    var u := Issue(t, entries);
    forall k | Challenged(t, k) ensures Challenged(u, k) {
      var e :| e in t.outstanding && e.code == k;
      assert e in u.outstanding;
    }
    forall e | e in entries ensures Challenged(u, e.code) { assert e in u.outstanding; }
  }

  // One link costs at most `extra` more than another, and stands as it did.
  ghost predicate NoDearer(secrets: seq<Secret>, o: Outlook, l: Link, m: Link, extra: nat) {
    && l.conn.Some? && m.conn.Some?
    && Cost(secrets, m.conn.value, o) <= Cost(secrets, l.conn.value, o) + extra
    && m.conn.value.trust.trusted == l.conn.value.trust.trusted && m.conn.value.destroyed == l.conn.value.destroyed
    && m.revokedAt == l.revokedAt && StaysChallenged(l.conn.value.talk, m.conn.value.talk)
  }

  lemma NoDearerTransitive(secrets: seq<Secret>, o: Outlook, a: Link, b: Link, c: Link, extra: nat, more: nat)
    requires NoDearer(secrets, o, a, b, extra) && NoDearer(secrets, o, b, c, more)
    ensures NoDearer(secrets, o, a, c, extra + more)
  {
  }

  lemma ChallengeNowCost(secrets: seq<Secret>, env: Env, l: Link, o: Outlook)
    requires l.conn.Some? && o.now == env.now && Backed(o, l.conn.value.talk)
    ensures NoDearer(secrets, o, l, With(l, ChallengeNow(secrets, env, l.conn.value)), Surplus(secrets, l.conn.value, o))
  {
    var c := l.conn.value;
    var entries := Missing(secrets, env.now, c.side, c.talk);
    IssueStays(c.talk, entries);
    IssueOwes(secrets, c, ChallengeNow(secrets, env, c), o);
    ChallengesWeigh(entries);
    SumConcat(c.talk.out, ChallengesFor(entries), WeightOf());
  }

  /** Still trusted and open although its key is revoked: a removed device, until its
      connection is closed. */
  predicate Removed(l: Link) {
    l.conn.Some? && l.conn.value.trust.trusted && !l.conn.value.destroyed && l.revokedAt.Some?
  }

  function LinkSurplus(secrets: seq<Secret>, l: Link, o: Outlook): nat {
    if Removed(l) then Surplus(secrets, l.conn.value, o) else 0
  }

  // Only what `Owed` reads of a connection: its standing and its outstanding list.
  lemma SameOwed(secrets: seq<Secret>, o: Outlook, l: Link, m: Link, extra: nat)
    requires l.conn.Some? && m.conn.Some? && m.revokedAt == l.revokedAt
    requires var c, d := l.conn.value, m.conn.value;
      && d.talk.outstanding == c.talk.outstanding && d.trust.trusted == c.trust.trusted && d.destroyed == c.destroyed
      && Weight(d.talk.out) + |d.talk.pending| + Bit(!d.handshakeSent) <= Weight(c.talk.out) + |c.talk.pending| + Bit(!c.handshakeSent) + extra
    ensures NoDearer(secrets, o, l, m, extra)
  {
    SumBelow(secrets, OwedFor(m.conn.value, o), OwedFor(l.conn.value, o));
  }

  lemma SendChallengesCost(secrets: seq<Secret>, env: Env, l: Link, force: bool, o: Outlook)
    requires l.conn.Some? && o.now == env.now && Backed(o, l.conn.value.talk)
    ensures NoDearer(secrets, o, l, SendChallenges(secrets, env, l, force), LinkSurplus(secrets, l, o))
  {
    hide ChallengeNow, Cost, Surplus;
    ChallengeNowCost(secrets, env, l, o);
    SendChallengesStanding(secrets, env, l, force);
    SurplusOfUntrusted(secrets, l.conn.value, o);
  }

  lemma SurplusOfUntrusted(secrets: seq<Secret>, c: Conn, o: Outlook)
    ensures !c.trust.trusted || c.destroyed ==> Surplus(secrets, c, o) == 0
  {
  }

  lemma NoteCost(secrets: seq<Secret>, env: Env, l: Link, usable: bool, o: Outlook)
    requires l.conn.Some?
    ensures NoDearer(secrets, o, l, NoteChallenge(env, l, usable), 0)
  {
    NoteKeepsTalk(env, l, usable);
    NoteStanding(env, l, usable);
    hide NoteChallenge;
    SameOwed(secrets, o, l, NoteChallenge(env, l, usable), 0);
  }

  lemma BackedStays(o: Outlook, t: Talk, u: Talk)
    requires Backed(o, t) && StaysChallenged(t, u)
    ensures Backed(o, u)
  {
  }

  lemma AnswerCost(secrets: seq<Secret>, env: Env, l: Link, code: Code, nonce: Nonce, o: Outlook)
    requires l.conn.Some? && o.now == env.now && Backed(o, l.conn.value.talk)
    ensures NoDearer(secrets, o, l, Answer(secrets, env, l, code, nonce), 1)
  {
    hide NoteChallenge, SendChallenges, NoDearer, Backed;
    var noted := NoteChallenge(env, l, true);
    NoteKeepsTalk(env, l, true);
    NoteStanding(env, l, true);
    NoteCost(secrets, env, l, true, o);
    var reply := Response(Some(nonce), Some(Mac(code, nonce)));
    SumSnoc(noted.conn.value.talk.out, reply, WeightOf());
    var answered := With(noted, Say(noted.conn.value, reply));
    SameOwed(secrets, o, noted, answered, 1);
    NoDearerTransitive(secrets, o, l, noted, answered, 0, 1);
    NoDearerStands(secrets, o, l, noted, 0);
    NoDearerStands(secrets, o, l, answered, 1);
    NoDearerStands(secrets, o, l, noted, 1);
    if !l.conn.value.trust.trusted {
      BackedStays(o, l.conn.value.talk, answered.conn.value.talk);
      SendChallengesCost(secrets, env, answered, true, o);
      NoDearerTransitive(secrets, o, l, answered, SendChallenges(secrets, env, answered, true), 1, 0);
    }
  }

  // Costing less allows for more.
  lemma NoDearerStands(secrets: seq<Secret>, o: Outlook, l: Link, m: Link, extra: nat)
    ensures NoDearer(secrets, o, l, m, 0) ==> NoDearer(secrets, o, l, m, extra)
    ensures NoDearer(secrets, o, l, m, extra) ==>
      && l.conn.Some? && m.conn.Some? && StaysChallenged(l.conn.value.talk, m.conn.value.talk) && m.revokedAt == l.revokedAt
      && m.conn.value.trust.trusted == l.conn.value.trust.trusted && m.conn.value.destroyed == l.conn.value.destroyed
  {
  }

  lemma SetAsideCost(secrets: seq<Secret>, env: Env, l: Link, u: Unanswered, o: Outlook)
    requires l.conn.Some?
    ensures NoDearer(secrets, o, l, SetAside(env, l, u), 1)
  {
    hide NoteChallenge;
    NoteKeepsTalk(env, l, false);
    NoteStanding(env, l, false);
    SameOwed(secrets, o, l, SetAside(env, l, u), 1);
  }

  lemma HandledCost(secrets: seq<Secret>, env: Env, l: Link, u: Unanswered, o: Outlook)
    requires l.conn.Some? && o.now == env.now && Backed(o, l.conn.value.talk)
    ensures NoDearer(secrets, o, l, Handled(secrets, env, l, u), 1)
  {
    hide Answer, SetAside, Cost;
    if LanOnly(l.conn.value) || (l.revokedAt.Some? && !Usable(secrets, u.codeId, env.now)) {
      assert Handled(secrets, env, l, u) == l;
    } else if Usable(secrets, u.codeId, env.now) {
      AnswerCost(secrets, env, l, u.codeId.code, u.nonce, o);
    } else {
      SetAsideCost(secrets, env, l, u, o);
      assert Handled(secrets, env, l, u) == SetAside(env, l, u);
    }
  }

  lemma {:induction false} HandleAllCost(secrets: seq<Secret>, env: Env, l: Link, todo: seq<Unanswered>, o: Outlook)
    requires l.conn.Some? && o.now == env.now && Backed(o, l.conn.value.talk)
    ensures NoDearer(secrets, o, l, HandleAll(secrets, env, l, todo), |todo|)
  {
    if todo != [] {
      var before := HandleAll(secrets, env, l, todo[..|todo| - 1]);
      HandleAllCost(secrets, env, l, todo[..|todo| - 1], o);
      BackedStays(o, l.conn.value.talk, before.conn.value.talk);
      HandledCost(secrets, env, before, todo[|todo| - 1], o);
      NoDearerTransitive(secrets, o, l, before, HandleAll(secrets, env, l, todo), |todo| - 1, 1);
    }
  }

  lemma DriveCost(secrets: seq<Secret>, env: Env, l: Link, force: bool, o: Outlook)
    requires l.conn.Some? && o.now == env.now && Backed(o, l.conn.value.talk)
    ensures NoDearer(secrets, o, l, SendChallengesToAll(secrets, env, l, force), LinkSurplus(secrets, l, o))
  {
    hide HandleAll, SendChallenges;
    if !LanOnly(l.conn.value) {
      var taken, p := With(l, TakePending(l.conn.value)), |l.conn.value.talk.pending|;
      var flushed := FlushPending(secrets, env, l);
      SumBelow(secrets, OwedFor(taken.conn.value, o), OwedFor(l.conn.value, o));
      assert Backed(o, taken.conn.value.talk);
      HandleAllCost(secrets, env, taken, l.conn.value.talk.pending, o);
      assert NoDearer(secrets, o, l, flushed, 0);
      BackedStays(o, l.conn.value.talk, flushed.conn.value.talk);
      SendChallengesCost(secrets, env, flushed, force, o);
      NoDearerTransitive(secrets, o, l, flushed, SendChallenges(secrets, env, flushed, force), 0, LinkSurplus(secrets, l, o));
    }
  }

  // ─── Talking ──────────────────────────────────────────────────────────────

  lemma ChatWeight(c: Conn, d: Conn)
    requires Spoke(c, d)
    ensures Weight(d.talk.out) + Bit(!d.handshakeSent) <= Weight(c.talk.out) + Bit(!c.handshakeSent)
  {
    if d.talk.out != c.talk.out {
      assert d.talk.out == c.talk.out + [d.talk.out[|d.talk.out| - 1]];
      SumSnoc(c.talk.out, d.talk.out[|d.talk.out| - 1], WeightOf());
    }
  }

  lemma ChatCost(secrets: seq<Secret>, c: Conn, d: Conn, o: Outlook)
    requires ConnChat(c, d)
    ensures Cost(secrets, d, o) <= Cost(secrets, c, o)
  {
    ChatWeight(c, d);
    SumBelow(secrets, OwedFor(d, o), OwedFor(c, o));
  }

  // Accepting an answer reopens its code, which what was owed allows for.
  lemma AcceptedCost(secrets: seq<Secret>, c: Conn, i: nat, d: Conn, o: Outlook, p: Outlook)
    requires i < |c.talk.outstanding| && ConnChat(c.(talk := Forget(c.talk, i)), d) && (d.trust.trusted || d.destroyed)
    requires !c.destroyed && c.talk.outstanding[i].code in o.answered
    requires p.now == o.now && p.shared == o.shared && p.answered <= o.answered
    ensures Cost(secrets, d, p) <= Cost(secrets, c, o)
  {
    ChatWeight(c.(talk := Forget(c.talk, i)), d);
    ForgottenOthers(c.talk, i);
    SumBelow(secrets, OwedFor(d, p), OwedFor(c, o));
  }

  lemma ForgottenOthers(t: Talk, i: nat)
    requires i < |t.outstanding|
    ensures forall k | k != t.outstanding[i].code :: Challenged(t, k) ==> Challenged(Forget(t, i), k)
  {
    forall k | k != t.outstanding[i].code && Challenged(t, k) ensures Challenged(Forget(t, i), k) {
      var e :| e in t.outstanding && e.code == k;
      DropAt(t.outstanding, i, e);
    }
  }

  // ─── The measure ──────────────────────────────────────────────────────────

  // The outlook of the side that moved, over what is left on its way to it.
  function Ahead(w: World, yx: seq<Msg>): Outlook {
    Outlook(w.now, Answerable(w.y.secrets, w.now), Answered(yx))
  }

  ghost predicate OutboxCovered(secrets: seq<Secret>, now: nat, l: Link) {
    l.conn.Some? && forall m | m in l.conn.value.talk.out :: Covers(secrets, now, m)
  }

  // The other side's outlook only dims: it is sent answers for codes this side holds.
  lemma OtherDims(w: World, secrets: seq<Secret>, l: Link, ready: bool, yx: seq<Msg>)
    requires OutboxCovered(secrets, w.now, l) && forall s | s in secrets :: s in w.x.secrets
    ensures Dimmer(OutlookOf(Flip(w)), OutlookOf(Flip(Advance(w, secrets, l, ready, yx))))
  {
    var p := OutlookOf(Flip(Advance(w, secrets, l, ready, yx)));
    forall k | k in p.answered ensures k in Answered(w.xy) || k in p.shared {
      var m :| m in w.xy + Outbox(l) && Names(m) && m.mac.value.code == k;
      if m !in w.xy { assert m in l.conn.value.talk.out && Covers(secrets, w.now, m); }
    }
  }

  lemma MeasureAfter(w: World, secrets: seq<Secret>, l: Link, ready: bool, yx: seq<Msg>)
    requires w.x.link.conn.Some? && w.y.link.conn.Some? && OutboxCovered(secrets, w.now, l)
    requires forall s | s in secrets :: s in w.x.secrets
    ensures var w' := Advance(w, secrets, l, ready, yx);
      Measure(w') <= Weight(w.xy) + Weight(yx) + Cost(secrets, l.conn.value, Ahead(w, yx))
                     + Potential(w.y.secrets, w.y.link.conn.value, OutlookOf(Flip(w)))
  {
    var w' := Advance(w, secrets, l, ready, yx);
    SumConcat(w.xy, Outbox(l), WeightOf());
    OtherDims(w, secrets, l, ready, yx);
    DimmerOwes(w.y.secrets, w.y.link.conn.value, OutlookOf(Flip(w)), OutlookOf(Flip(w')));
    EmptiedOwes(secrets, l.conn.value, Ahead(w, yx));
  }

  lemma EmptiedOwes(secrets: seq<Secret>, c: Conn, o: Outlook)
    ensures Potential(secrets, Emptied(c), o) <= Potential(secrets, c, o)
  {
    SumBelow(secrets, OwedFor(Emptied(c), o), OwedFor(c, o));
  }

  // Every answer in flight is for an outstanding challenge.
  lemma InFlightIsBacked(w: World, side: Side)
    requires Inv(w, side) && w.x.link.conn.Some?
    ensures Backed(OutlookOf(w), w.x.link.conn.value.talk)
  {
    forall k | k in Answered(w.yx) ensures Challenged(w.x.link.conn.value.talk, k) {
      var m :| m in w.yx && Names(m) && m.mac.value.code == k;
      var i :| 0 <= i < |w.yx| && w.yx[i] == m;
      AnswerMatches(w, side, i);
    }
  }

  lemma FewerInFlight(w: World, i: nat)
    requires i < |w.yx|
    ensures Answered(Drop(w.yx, i)) <= Answered(w.yx) && Dimmer(OutlookOf(w), Ahead(w, Drop(w.yx, i)))
  {
    forall k | k in Answered(Drop(w.yx, i)) ensures k in Answered(w.yx) {
      var m :| m in Drop(w.yx, i) && Names(m) && m.mac.value.code == k;
      assert m in w.yx;
    }
  }

  // x's link after the message at i costs less than before, the message included.
  ghost predicate Cheaper(w: World, l: Link, i: nat)
    requires i < |w.yx|
  {
    && w.x.link.conn.Some? && OutboxCovered(w.x.secrets, w.now, l)
    && Cost(w.x.secrets, l.conn.value, Ahead(w, Drop(w.yx, i))) < Cost(w.x.secrets, w.x.link.conn.value, OutlookOf(w)) + WeightOf()(w.yx[i])
  }

  // A message that only costs what the link costs afterwards.
  lemma PlainCheaper(w: World, l: Link, i: nat, extra: nat)
    requires i < |w.yx| && w.x.link.conn.Some? && OutboxCovered(w.x.secrets, w.now, l) && extra < WeightOf()(w.yx[i])
    requires Cost(w.x.secrets, l.conn.value, OutlookOf(w)) <= Cost(w.x.secrets, w.x.link.conn.value, OutlookOf(w)) + extra
    ensures Cheaper(w, l, i)
  {
    FewerInFlight(w, i);
    DimmerOwes(w.x.secrets, l.conn.value, OutlookOf(w), Ahead(w, Drop(w.yx, i)));
  }

  lemma AnswerCheaper(w: World, side: Side, env: Env, i: nat)
    requires Inv(w, side) && w.x.link.conn.Some? && !w.x.link.conn.value.destroyed && i < |w.yx| && w.yx[i].Response?
    requires Listens(w.x.link)
    ensures Cheaper(w, Next(w.x.secrets, env, w.x.link, Receive(w.yx[i])), i)
  {
    hide Accept, Cost, OutlookOf, Ahead;
    AnswerMatches(w, side, i);
    var e, l := Subject(w.yx[i]), w.x.link;
    var k := IndexOf(l.conn.value.talk.outstanding, e.nonce);
    ResponseStep(w.x.secrets, env, l, e, w.x.held);
    AcceptStep(w.x.secrets, env, Forgotten(l, k), e.code);
    AcceptCovered(w.x.secrets, env.(now := w.now), l, k, e.code);
    var m := Accept(w.x.secrets, env, Forgotten(l, k), e.code);
    ChatCovered(w.x.secrets, w.now, Forgotten(l, k).conn.value, m.conn.value);
    SubjectAnswered(w, i, e.code);
    FewerInFlight(w, i);
    SameAhead(w, i);
    AcceptedCost(w.x.secrets, l.conn.value, k, m.conn.value, OutlookOf(w), Ahead(w, Drop(w.yx, i)));
  }

  lemma SubjectAnswered(w: World, i: nat, code: Code)
    requires i < |w.yx| && Names(w.yx[i]) && w.yx[i].mac.value.code == code
    ensures code in OutlookOf(w).answered
  {
    assert w.yx[i] in w.yx;
  }

  lemma SameAhead(w: World, i: nat)
    requires i < |w.yx| && Answered(Drop(w.yx, i)) <= Answered(w.yx)
    ensures var o, p := OutlookOf(w), Ahead(w, Drop(w.yx, i));
      p.now == o.now && p.shared == o.shared && p.answered <= o.answered
  {
  }

  lemma ChallengeCheaper(w: World, side: Side, env: Env, i: nat)
    requires Inv(w, side) && w.x.link.conn.Some? && !w.x.link.conn.value.destroyed && i < |w.yx| && w.yx[i].Challenge?
    requires env.now == w.now
    ensures Cheaper(w, Next(w.x.secrets, env, w.x.link, Receive(w.yx[i])), i)
  {
    assert Honest(w.yx[i], w.y.held);
    var u := Unanswered(w.yx[i].codeId.value, w.yx[i].nonce.value);
    InFlightIsBacked(w, side);
    HandledCost(w.x.secrets, env, w.x.link, u, OutlookOf(w));
    HandledCovered(w.x.secrets, env, w.x.link, u);
    assert w.x.link.conn.value.talk.out == [];
    hide HandleChallenge, Cost, OutlookOf;
    PlainCheaper(w, Handled(w.x.secrets, env, w.x.link, u), i, 1);
  }

  lemma NoticeCheaper(w: World, side: Side, env: Env, i: nat)
    requires Inv(w, side) && w.x.link.conn.Some? && !w.x.link.conn.value.destroyed && i < |w.yx|
    requires !w.yx[i].Challenge? && !w.yx[i].Response?
    ensures Cheaper(w, Next(w.x.secrets, env, w.x.link, Receive(w.yx[i])), i)
  {
    assert Honest(w.yx[i], w.y.held);
    var l := HandlePeerMessage(w.x.secrets, env, w.x.link, w.yx[i]);
    NoticeStep(w.x.secrets, env, w.x.link, w.yx[i]);
    hide HandlePeerMessage;
    ChatCost(w.x.secrets, w.x.link.conn.value, l.conn.value, OutlookOf(w));
    ChatCovered(w.x.secrets, w.now, w.x.link.conn.value, l.conn.value);
    assert w.x.link.conn.value.talk.out == [];
    PlainCheaper(w, l, i, 0);
  }

  lemma MessageCheaper(w: World, side: Side, env: Env, i: nat)
    requires Inv(w, side) && w.x.link.conn.Some? && i < |w.yx| && env.now == w.now
    ensures Cheaper(w, Next(w.x.secrets, env, w.x.link, Receive(w.yx[i])), i)
  {
    if !w.x.link.conn.value.destroyed && w.yx[i].Challenge? {
      ChallengeCheaper(w, side, env, i);
    } else if !w.x.link.conn.value.destroyed && !w.yx[i].Response? {
      NoticeCheaper(w, side, env, i);
    } else if !w.x.link.conn.value.destroyed && Listens(w.x.link) {
      AnswerCheaper(w, side, env, i);
    } else {
      assert w.x.link.conn.value.talk.out == [];
      PlainCheaper(w, w.x.link, i, 0);
    }
  }

  /** Every delivery, to either side and in any state, lowers the measure. */
  lemma DeliveryDecreases(w: World, side: Side, env: Env, i: nat)
    requires Inv(w, side) && w.x.link.conn.Some? && i < |w.yx| && env.now == w.now
    ensures Deliver(w, env, i).x.link.conn.Some? && Measure(Deliver(w, env, i)) < Measure(w)
  {
    var l := Next(w.x.secrets, env, w.x.link, Receive(w.yx[i]));
    hide Next, OutlookOf, Ahead;
    MessageCheaper(w, side, env, i);
    SumDrop(w.yx, i, WeightOf());
    MeasureAfter(w, w.x.secrets, l, w.x.ready, Drop(w.yx, i));
    assert w.x.link.conn.value.talk.out == [];
  }

  // What an engine does without its user.  Codes may be dropped at any time.
  ghost predicate Unprompted(w: World, input: Input, secrets: seq<Secret>) {
    && (Chatty(input) || input.Ready? || input.Drive?)
    && forall s | s in secrets :: s in w.x.secrets
  }

  /** What one turn of the pairing loop may add: two for each live secret of a removed
      device's connection that the other side can answer for. */
  function Charge(w: World, input: Input): nat {
    if input.Drive? && Removed(w.x.link) then 2 * SharedCount(w) else 0
  }

  lemma UnpromptedCost(w: World, side: Side, env: Env, input: Input, secrets: seq<Secret>)
    requires Inv(w, side) && w.x.link.conn.Some? && Unprompted(w, input, secrets) && env.now == w.now
    ensures var l, m := w.x.link, Next(secrets, env, w.x.link, input);
      && OutboxCovered(secrets, w.now, m)
      && Cost(secrets, m.conn.value, OutlookOf(w)) <=
         Cost(secrets, l.conn.value, OutlookOf(w)) + if input.Drive? then LinkSurplus(secrets, l, OutlookOf(w)) else 0
  {
    hide SendChallengesToAll, ChannelReady, Cost, OutlookOf;
    var l, o := w.x.link, OutlookOf(w);
    InFlightIsBacked(w, side);
    NowOfOutlook(w);
    assert l.conn.value.talk.out == [];
    if input.Ready? {
      ReadyCost(secrets, env, l, o);
      ReadyCovered(secrets, env, l);
    } else if input.Drive? {
      DriveCost(secrets, env, l, true, o);
      ToAllCovered(secrets, env, l, true);
    } else {
      ChattyStep(secrets, env, l, input);
      hide Next;
      ChatCost(secrets, l.conn.value, Next(secrets, env, l, input).conn.value, o);
      ChatCovered(secrets, w.now, l.conn.value, Next(secrets, env, l, input).conn.value);
    }
  }

  lemma NowOfOutlook(w: World)
    ensures OutlookOf(w).now == w.now && Ahead(w, w.yx) == OutlookOf(w)
  {
  }

  /** Steps without a user never raise the measure, whether the peer is trusted, revoked,
      being disconnected or none of these; only driving a removed device's connection does,
      by at most two for each live secret the other side can answer for. */
  lemma UnpromptedNeverRaises(w: World, side: Side, env: Env, input: Input, secrets: seq<Secret>)
    requires Inv(w, side) && w.x.link.conn.Some? && Unprompted(w, input, secrets) && DistinctSecrets(secrets) && env.now == w.now
    ensures var w' := Act(w, env, input, secrets);
      && w'.x.link.conn.Some? && Measure(w') <= Measure(w) + Charge(w, input)
  {
    var l, m, o := w.x.link, Next(secrets, env, w.x.link, input), OutlookOf(w);
    hide Next, OutlookOf, Ahead;
    UnpromptedCost(w, side, env, input, secrets);
    FewerOwes(secrets, w.x.secrets, l.conn.value, o);
    FewerSum(secrets, w.x.secrets, SharedOf(o));
    NowOfOutlook(w);
    MeasureAfter(w, secrets, m, w.x.ready || input.Ready?, w.yx);
    assert l.conn.value.talk.out == [];
  }

  lemma ReadyCost(secrets: seq<Secret>, env: Env, l: Link, o: Outlook)
    requires l.conn.Some? && o.now == env.now && Backed(o, l.conn.value.talk)
    ensures var m := ChannelReady(secrets, env, l);
            m.conn.Some? && Cost(secrets, m.conn.value, o) <= Cost(secrets, l.conn.value, o)
  {
    hide SendChallenges, Cost;
    HandshakeChat(env, l.conn.value);
    ChatCost(secrets, l.conn.value, SendHandshake(env, l.conn.value), o);
    SendChallengesCost(secrets, env, l, false, o);
  }

  // ─── Runs ─────────────────────────────────────────────────────────────────

  ghost predicate LeftAlone(w: World, m: Move) {
    match m
    case Acts(side, env, input, secrets) => Unprompted(At(w, side), input, secrets)
    case Delivers(side, env, i) => i < |At(w, side).yx|
    case Ticks(now) => true
    case _ => false
  }

  ghost predicate AllLeftAlone(start: World, moves: seq<Move>) {
    moves == [] ||
    (AllLeftAlone(start, moves[..|moves| - 1]) && LeftAlone(Run(start, moves[..|moves| - 1]), moves[|moves| - 1]))
  }

  function MoveCharge(w: World, m: Move): nat {
    if m.Acts? then Charge(At(w, m.side), m.input) else 0
  }

  ghost function Charges(start: World, moves: seq<Move>): nat {
    if moves == [] then 0
    else Charges(start, moves[..|moves| - 1]) + MoveCharge(Run(start, moves[..|moves| - 1]), moves[|moves| - 1])
  }

  function DeliveryOf(): Move -> nat {
    (m: Move) => if m.Delivers? then 1 else 0
  }

  function Deliveries(moves: seq<Move>): nat { Sum(moves, DeliveryOf()) }

  lemma MeasureFlips(w: World, side: Side)
    requires w.x.link.conn.Some? && w.y.link.conn.Some?
    ensures Measure(At(w, side)) == Measure(w)
  {
  }

  lemma TickMeasure(w: World, now: nat)
    requires w.x.link.conn.Some? && w.y.link.conn.Some? && now >= w.now
    ensures Measure(w.(now := now)) <= Measure(w)
  {
    var v := w.(now := now);
    DimmerOwes(w.x.secrets, w.x.link.conn.value, OutlookOf(w), OutlookOf(v));
    DimmerOwes(w.y.secrets, w.y.link.conn.value, OutlookOf(Flip(w)), OutlookOf(Flip(v)));
  }

  lemma BothConnected(w: World)
    requires Inv(w, Left)
    ensures w.x.link.conn.Some? <==> w.y.link.conn.Some?
  {
  }

  lemma InvFlips(w: World, side: Side)
    requires Inv(w, Left)
    ensures Inv(At(w, side), side) && (w.x.link.conn.Some? ==> At(w, side).x.link.conn.Some?)
  {
  }

  lemma MoveCost(w: World, m: Move)
    requires Inv(w, Left) && w.x.link.conn.Some? && Allowed(w, m) && LeftAlone(w, m)
    ensures var after := Apply(w, m);
      && Inv(after, Left) && after.x.link.conn.Some?
      && DeliveryOf()(m) + Measure(after) <= Measure(w) + MoveCharge(w, m)
  {
    hide Next, Measure, Inv, Charge;
    BothConnected(w);
    ApplyKeeps(w, m);
    match m
    case Acts(side, env, input, secrets) =>
      InvFlips(w, side);
      MeasureFlips(w, side);
      UnpromptedNeverRaises(At(w, side), side, env, input, secrets);
      MeasureFlips(Act(At(w, side), env, input, secrets), side);
    case Delivers(side, env, i) =>
      InvFlips(w, side);
      MeasureFlips(w, side);
      DeliveryDecreases(At(w, side), side, env, i);
      MeasureFlips(Deliver(At(w, side), env, i), side);
    case Ticks(now) => TickMeasure(w, now);
  }

  /** Termination: from any state of two connected engines, with no further user action,
      the number of deliveries is bounded by the measure of that state and, for each turn
      of the pairing loop over a removed device's connection, two for each live secret of
      its side that the other side can answer for at that turn. */
  lemma {:induction false} ExchangeTerminates(start: World, moves: seq<Move>)
    requires Inv(start, Left) && start.x.link.conn.Some? && Lawful(start, moves) && AllLeftAlone(start, moves)
    ensures var w := Run(start, moves);
      && Inv(w, Left) && w.x.link.conn.Some?
      && Deliveries(moves) + Measure(w) <= Measure(start) + Charges(start, moves)
  {
    hide Apply, Allowed, LeftAlone, Measure, Inv, MoveCharge;
    if moves != [] {
      var n := |moves| - 1;
      ExchangeTerminates(start, moves[..n]);
      MoveCost(Run(start, moves[..n]), moves[n]);
    }
  }

  // ─── Without a shared code ────────────────────────────────────────────────

  /** No code is live on both sides. */
  ghost predicate NothingShared(w: World) {
    forall s, t | s in w.x.secrets && t in w.y.secrets && Live(s, w.now) && Live(t, w.now) :: s.code != t.code
  }

  lemma {:induction false} SumZero<T>(s: seq<T>, f: T -> nat)
    requires forall x | x in s :: f(x) == 0
    ensures Sum(s, f) == 0
  {
    if s != [] {
      assert s[|s| - 1] in s;
      SumZero(s[..|s| - 1], f);
    }
  }

  lemma NoCharge(w: World, m: Move)
    requires NothingShared(w)
    ensures MoveCharge(w, m) == 0
  {
    if m.Acts? {
      var v := At(w, m.side);
      forall s | s in v.x.secrets ensures SharedOf(OutlookOf(v))(s) == 0 {
        if s.code in Answerable(v.y.secrets, v.now) {
          var t :| t in v.y.secrets && Live(t, v.now) && t.code == s.code;
        }
      }
      SumZero(v.x.secrets, SharedOf(OutlookOf(v)));
    }
  }

  lemma StaysUnshared(w: World, m: Move)
    requires NothingShared(w) && Allowed(w, m) && LeftAlone(w, m)
    ensures NothingShared(Apply(w, m))
  {
    hide Next, Unprompted;
    if m.Acts? { UnpromptedDrops(w, m); }
  }

  lemma UnpromptedDrops(w: World, m: Move)
    requires LeftAlone(w, m) && m.Acts?
    ensures forall s | s in m.secrets :: s in At(w, m.side).x.secrets
  {
  }

  /** With no code live on both sides, deliveries are bounded in advance, removed device or
      not and however often the pairing loop drives the connection. */
  lemma {:induction false} UnsharedTerminates(start: World, moves: seq<Move>)
    requires Inv(start, Left) && start.x.link.conn.Some? && Lawful(start, moves) && AllLeftAlone(start, moves)
    requires NothingShared(start)
    ensures var w := Run(start, moves);
      && Inv(w, Left) && w.x.link.conn.Some? && NothingShared(w)
      && Deliveries(moves) + Measure(w) <= Measure(start)
  {
    hide Apply, Allowed, LeftAlone, Measure, Inv, MoveCharge, NothingShared;
    if moves != [] {
      var n := |moves| - 1;
      var before := Run(start, moves[..n]);
      UnsharedTerminates(start, moves[..n]);
      MoveCost(before, moves[n]);
      NoCharge(before, moves[n]);
      StaysUnshared(before, moves[n]);
    }
  }
}
