/** A peer that failed a verification is not challenged again until its lockout is over,
    whatever the user, the network or the peer does in the meantime. */
module PairingLockout {
  import opened Options
  import opened Pairing
  import opened LinkInvariants

  ghost predicate Locked(env: Env, l: Link) {
    l.conn.Some? && Active(l.ladders.failed, env.now) && (!l.conn.value.trust.trusted || l.revokedAt.Some?)
  }

  ghost predicate AddsNoChallenge(a: seq<Msg>, b: seq<Msg>) {
    |a| <= |b| && (forall i :: 0 <= i < |a| ==> b[i] == a[i]) && (forall i :: |a| <= i < |b| ==> !b[i].Challenge?)
  }

  /** Still the same connection and lockout, and nothing sent but answers. */
  ghost predicate Holds(env: Env, l: Link, m: Link) {
    && l.conn.Some? && m.conn.Some? && Locked(env, m)
    && AddsNoChallenge(l.conn.value.talk.out, m.conn.value.talk.out)
  }

  ghost predicate Unchallenged(l: Link, m: Link) {
    l.conn.Some? && m.conn.Some? && AddsNoChallenge(l.conn.value.talk.out, m.conn.value.talk.out)
  }

  lemma HoldsTransitive(env: Env, a: Link, b: Link, c: Link)
    requires Holds(env, a, b) && Holds(env, b, c)
    ensures Holds(env, a, c)
  {
  }

  lemma NoteHolds(env: Env, l: Link, usable: bool)
    requires Locked(env, l)
    ensures Holds(env, l, NoteChallenge(env, l, usable))
  {
  }

  lemma AnswerHolds(secrets: seq<Secret>, env: Env, l: Link, code: Code, nonce: Nonce)
    requires Locked(env, l)
    ensures Holds(env, l, Answer(secrets, env, l, code, nonce))
  {
    NoteHolds(env, l, true);
    var noted := NoteChallenge(env, l, true);
    var answered := With(noted, Say(noted.conn.value, Response(Some(nonce), Some(Mac(code, nonce)))));
    assert Holds(env, noted, answered);
    HoldsTransitive(env, l, noted, answered);
    assert SendChallenges(secrets, env, answered, true) == answered;
  }

  lemma ChallengeHolds(secrets: seq<Secret>, env: Env, l: Link, id: Option<CodeId>, nonce: Option<Nonce>)
    requires Locked(env, l)
    ensures Holds(env, l, HandleChallenge(secrets, env, l, id, nonce))
  {
    NoteHolds(env, l, false);
    if id.Some? && nonce.Some? {
      AnswerHolds(secrets, env, l, id.value.code, nonce.value);
    }
    hide Answer, NoteChallenge, Usable;
  }

  lemma {:induction false} HandleAllHolds(secrets: seq<Secret>, env: Env, l: Link, todo: seq<Unanswered>)
    requires Locked(env, l)
    ensures Holds(env, l, HandleAll(secrets, env, l, todo))
  {
    if todo != [] {
      var before, u := HandleAll(secrets, env, l, todo[..|todo| - 1]), todo[|todo| - 1];
      HandleAllHolds(secrets, env, l, todo[..|todo| - 1]);
      ChallengeHolds(secrets, env, before, Some(u.codeId), Some(u.nonce));
      HoldsTransitive(env, l, before, HandleAll(secrets, env, l, todo));
    }
  }

  lemma ToAllHolds(secrets: seq<Secret>, env: Env, l: Link, force: bool)
    requires Locked(env, l)
    ensures Holds(env, l, SendChallengesToAll(secrets, env, l, force))
  {
    var taken := With(l, TakePending(l.conn.value));
    HandleAllHolds(secrets, env, taken, l.conn.value.talk.pending);
    HoldsTransitive(env, l, taken, FlushPending(secrets, env, l));
    assert SendChallenges(secrets, env, FlushPending(secrets, env, l), force) == FlushPending(secrets, env, l);
  }

  lemma ApplyUnchallenged(env: Env, l: Link, h: Hello)
    requires l.conn.Some?
    ensures Unchallenged(l, ApplyHandshake(env, l, h))
  {
  }

  lemma FlushUnchallenged(env: Env, l: Link)
    requires l.conn.Some?
    ensures Unchallenged(l, FlushBuffered(env, l))
  {
    if Recognized(l.conn.value) && l.conn.value.buffered.Some? {
      ApplyUnchallenged(env, With(l, l.conn.value.(buffered := None)), l.conn.value.buffered.value);
    }
  }

  lemma GrantedUnchallenged(env: Env, l: Link, code: Code)
    requires l.conn.Some?
    ensures Unchallenged(l, OnTrustGranted(env, l, code))
  {
    FlushUnchallenged(env, With(l, ReplicateExchange(l.conn.value.(code := Some(code)))));
  }

  lemma AcceptUnchallenged(secrets: seq<Secret>, env: Env, l: Link, code: Code)
    requires l.conn.Some?
    ensures Unchallenged(l, Accept(secrets, env, l, code))
  {
    hide OnTrustGranted, Grant, FreshSecret;
    GrantedUnchallenged(env, With(l, Disarm(l.conn.value)), code);
    GrantUnchallenged(env, if l.revokedAt.Some? then UnrevokeKey(l) else l, code);
  }

  lemma GrantUnchallenged(env: Env, l: Link, code: Code)
    requires l.conn.Some?
    ensures Unchallenged(l, Grant(env, l, code))
  {
    hide OnTrustGranted;
    var trust := l.conn.value.trust.(trusted := true, watchdog := false, verified := true);
    var trusted := Emit(With(l, l.conn.value.(trust := trust)).(ladders := Ladders(None, None)), Verified(code));
    GrantedUnchallenged(env, trusted, code);
  }

  lemma ResponseUnchallenged(secrets: seq<Secret>, env: Env, l: Link, nonce: Option<Nonce>, mac: Option<Mac>)
    requires l.conn.Some?
    ensures Unchallenged(l, HandleResponse(secrets, env, l, nonce, mac))
  {
    hide Accept, Reject;
    var o := l.conn.value.talk.outstanding;
    RejectUnchallenged(env, l, NonceMismatch);
    RejectUnchallenged(env, l, MacMismatch);
    if nonce.Some? && IndexOf(o, nonce.value) < |o| {
      var i := IndexOf(o, nonce.value);
      AcceptUnchallenged(secrets, env, With(l, l.conn.value.(talk := Forget(l.conn.value.talk, i))), o[i].code);
    }
  }

  lemma RejectUnchallenged(env: Env, l: Link, reason: FailReason)
    requires l.conn.Some?
    ensures Unchallenged(l, Reject(env, l, reason))
  {
  }

  lemma MessageUnchallenged(secrets: seq<Secret>, env: Env, l: Link, m: Msg)
    requires Locked(env, l)
    ensures Unchallenged(l, HandlePeerMessage(secrets, env, l, m))
  {
    match m
    case Challenge(id, nonce) => ChallengeHolds(secrets, env, l, id, nonce);
    case Response(nonce, mac) => ResponseUnchallenged(secrets, env, l, nonce, mac);
    case Handshake(h) => ApplyUnchallenged(env, l, h);
    case TransferOffer =>
    case Sync(k, library) =>
    case DeviceRemoved =>
  }

  lemma EnteredUnchallenged(secrets: seq<Secret>, env: Env, l: Link, code: Code)
    requires Locked(env, l)
    ensures Unchallenged(l, CodeEntered(secrets, env, l, code))
  {
    ToAllHolds(secrets, env, l.(ladders := l.ladders.(unanswered := None)), true);
    hide SendChallengesToAll;
  }

  lemma SettledUnchallenged(env: Env, l: Link, enabled: bool)
    requires l.conn.Some?
    ensures Unchallenged(l, LanSettled(env, l, enabled))
  {
    FlushUnchallenged(env, With(l, SendHandshake(env, AsLan(l.conn.value))));
    hide FlushBuffered;
  }

  lemma ConfirmUnchallenged(env: Env, l: Link)
    requires l.conn.Some?
    ensures Unchallenged(l, ConfirmLanPeer(env, l))
  {
    var trust := l.conn.value.trust.(mode := DirectMode, trusted := true, watchdog := false, confirmed := true);
    FlushUnchallenged(env, With(AddTrustedKey(l), ReplicateExchange(SendHandshake(env, l.conn.value.(trust := trust)))));
    hide FlushBuffered;
  }

  lemma SameUnchallenged(l: Link)
    requires l.conn.Some?
    ensures Unchallenged(l, l)
  {
  }

  lemma QuietStepUnchallenged(secrets: seq<Secret>, env: Env, l: Link, input: Input)
    requires Locked(env, l)
    requires input.Ready? || input.Watchdog? || input.Heard? || input.Finish? || input.Revoke? || input.Notify? || input.Flush? || input.WriteRow?
    ensures Unchallenged(l, Next(secrets, env, l, input))
  {
    hide ChallengeNow;
  }

  /** No step over a live connection challenges a peer that is locked out: not a code the
      user enters or generates, not a challenge of its own, not a reconnect's open channel. */
  lemma LockedOutIsNotChallenged(secrets: seq<Secret>, env: Env, l: Link, input: Input)
    requires Locked(env, l)
    requires !input.Open? && !input.Close? && !input.Reboot?
    ensures Unchallenged(l, Next(secrets, env, l, input))
  {
    hide HandlePeerMessage, CodeEntered, SendChallengesToAll, LanSettled, ConfirmLanPeer, AddsNoChallenge;
    SameUnchallenged(l);
    match input
    case Receive(m) => MessageUnchallenged(secrets, env, l, m);
    case Entered(code) => EnteredUnchallenged(secrets, env, l, code);
    case Generated => ToAllHolds(secrets, env, l, false);
    case Drive => ToAllHolds(secrets, env, l, true);
    case Settled(enabled) => SettledUnchallenged(env, l, enabled);
    case Confirm => ConfirmUnchallenged(env, l);
    case _ => QuietStepUnchallenged(secrets, env, l, input);
  }

  /** An answer an untrusted peer in the pairing phase gets wrong locks its key, for five
      seconds the first time and at most five minutes, and the lock survives a reconnect. */
  lemma WrongAnswerLocks(secrets: seq<Secret>, env: Env, l: Link, nonce: Nonce, mac: Mac, side: Side, lan: bool, later: Env)
    requires l.conn.Some? && !l.conn.value.trust.trusted && l.conn.value.trust.mode.PairingMode? && !l.trustedKey
    requires forall e :: e in l.conn.value.talk.outstanding && e.nonce == nonce ==> mac != Mac(e.code, e.nonce)
    ensures var wrong := HandleResponse(secrets, env, l, Some(nonce), Some(mac));
      var again := Next(secrets, later, Next(secrets, later, wrong, Close), Open(side, lan));
      && wrong.conn.Some? && wrong.conn.value.destroyed
      && (later.now < env.now + 5000 ==> Locked(later, again))
      && (Locked(later, again) ==> later.now < env.now + 300000)
  {
    var count := if l.ladders.failed.Some? then l.ladders.failed.value.count else 0;
    AtLeastOne(count);
  }

  lemma {:induction false} AtLeastOne(n: nat)
    ensures Pow2(n) >= 1
  {
    if n > 0 { AtLeastOne(n - 1); }
  }
}
