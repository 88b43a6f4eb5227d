/** Who is trusted: what each step does to a key's tier and to what is stored about it, and
    what that means over whole runs with restarts. */
module PairingStanding {
  import opened Options
  import opened Pairing
  import opened LinkInvariants
  import opened PairingEffects

  // ─── One step ─────────────────────────────────────────────────────────────

  /** A key enters the trusted set by the user's confirmation or by a finished application of
      a handshake of a trusted peer, unless it is revoked; a removal takes it out, and a
      restart has it exactly if a trusted row and no revocation is stored. */
  ghost predicate KeyStep(env: Env, l: Link, input: Input, m: Link) {
    m.trustedKey <==>
      if Removes(l, input) then false
      else if input.Reboot? then l.disk.row && l.disk.savedRevocation.None?
      else l.trustedKey || Confirms(l, input) || (Finishes(l, input, false) && l.revokedAt.None?)
  }

  /** The devices row is written by a finished application, trusted exactly if the peer was
      trusted when it began, and by explicit writes; by nothing else. */
  ghost predicate RowStep(l: Link, input: Input, m: Link) {
    m.disk.row ==
      if input.WriteRow? then input.trusted
      else if Finishes(l, input, true) then false
      else if Finishes(l, input, false) then true
      else l.disk.row
  }

  ghost predicate RevocationStep(secrets: seq<Secret>, env: Env, l: Link, input: Input, m: Link) {
    && m.revokedAt == (if Removes(l, input) then Some(env.now)
                       else if Admits(secrets, l, input) then None
                       else if input.Reboot? then l.disk.savedRevocation
                       else l.revokedAt)
    && m.disk.savedRevocation == (if input.Flush? && l.disk.writes != [] then l.disk.writes[0] else l.disk.savedRevocation)
    && m.disk.writes == (if Removes(l, input) then l.disk.writes + [Some(env.now)]
                         else if Admits(secrets, l, input) && l.revokedAt.Some? then l.disk.writes + [None]
                         else if input.Flush? && l.disk.writes != [] then l.disk.writes[1..]
                         else if input.Reboot? then []
                         else l.disk.writes)
  }

  /** What a step does to a record that it does not replace. */
  ghost predicate RecordStep(secrets: seq<Secret>, env: Env, l: Link, input: Input, m: Link)
    requires l.conn.Some?
  {
    && m.conn.Some?
    && var c, d := l.conn.value, m.conn.value;
    && (d.trust.trusted <==> c.trust.trusted || Admits(secrets, l, input) || Confirms(l, input))
    && (d.destroyed <==> c.destroyed || Fails(l, input) || Refuses(secrets, l, input) || Expires(env, l, input)
                         || (Arrives(l, input) && input.msg.DeviceRemoved?))
    && d.trust.mode == (if Confirms(l, input) then DirectMode
                        else if HeardOnLan(l, input) && c.trust.mode.PairingMode? then LanMode
                        else c.trust.mode)
    && d.code == (if Admits(secrets, l, input) || Reconfirms(l, input) then Some(RightCode(l, input)) else c.code)
    && (d.stream <==> c.stream || Admits(secrets, l, input) || Reconfirms(l, input) || Confirms(l, input))
  }

  // The buffered handshake of a peer that is recognized from now on is another device's.
  predicate BufferApplies(env: Env, l: Link) {
    l.conn.Some? && l.conn.value.buffered.Some? && Names(env, l.conn.value.buffered.value)
  }

  /** A handshake is applied when it arrives from a recognized peer, or when a buffered one's
      peer is verified, confirmed or recognized on the LAN, unless the key is revoked. */
  predicate Starts(secrets: seq<Secret>, env: Env, l: Link, input: Input) {
    || (Arrives(l, input) && input.msg.Handshake? && Applies(env, l, input.msg.hello))
    || (BufferApplies(env, l) && (Admits(secrets, l, input) || Confirms(l, input)))
    || (BufferApplies(env, l) && l.revokedAt.None? && (Reconfirms(l, input) || HeardOnLan(l, input)))
  }

  // Continuations of the peer's handshakes: a new one is for the tier the peer has.
  ghost predicate JobsStep(secrets: seq<Secret>, env: Env, l: Link, input: Input, m: Link) {
    if input.Reboot? then m.jobs == []
    else if (input.Close? || input.Open?) && l.conn.Some? then
      |m.jobs| == |l.jobs| && forall i :: 0 <= i < |l.jobs| ==>
        m.jobs[i] == if l.jobs[i].Attached? then Orphan(l.jobs[i].lanOnly, l.conn.value.code) else l.jobs[i]
    else if input.Finish? && input.job < |l.jobs| then m.jobs == l.jobs[..input.job] + l.jobs[input.job + 1..]
    else if Starts(secrets, env, l, input) then m.conn.Some? && m.jobs == l.jobs + [Attached(!m.conn.value.trust.trusted)]
    else m.jobs == l.jobs
  }

  ghost predicate StandingStep(secrets: seq<Secret>, env: Env, l: Link, input: Input, m: Link) {
    && KeyStep(env, l, input, m) && RowStep(l, input, m) && RevocationStep(secrets, env, l, input, m) && JobsStep(secrets, env, l, input, m)
    && (l.conn.Some? && !Replaces(input) ==> RecordStep(secrets, env, l, input, m))
  }

  lemma AnswerStanding(secrets: seq<Secret>, env: Env, l: Link, input: Input)
    requires LinkOk(l) && IsAnswer(l, input)
    ensures StandingStep(secrets, env, l, input, Next(secrets, env, l, input))
  {
    hide Next, IndexOf, FreshSecret, Names;
    AnswerEffect(secrets, env, l, input);
    AnswerDisk(secrets, env, l, input);
  }

  // An answer writes to the disk only when it re-admits a revoked key.
  lemma AnswerDisk(secrets: seq<Secret>, env: Env, l: Link, input: Input)
    requires LinkOk(l) && IsAnswer(l, input)
    ensures Next(secrets, env, l, input).disk == if Admits(secrets, l, input) && l.revokedAt.Some? then Queue(l.disk, None) else l.disk
  {
    hide IndexOf, OnTrustGranted;
    if RightAnswer(l, input) {
      var c := l.conn.value;
      var f := With(l, c.(talk := Forget(c.talk, Answered(l, input))));
      GrantKeepsDisk(env, f, RightCode(l, input));
    }
  }

  lemma GrantKeepsDisk(env: Env, l: Link, code: Code)
    requires l.conn.Some?
    ensures forall k: Link :: k.conn.Some? && k.conn.value.trust.trusted ==> OnTrustGranted(env, k, code).disk == k.disk
  {
    forall k: Link | k.conn.Some? && k.conn.value.trust.trusted ensures OnTrustGranted(env, k, code).disk == k.disk {
      GrantedEffect(env, k, code);
    }
  }

  lemma NoticeStanding(secrets: seq<Secret>, env: Env, l: Link, input: Input)
    requires LinkOk(l) && Arrives(l, input) && !input.msg.Challenge? && !input.msg.Response?
    ensures StandingStep(secrets, env, l, input, Next(secrets, env, l, input))
  {
    hide Next, RevokeKey, Told;
    NoticeEffect(secrets, env, l, input);
    RemovalTellsNothing(l, env.now);
  }

  lemma SameStandingStep(secrets: seq<Secret>, env: Env, l: Link, input: Input, m: Link)
    requires SameStanding(l, m)
    requires input.Entered? || input.Generated? || input.Drive? || (input.Receive? && input.msg.Challenge?)
    ensures StandingStep(secrets, env, l, input, m)
  {
  }

  lemma LanStanding(secrets: seq<Secret>, env: Env, l: Link, input: Input)
    requires LinkOk(l) && l.conn.Some? && (input.Settled? || input.Confirm?)
    ensures StandingStep(secrets, env, l, input, Next(secrets, env, l, input))
  {
    hide Next, Names, Applies, IndexOf, FreshSecret;
    if input.Settled? {
      SettledEffect(secrets, env, l, input.enabled);
    } else {
      ConfirmEffect(secrets, env, l);
    }
  }

  lemma LifetimeStanding(secrets: seq<Secret>, env: Env, l: Link, input: Input)
    requires LinkOk(l) && Replaces(input)
    ensures StandingStep(secrets, env, l, input, Next(secrets, env, l, input))
  {
  }

  lemma NothingArrives(secrets: seq<Secret>, l: Link, input: Input)
    requires !input.Receive?
    ensures !Arrives(l, input) && !Admits(secrets, l, input) && !Refuses(secrets, l, input) && !Fails(l, input) && !Reconfirms(l, input)
  {
  }

  lemma TimerStanding(secrets: seq<Secret>, env: Env, l: Link, input: Input)
    requires LinkOk(l) && (input.Watchdog? || input.Heard? || input.Notify?)
    ensures StandingStep(secrets, env, l, input, Next(secrets, env, l, input))
  {
    hide RecordUnanswered, Names, Applies, Arrives, Admits, Refuses, Fails, Reconfirms;
    NothingArrives(secrets, l, input);
  }

  lemma StoreStanding(secrets: seq<Secret>, env: Env, l: Link, input: Input)
    requires LinkOk(l) && (input.Revoke? || input.Flush? || input.WriteRow?)
    ensures StandingStep(secrets, env, l, input, Next(secrets, env, l, input))
  {
    hide Names, Applies, Arrives, Admits, Refuses, Fails, Reconfirms;
    NothingArrives(secrets, l, input);
  }

  lemma FinishStanding(secrets: seq<Secret>, env: Env, l: Link, i: nat)
    requires LinkOk(l)
    ensures StandingStep(secrets, env, l, Finish(i), Next(secrets, env, l, Finish(i)))
  {
    hide CodeOf, Names, Applies, Arrives, Admits, Refuses, Fails, Reconfirms;
    NothingArrives(secrets, l, Finish(i));
  }

  // A message that nobody listens to, or a step about a record that is not there.
  lemma UnheardStanding(secrets: seq<Secret>, env: Env, l: Link, input: Input)
    requires LinkOk(l) && !Arrives(l, input) && (input.Receive? || ((input.Settled? || input.Confirm?) && l.conn.None?))
    ensures StandingStep(secrets, env, l, input, Next(secrets, env, l, input))
  {
  }

  lemma ReadyStanding(secrets: seq<Secret>, env: Env, l: Link)
    ensures StandingStep(secrets, env, l, Ready, Next(secrets, env, l, Ready))
  {
    hide Next;
    ReadyStands(secrets, env, l);
  }

  /** In every step exactly this happens to a key's tier, rows, revocation and continuations. */
  lemma StandingExact(secrets: seq<Secret>, env: Env, l: Link, input: Input)
    requires LinkOk(l)
    ensures StandingStep(secrets, env, l, input, Next(secrets, env, l, input))
  {
    hide Next, StandingStep;
    if IsAnswer(l, input) {
      AnswerStanding(secrets, env, l, input);
    } else if Arrives(l, input) && input.msg.Challenge? {
      ChallengeTellsNothing(secrets, env, l, input);
      SameStandingStep(secrets, env, l, input, Next(secrets, env, l, input));
    } else if Arrives(l, input) && input.msg.Response? {
      HalfAnswer(secrets, env, l, input);
      HalfStanding(secrets, env, l, input);
    } else if Arrives(l, input) {
      NoticeStanding(secrets, env, l, input);
    } else if input.Entered? || input.Generated? || input.Drive? {
      ChallengingStands(secrets, env, l, input);
      SameStandingStep(secrets, env, l, input, Next(secrets, env, l, input));
    } else if input.Ready? {
      ReadyStanding(secrets, env, l);
    } else if l.conn.Some? && (input.Settled? || input.Confirm?) {
      LanStanding(secrets, env, l, input);
    } else if Replaces(input) {
      LifetimeStanding(secrets, env, l, input);
    } else if input.Watchdog? || input.Heard? || input.Notify? {
      TimerStanding(secrets, env, l, input);
    } else if input.Finish? {
      FinishStanding(secrets, env, l, input.job);
    } else if input.Revoke? || input.Flush? || input.WriteRow? {
      StoreStanding(secrets, env, l, input);
    } else {
      UnheardStanding(secrets, env, l, input);
    }
  }

  lemma HalfStanding(secrets: seq<Secret>, env: Env, l: Link, input: Input)
    requires Arrives(l, input) && input.msg.Response? && !IsAnswer(l, input)
    ensures StandingStep(secrets, env, l, input, l)
  {
  }

  /** A new record is trusted exactly if its key is in the trusted set and not revoked; it
      knows no name and no code, and nothing was exchanged on it. */
  lemma OpenExact(secrets: seq<Secret>, env: Env, l: Link, side: Side, lan: bool)
    ensures var m := Next(secrets, env, l, Open(side, lan));
      && m.conn.Some?
      && var c := m.conn.value;
      && (c.trust.trusted <==> l.revokedAt.None? && l.trustedKey)
      && c.trust.mode == (if c.trust.trusted then DirectMode else if lan then LanMode else PairingMode)
      && c.stream == c.trust.trusted && !c.trust.complete && !c.trust.watchdog && !c.destroyed && !c.lanCheck && !c.handshakeSent
      && c.talk == Talk([], [], 0, []) && c.buffered.None? && c.code.None? && c.name == "Connecting..." && c.side == side
  {
  }

  lemma OnlyOpenMakesRecords(secrets: seq<Secret>, env: Env, l: Link, input: Input)
    ensures l.conn.None? && !input.Open? ==> Next(secrets, env, l, input).conn.None?
    ensures input.Close? || input.Reboot? ==> Next(secrets, env, l, input).conn.None?
  {
    hide HandlePeerMessage;
    if l.conn.None? && (input.Entered? || input.Generated? || input.Drive?) { ChallengingStands(secrets, env, l, input); }
  }

  /** Removing a device: its row is untrusted, its key is revoked and out of the trusted set, the
      write of the revocation is queued last, and the peer is told last of all. */
  lemma RemovalExact(secrets: seq<Secret>, env: Env, l: Link)
    ensures var revoked := Next(secrets, env, Next(secrets, env, l, WriteRow(false)), Revoke);
      var m := Next(secrets, env, Next(secrets, env, revoked, Generated), Notify);
      && !m.disk.row && m.revokedAt == Some(env.now) && !m.trustedKey && m.revocations == l.revocations + 1
      && m.disk.writes == l.disk.writes + [Some(env.now)] && m.disk.savedRevocation == l.disk.savedRevocation
      && m.events == l.events && m.jobs == l.jobs && (m.conn.Some? <==> l.conn.Some?)
      && (l.conn.Some? ==> m.conn.value.talk.out != [] && m.conn.value.talk.out[|m.conn.value.talk.out| - 1] == DeviceRemoved)
  {
    hide SendChallengesToAll;
    var revoked := Next(secrets, env, Next(secrets, env, l, WriteRow(false)), Revoke);
    ToAllStanding(secrets, env, revoked, false);
  }
}
