/** The pairing handlers as the engine runs them: fields updated in place, loops over the
    secrets, over the live peers and over the stored rows.  The methods of devices.js,
    signaling.js and index.js that share the peers map with the trust manager stand
    beside it here.  Each method is tied to the function of module Pairing that says what
    it does to the one key it is about, and leaves every other key alone. */
module TrustManagement {
  import opened Collections
  import opened Options
  import opened Pairing
  import opened LinkInvariants
  import opened Secrets
  import Codes
  import PairingTokens

  datatype Key = Key(hex: string)

  function Get<V>(m: map<Key, V>, k: Key, otherwise: V): V {
    if k in m then m[k] else otherwise
  }

  const BLANK_DISK := Disk(false, None, [])

  /** One challenge for every live secret that has none outstanding. */
  method IssueMissing(secrets: seq<Secret>, now: nat, side: Side, before: Talk) returns (talk: Talk, sentAny: bool)
    ensures talk == Issue(before, Missing(secrets, now, side, before))
    ensures sentAny <==> Missing(secrets, now, side, before) != []
  {
    var sent := set e | e in before.outstanding :: e.code;
    talk, sentAny := before, false;
    ghost var entries: seq<Entry> := [];
    assert secrets[..0] == [] && Issue(before, entries) == before;
    hide Missing, Issue;
    for i := 0 to |secrets|
      invariant entries == Missing(secrets[..i], now, side, before)
      invariant talk == Issue(before, entries)
      invariant sentAny == (entries != [])
    {
      var secret := secrets[i];
      OneMoreSecret(secrets, i, now, side, before);
      if secret.code in sent { continue; }
      if secret.expiresAt > 0 && now >= secret.expiresAt { continue; }
      var e := Entry(Drawn(side, talk.drawn), secret.code);
      talk := talk.(outstanding := talk.outstanding + [e], drawn := talk.drawn + 1, out := talk.out + [ChallengeFor(e)]);
      IssueOneMore(before, entries, e);
      entries := entries + [e];
      sentAny := true;
    }
    assert secrets[..|secrets|] == secrets;
  }

  lemma OneMoreSecret(secrets: seq<Secret>, i: nat, now: nat, side: Side, t: Talk)
    requires i < |secrets|
    ensures Missing(secrets[..i + 1], now, side, t) ==
      var m := Missing(secrets[..i], now, side, t);
      if Challenged(t, secrets[i].code) || !Live(secrets[i], now) then m
      else m + [Entry(Drawn(side, t.drawn + |m|), secrets[i].code)]
  {
    assert secrets[..i + 1][..i] == secrets[..i];
  }

  lemma IssueOneMore(t: Talk, entries: seq<Entry>, e: Entry)
    ensures var one := Issue(t, entries);
      Issue(t, entries + [e]) == one.(outstanding := one.outstanding + [e], drawn := one.drawn + 1, out := one.out + [ChallengeFor(e)])
  {
    assert (entries + [e])[..|entries|] == entries;
  }

  // The table of codes after a message.
  function SecretsAfter(secrets: seq<Secret>, m: Msg, now: nat): seq<Secret> {
    if m.DeviceRemoved? then Keep(secrets, RegisteredSince(now)) else secrets
  }

  class TrustManager {
    // What the callbacks read: the clock, our identity, and the standing of each peer.
    var now: nat
    var me: Identity
    var sitePeers: set<Key>
    var tunnelPeers: set<Key>
    var partnerOf: map<Key, set<string>>

    var pairingSecrets: seq<Secret>
    var trustedPeerKeys: set<Key>
    var revokedKeys: map<Key, nat>
    var failedPairings: map<Key, Backoff>
    var unansweredPairings: map<Key, Backoff>
    var peers: map<Key, Conn>
    var syncDeniedLast: map<Key, map<(SyncKind, string), nat>>
    // Continuations of applyHandshake that wait for the database.  Each holds on to the
    // record it was started for.
    var jobs: map<Key, seq<Job>>
    // The devices and revokedPeers tables, with the writes not yet on disk.
    var stored: map<Key, Disk>
    var revocations: map<Key, nat>
    var events: map<Key, seq<Event>>

    // What the handlers below need of the table of codes.
    ghost predicate SecretsOk()
      reads `pairingSecrets
    {
      DistinctSecrets(pairingSecrets)
    }

    /** What holds between events: every key's record, trust and stored revocation satisfy
        the invariants of LinkInvariants. */
    ghost predicate Valid()
      reads this
    {
      SecretsOk() && forall k: Key :: LinkOk(LinkOf(k))
    }

    function EnvOf(k: Key): Env
      reads `now, `me, `sitePeers, `tunnelPeers, `partnerOf
    {
      Env(now, me, k in sitePeers, k in tunnelPeers, Get(partnerOf, k, {}))
    }

    ghost function LinkOf(k: Key): Link
      reads `peers, `revokedKeys, `trustedPeerKeys, `failedPairings, `unansweredPairings, `syncDeniedLast, `jobs, `stored,
        `revocations, `events
    {
      Link(Find(peers, k), Find(revokedKeys, k), k in trustedPeerKeys,
           Ladders(Find(failedPairings, k), Find(unansweredPairings, k)),
           Get(syncDeniedLast, k, map[]), Get(jobs, k, []), Get(stored, k, BLANK_DISK),
           Get(revocations, k, 0), Get(events, k, []))
    }

    /** Key k now has state l and no other key changed. */
    twostate predicate Only(k: Key, l: Link)
      reads this
    {
      LinkOf(k) == l && forall j: Key :: j != k ==> LinkOf(j) == old(LinkOf(j))
    }

    /** A revocation outlives the call. */
    twostate predicate StillRevoked()
      reads this
    {
      forall k: Key :: k in old(revokedKeys) ==> k in revokedKeys && !IsTrusted(k)
    }

    /** As StillRevoked, but for key k. */
    twostate predicate OthersStillRevoked(k: Key)
      reads this
    {
      forall j: Key :: j != k && j in old(revokedKeys) ==> j in revokedKeys && !IsTrusted(j)
    }

    /** A fresh process: the tables as the last session left them, then start(). */
    constructor (now: nat, me: Identity, sitePeers: set<Key>, tunnelPeers: set<Key>, partnerOf: map<Key, set<string>>,
                 stored: map<Key, Disk>)
      ensures Valid() && pairingSecrets == []
      ensures forall k: Key ::
        LinkOf(k) == Started(Get(stored, k, BLANK_DISK).row, Get(stored, k, BLANK_DISK).savedRevocation)
    {
      this.now, this.me, this.sitePeers, this.tunnelPeers, this.partnerOf := now, me, sitePeers, tunnelPeers, partnerOf;
      this.stored, revocations, events := stored, map[], map[];
      pairingSecrets, trustedPeerKeys, revokedKeys, peers, jobs := [], {}, map[], map[], map[];
      failedPairings, unansweredPairings, syncDeniedLast := map[], map[], map[];
      new;
      Start();
    }

    /** A revoked key is not trusted, is not in the trusted set, and every connection of it
        that still counts as trusted was opened before the revocation. */
    lemma RevokedIsUntrusted(k: Key)
      requires Valid() && k in revokedKeys
      ensures !IsTrusted(k) && k !in trustedPeerKeys
      ensures k in peers && peers[k].trust.trusted ==> peers[k].openedAfter < Get(revocations, k, 0)
    {
      assert LinkOk(LinkOf(k));
    }

    // A call about one key keeps the invariants if it keeps that key's.
    twostate lemma KeepsValid(k: Key, new l: Link)
      requires old(Valid()) && SecretsOk() && Only(k, l) && LinkOk(l)
      ensures Valid()
      ensures OthersStillRevoked(k) && (l.revokedAt.Some? || old(LinkOf(k)).revokedAt.None? ==> StillRevoked())
    {
      hide LinkOk;
      forall j: Key | j in old(revokedKeys) && j != k ensures j in revokedKeys && !IsTrusted(j) {
        assert LinkOf(j).revokedAt == old(LinkOf(j)).revokedAt;
      }
    }

    // ─── The trust store ────────────────────────────────────────────────────

    predicate IsTrusted(k: Key)
      reads this
      ensures IsTrusted(k) == IsTrustedPublicKey(LinkOf(k))
    {
      k !in revokedKeys && k in trustedPeerKeys
    }

    method AddTrusted(k: Key)
      modifies `trustedPeerKeys
      ensures Only(k, AddTrustedKey(old(LinkOf(k))))
    {
      if k in revokedKeys { return; }
      trustedPeerKeys := trustedPeerKeys + {k};
    }

    method Persist(k: Key, write: Option<nat>)
      modifies `stored
      ensures Only(k, old(LinkOf(k)).(disk := Queue(old(LinkOf(k)).disk, write)))
    {
      stored := stored[k := Queue(Get(stored, k, BLANK_DISK), write)];
    }

    method RecordRevocation(k: Key)
      modifies `revokedKeys, `trustedPeerKeys, `stored, `revocations
      ensures Only(k, RevokeKey(old(LinkOf(k)), now))
    {
      revokedKeys := revokedKeys[k := now];
      trustedPeerKeys := trustedPeerKeys - {k};
      revocations := revocations[k := Get(revocations, k, 0) + 1];
      Persist(k, Some(now));
    }

    method Unrevoke(k: Key)
      modifies `revokedKeys, `stored
      ensures Only(k, UnrevokeKey(old(LinkOf(k))))
    {
      revokedKeys := revokedKeys - {k};
      Persist(k, None);
    }

    /** start(): forget everything in memory, then load the revoked keys and after them
        the trusted keys.  Writes that had not reached the disk are lost; a revocation whose
        writes had all reached it is back before any key is trusted. */
    method Start()
      modifies `pairingSecrets, `trustedPeerKeys, `revokedKeys, `failedPairings, `unansweredPairings, `peers, `syncDeniedLast, `jobs, `stored
      ensures pairingSecrets == []
      ensures forall k: Key :: LinkOf(k) == Restart(old(LinkOf(k)))
      ensures Valid()
      ensures old(Valid()) ==> forall k: Key :: k in old(revokedKeys) && old(LinkOf(k)).disk.writes == [] ==>
        k in revokedKeys && !IsTrusted(k)
    {
      ForgetMemory();
      Reload();
      RestartedOk();
      hide LinkOf;
    }

    twostate lemma RestartedOk()
      requires SecretsOk() && forall k: Key :: LinkOf(k) == Restart(old(LinkOf(k)))
      ensures Valid()
      ensures old(Valid()) ==> forall k: Key :: k in old(revokedKeys) && old(LinkOf(k)).disk.writes == [] ==>
        k in revokedKeys && !IsTrusted(k)
    {
      if old(Valid()) {
        forall k: Key | k in old(revokedKeys) && old(LinkOf(k)).disk.writes == [] ensures k in revokedKeys && !IsTrusted(k) {
          assert old(LinkOk(LinkOf(k)));
          assert LinkOf(k).revokedAt == old(LinkOf(k)).revokedAt;
        }
      }
    }

    method ForgetMemory()
      modifies `pairingSecrets, `trustedPeerKeys, `revokedKeys, `failedPairings, `unansweredPairings, `peers, `syncDeniedLast, `jobs
      ensures pairingSecrets == [] && trustedPeerKeys == {} && revokedKeys == map[]
      ensures forall k: Key :: LinkOf(k) == var l := old(LinkOf(k));
        Link(None, None, false, Ladders(None, None), map[], [], l.disk, l.revocations, l.events)
    {
      peers := map[];
      failedPairings := map[];
      unansweredPairings := map[];
      syncDeniedLast := map[];
      jobs := map[];
      pairingSecrets, trustedPeerKeys, revokedKeys := [], {}, map[];
    }

    method Reload()
      requires trustedPeerKeys == {} && revokedKeys == map[]
      modifies `trustedPeerKeys, `revokedKeys, `stored
      ensures forall k: Key :: LinkOf(k) == var l := old(LinkOf(k));
        l.(revokedAt := l.disk.savedRevocation, trustedKey := l.disk.row && l.disk.savedRevocation.None?,
           disk := l.disk.(writes := []))
    {
      DropQueuedWrites();
      LoadRevokedKeys();
      LoadTrustedPeerKeys();
    }

    method DropQueuedWrites()
      modifies `stored
      ensures forall k :: Get(stored, k, BLANK_DISK) == Get(old(stored), k, BLANK_DISK).(writes := [])
    {
      stored := map k | k in stored :: stored[k].(writes := []);
    }

    method LoadRevokedKeys()
      requires revokedKeys == map[]
      modifies `revokedKeys
      ensures forall k :: Find(revokedKeys, k) == Get(stored, k, BLANK_DISK).savedRevocation
    {
      var todo := stored.Keys;
      while todo != {}
        invariant todo <= stored.Keys
        invariant forall k :: k in todo ==> k !in revokedKeys
        invariant forall k :: k !in todo ==> Find(revokedKeys, k) == Get(stored, k, BLANK_DISK).savedRevocation
        decreases |todo|
      {
        var k :| k in todo;
        todo := todo - {k};
        if stored[k].savedRevocation.Some? {
          revokedKeys := revokedKeys[k := stored[k].savedRevocation.value];
        }
      }
    }

    method LoadTrustedPeerKeys()
      requires trustedPeerKeys == {}
      modifies `trustedPeerKeys
      ensures forall k :: k in trustedPeerKeys <==> Get(stored, k, BLANK_DISK).row && k !in revokedKeys
    {
      var todo := stored.Keys;
      while todo != {}
        invariant todo <= stored.Keys
        invariant forall k :: k in trustedPeerKeys <==>
          k !in todo && Get(stored, k, BLANK_DISK).row && k !in revokedKeys
        decreases |todo|
      {
        var k :| k in todo;
        todo := todo - {k};
        if stored[k].row && k !in revokedKeys {
          trustedPeerKeys := trustedPeerKeys + {k};
        }
      }
    }

    // ─── Backoff ladders ────────────────────────────────────────────────────

    method RecordPairingFailure(k: Key)
      modifies `failedPairings
      ensures Only(k, old(LinkOf(k)).(ladders := RecordFailure(old(LinkOf(k)).ladders, now)))
    {
      failedPairings := failedPairings[k := Climb(Find(failedPairings, k), now, 5000, 300000).value];
    }

    method RecordUnansweredPairing(k: Key)
      modifies `unansweredPairings
      ensures Only(k, old(LinkOf(k)).(ladders := RecordUnanswered(old(LinkOf(k)).ladders, now)))
    {
      unansweredPairings := unansweredPairings[k := Climb(Find(unansweredPairings, k), now, 15000, 1800000).value];
    }

    // An entry found expired is deleted, its count included.
    method IsPairingLocked(k: Key) returns (locked: bool)
      modifies `failedPairings
      ensures locked == Active(old(LinkOf(k)).ladders.failed, now)
      ensures var l := old(LinkOf(k)); Only(k, if locked then l else l.(ladders := l.ladders.(failed := None)))
    {
      locked := k in failedPairings && failedPairings[k].until > now;
      if !locked { failedPairings := failedPairings - {k}; }
    }

    method IsPairingSuppressed(k: Key) returns (suppressed: bool)
      modifies `unansweredPairings
      ensures suppressed == Active(old(LinkOf(k)).ladders.unanswered, now)
      ensures var l := old(LinkOf(k)); Only(k, if suppressed then l else l.(ladders := l.ladders.(unanswered := None)))
    {
      suppressed := k in unansweredPairings && unansweredPairings[k].until > now;
      if !suppressed { unansweredPairings := unansweredPairings - {k}; }
    }

    method ClearUnanswered(k: Key)
      modifies `unansweredPairings
      ensures Only(k, old(LinkOf(k)).(ladders := old(LinkOf(k)).ladders.(unanswered := None)))
    {
      unansweredPairings := unansweredPairings - {k};
    }

    method ClearLadders(k: Key)
      modifies `failedPairings, `unansweredPairings
      ensures Only(k, old(LinkOf(k)).(ladders := Ladders(None, None)))
    {
      failedPairings := failedPairings - {k};
      unansweredPairings := unansweredPairings - {k};
    }

    // ─── The record of one connection ───────────────────────────────────────

    method Put(k: Key, c: Conn)
      modifies `peers
      ensures Only(k, With(old(LinkOf(k)), c))
    {
      peers := peers[k := c];
    }

    method ArmPairingTimeout(k: Key)
      modifies `peers
      ensures k !in old(peers) ==> Only(k, old(LinkOf(k)))
      ensures k in old(peers) ==> Only(k, With(old(LinkOf(k)), Arm(EnvOf(k), old(peers)[k])))
    {
      if k !in peers { return; }
      var trust := peers[k].trust;
      if trust.trusted || trust.complete { return; }
      if k in tunnelPeers { return; }
      Put(k, peers[k].(trust := trust.(watchdog := true)));
    }

    method ClearPairingTimeout(k: Key)
      requires k in peers
      modifies `peers
      ensures Only(k, With(old(LinkOf(k)), Disarm(old(peers)[k])))
    {
      Put(k, peers[k].(trust := peers[k].trust.(watchdog := false)));
    }

    method Send(k: Key, m: Msg)
      requires k in peers
      modifies `peers
      ensures Only(k, With(old(LinkOf(k)), Say(old(peers)[k], m)))
    {
      Put(k, peers[k].(talk := peers[k].talk.(out := peers[k].talk.out + [m])));
    }

    method EmitEvent(k: Key, e: Event)
      modifies `events
      ensures Only(k, Emit(old(LinkOf(k)), e)) && events == old(events)[k := Get(old(events), k, []) + [e]]
    {
      events := events[k := Get(events, k, []) + [e]];
    }

    // ─── Challenges ─────────────────────────────────────────────────────────

    method SendChallengesTo(k: Key, force: bool)
      modifies `failedPairings, `unansweredPairings, `peers
      ensures Only(k, SendChallenges(pairingSecrets, EnvOf(k), old(LinkOf(k)), force))
    {
      if k !in peers { return; }
      if peers[k].trust.trusted && k !in revokedKeys { return; }
      if peers[k].trust.mode.LanMode? && !peers[k].trust.trusted { return; }
      var locked := IsPairingLocked(k);
      if locked { return; }
      if !force {
        var suppressed := IsPairingSuppressed(k);
        if suppressed { return; }
      } else {
        ClearUnanswered(k);
      }
      ChallengeMissing(k);
    }

    method ChallengeMissing(k: Key)
      requires k in peers
      modifies `peers
      ensures Only(k, With(old(LinkOf(k)), ChallengeNow(pairingSecrets, EnvOf(k), old(peers)[k])))
    {
      var talk, sentAny := IssueMissing(pairingSecrets, now, peers[k].side, peers[k].talk);
      if sentAny {
        Put(k, peers[k].(talk := talk));
        ArmPairingTimeout(k);
      }
    }

    method HandleChallengeFrom(k: Key, id: Option<CodeId>, nonce: Option<Nonce>)
      requires SecretsOk()
      modifies `failedPairings, `unansweredPairings, `peers
      ensures Only(k, HandleChallenge(pairingSecrets, EnvOf(k), old(LinkOf(k)), id, nonce))
    {
      if k !in peers || LanOnly(peers[k]) { return; }
      var secret: Option<Secret> := None;
      if id.Some? { secret := Lookup(pairingSecrets, id.value); }
      var usable := secret.Some? && Live(secret.value, now);
      if k in revokedKeys && !usable { return; }
      if id.None? || nonce.None? { return; }
      hide Answer, SetAside, NoteChallenge;
      Note(k, usable);
      if usable {
        AnswerNoted(k, secret.value.code, nonce.value, old(LinkOf(k)));
      } else {
        RememberNoted(k, Unanswered(id.value, nonce.value), old(LinkOf(k)));
      }
    }

    // The half of handleChallenge that sets a challenge aside.
    method RememberNoted(k: Key, u: Unanswered, ghost l: Link)
      requires l.conn.Some? && LinkOf(k) == NoteChallenge(EnvOf(k), l, false)
      modifies `peers
      ensures Only(k, SetAside(EnvOf(k), l, u))
    {
      hide NoteChallenge;
      PairingTokens.NoteKeepsTalk(EnvOf(k), l, false);
      assert k in peers by { assert LinkOf(k).conn.Some?; }
      var talk := peers[k].talk;
      var grown := talk.pending + [u];
      if |grown| > MAX_PENDING { grown := grown[1..]; }
      Put(k, peers[k].(talk := talk.(pending := grown)));
    }

    // The answering half of handleChallenge.
    method AnswerNoted(k: Key, code: Code, nonce: Nonce, ghost l: Link)
      requires l.conn.Some? && LinkOf(k) == NoteChallenge(EnvOf(k), l, true)
      modifies `failedPairings, `unansweredPairings, `peers
      ensures Only(k, Answer(pairingSecrets, EnvOf(k), l, code, nonce))
    {
      PairingTokens.NoteKeepsTalk(EnvOf(k), l, true);
      hide NoteChallenge, SendChallenges;
      if nonce.NotSixteenBytes? { return; }
      assert k in peers by { assert LinkOf(k).conn.Some?; }
      Send(k, Response(Some(nonce), Some(Mac(code, nonce))));
      var hadOutstanding := |peers[k].talk.outstanding| > 0;
      if !hadOutstanding && !peers[k].trust.trusted && k !in sitePeers {
        SendChallengesTo(k, true);
      }
    }

    // The watchdog and suppression half of handleChallenge.
    method Note(k: Key, usable: bool)
      requires k in peers
      modifies `unansweredPairings, `peers
      ensures Only(k, NoteChallenge(EnvOf(k), old(LinkOf(k)), usable))
    {
      if k in sitePeers { return; }
      if usable {
        ClearUnanswered(k);
        ArmPairingTimeout(k);
      } else {
        var suppressed := IsPairingSuppressed(k);
        if !suppressed { ArmPairingTimeout(k); }
      }
    }

    method FlushPendingOf(k: Key)
      requires SecretsOk() && k in peers
      modifies `failedPairings, `unansweredPairings, `peers
      ensures Only(k, FlushPending(pairingSecrets, EnvOf(k), old(LinkOf(k))))
    {
      var pending := peers[k].talk.pending;
      Put(k, TakePending(peers[k]));
      ghost var start := LinkOf(k);
      for i := 0 to |pending|
        invariant Only(k, HandleAll(pairingSecrets, EnvOf(k), start, pending[..i]))
      {
        assert pending[..i + 1][..i] == pending[..i];
        HandleChallengeFrom(k, Some(pending[i].codeId), Some(pending[i].nonce));
      }
      assert pending[..|pending|] == pending;
    }

    // The body of the loop of sendChallengesToAll.
    method ChallengePeer(k: Key, force: bool)
      requires SecretsOk()
      modifies `failedPairings, `unansweredPairings, `peers
      ensures Only(k, SendChallengesToAll(pairingSecrets, EnvOf(k), old(LinkOf(k)), force))
    {
      if k !in peers || LanOnly(peers[k]) { return; }
      ghost var taken := With(LinkOf(k), TakePending(peers[k]));
      ghost var pending := peers[k].talk.pending;
      FlushPendingOf(k);
      HandleAllStanding(pairingSecrets, EnvOf(k), taken, pending);
      assert k in peers by { assert LinkOf(k).conn.Some?; }
      if !peers[k].trust.trusted || k in revokedKeys {
        SendChallengesTo(k, force);
      }
    }

    lemma NoPeerNoChange(k: Key, force: bool)
      requires k !in peers
      ensures SendChallengesToAll(pairingSecrets, EnvOf(k), LinkOf(k), force) == LinkOf(k)
    {
    }

    method ChallengeEveryone(force: bool)
      requires SecretsOk()
      modifies `failedPairings, `unansweredPairings, `peers
      ensures forall k: Key :: LinkOf(k) == SendChallengesToAll(pairingSecrets, EnvOf(k), old(LinkOf(k)), force)
    {
      hide SendChallengesToAll, LinkOf, DistinctSecrets;
      var todo := peers.Keys;
      forall j: Key | j !in todo ensures SendChallengesToAll(pairingSecrets, EnvOf(j), LinkOf(j), force) == LinkOf(j) {
        NoPeerNoChange(j, force);
      }
      while todo != {}
        invariant forall j: Key :: j in todo ==> LinkOf(j) == old(LinkOf(j))
        invariant forall j: Key :: j !in todo ==> LinkOf(j) == SendChallengesToAll(pairingSecrets, EnvOf(j), old(LinkOf(j)), force)
        decreases |todo|
      {
        var k :| k in todo;
        todo := todo - {k};
        ChallengePeer(k, force);
      }
    }

    method ProbeTrustedPeer(k: Key, code: Code)
      modifies `peers
      ensures Only(k, Probe(old(LinkOf(k)), code))
    {
      if k !in peers || !peers[k].trust.trusted { return; }
      if k in revokedKeys { return; }
      var c := peers[k];
      if exists e :: e in c.talk.outstanding && e.code == code { return; }
      var e := Entry(Drawn(c.side, c.talk.drawn), code);
      assert ChallengesFor([e]) == [ChallengeFor(e)] by {
        assert [e][..0] == [];
      }
      Put(k, c.(talk := Talk(c.talk.outstanding + [e], c.talk.pending, c.talk.drawn + 1, c.talk.out + [ChallengeFor(e)])));
      assert Issue(c.talk, [e]) == peers[k].talk;
    }

    method ProbeTrustedPeers(code: Code, ids: set<Key>)
      modifies `peers
      ensures forall k: Key :: LinkOf(k) == if k in ids then Probe(old(LinkOf(k)), code) else old(LinkOf(k))
    {
      var todo := ids;
      hide Probe;
      while todo != {}
        invariant todo <= ids
        invariant forall k: Key :: k in todo || k !in ids ==> LinkOf(k) == old(LinkOf(k))
        invariant forall k: Key :: k in ids && k !in todo ==> LinkOf(k) == Probe(old(LinkOf(k)), code)
        decreases |todo|
      {
        var k :| k in todo;
        todo := todo - {k};
        ProbeTrustedPeer(k, code);
      }
    }

    /** A code typed by the user: normalized, stored, put to every untrusted peer, and
        probed with every peer that was trusted before. */
    method EnterCode(up: Codes.Upper, raw: string) returns (clean: Option<string>)
      requires SecretsOk()
      modifies `pairingSecrets, `failedPairings, `unansweredPairings, `peers
      ensures SecretsOk()
      ensures clean == Codes.NormalizePairingCode(up, raw)
      ensures clean.None? ==> pairingSecrets == old(pairingSecrets) && forall k: Key :: LinkOf(k) == old(LinkOf(k))
      ensures clean.Some? ==>
        && pairingSecrets == Store(old(pairingSecrets), Joined(Code(clean.value), now))
        && forall k: Key :: LinkOf(k) == CodeEntered(pairingSecrets, EnvOf(k), old(LinkOf(k)), Code(clean.value))
    {
      clean := Codes.NormalizePairingCode(up, raw);
      if clean.None? { return; }
      var code := Code(clean.value);
      SetSecret(Joined(code, now));
      var trusted := TrustedPeers();
      ClearAllUnanswered();
      ChallengeEveryone(true);
      hide SendChallengesToAll, Probe, LinkOf, EnvOf;
      ProbeTrustedPeers(code, trusted);
    }

    method TrustedPeers() returns (ids: set<Key>)
      ensures forall k: Key :: k in ids <==>
        LinkOf(k).conn.Some? && LinkOf(k).conn.value.trust.trusted && LinkOf(k).revokedAt.None?
    {
      ids := set k | k in peers && peers[k].trust.trusted && k !in revokedKeys;
    }

    method ClearAllUnanswered()
      modifies `unansweredPairings
      ensures forall k: Key :: LinkOf(k) == old(LinkOf(k)).(ladders := old(LinkOf(k)).ladders.(unanswered := None))
    {
      unansweredPairings := map[];
    }

    method SetSecret(s: Secret)
      requires SecretsOk()
      modifies `pairingSecrets
      ensures SecretsOk()
      ensures pairingSecrets == Store(old(pairingSecrets), s)
    {
      StoreIsUpdate(pairingSecrets, s);
      var i := 0;
      while i < |pairingSecrets| && pairingSecrets[i].code != s.code
        invariant 0 <= i <= |pairingSecrets|
        invariant pairingSecrets == old(pairingSecrets)
        invariant forall j :: 0 <= j < i ==> pairingSecrets[j].code != s.code
      {
        i := i + 1;
      }
      StoreAt(pairingSecrets, s, i);
      if i < |pairingSecrets| {
        pairingSecrets := pairingSecrets[i := s];
      } else {
        pairingSecrets := pairingSecrets + [s];
      }
    }

    // The loops that delete secrets, in the order of the table.
    method RetainSecrets(keep: Secret -> bool)
      requires SecretsOk()
      modifies `pairingSecrets
      ensures SecretsOk() && pairingSecrets == Keep(old(pairingSecrets), keep)
    {
      KeepOk(pairingSecrets, keep);
      var secrets, kept := pairingSecrets, [];
      for i := 0 to |secrets|
        invariant kept == Keep(secrets[..i], keep)
      {
        assert secrets[..i + 1][..i] == secrets[..i];
        if keep(secrets[i]) { kept := kept + [secrets[i]]; }
      }
      assert secrets[..|secrets|] == secrets;
      pairingSecrets := kept;
    }

    // ─── Handshakes ─────────────────────────────────────────────────────────

    method SendHandshakeTo(k: Key)
      requires k in peers
      modifies `peers
      ensures Only(k, With(old(LinkOf(k)), SendHandshake(EnvOf(k), old(peers)[k])))
    {
      var c := peers[k];
      if c.handshakeSent { return; }
      if !c.trust.trusted && !c.trust.mode.LanMode? { return; }
      Put(k, c.(handshakeSent := true));
      Send(k, Handshake(Hello(Some(me))));
    }

    // The replication scope opens a stream only for a trusted peer.
    method OpenExchange(k: Key)
      requires k in peers
      modifies `peers
      ensures Only(k, With(old(LinkOf(k)), ReplicateExchange(old(peers)[k])))
    {
      if peers[k].stream || !peers[k].trust.trusted { return; }
      Put(k, peers[k].(stream := true));
    }

    // applyHandshake up to its first await.
    method ApplyHandshakeFrom(k: Key, h: Hello)
      modifies `peers, `jobs
      ensures Only(k, ApplyHandshake(EnvOf(k), old(LinkOf(k)), h))
    {
      if k !in peers { return; }
      var lanOnly := !peers[k].trust.trusted && peers[k].trust.mode.LanMode?;
      if !peers[k].trust.trusted && !lanOnly { return; }
      if k in revokedKeys {
        Put(k, peers[k].(buffered := Some(h)));
        return;
      }
      if h.identity.None? { return; }
      var id := h.identity.value;
      if id.id == me.id || id.publicKey == me.publicKey { return; }
      jobs := jobs[k := Get(jobs, k, []) + [Attached(lanOnly)]];
      Introduce(k, id, lanOnly);
      assert k in peers by { assert LinkOf(k).conn.Some?; }
      SendHandshakeTo(k);
    }

    method Introduce(k: Key, id: Identity, lanOnly: bool)
      requires k in peers && lanOnly == !peers[k].trust.trusted
      modifies `peers
      ensures Only(k, With(old(LinkOf(k)), Introduced(old(peers)[k], id)))
    {
      var name, complete := peers[k].name, peers[k].trust.complete;
      if id.name != "" { name := id.name; }
      if !lanOnly { complete := true; }
      Put(k, peers[k].(name := name, trust := peers[k].trust.(complete := complete, watchdog := false)));
    }

    method FlushPendingHandshake(k: Key)
      modifies `peers, `jobs
      ensures Only(k, FlushBuffered(EnvOf(k), old(LinkOf(k))))
    {
      if k !in peers { return; }
      if !peers[k].trust.trusted && !peers[k].trust.mode.LanMode? { return; }
      if peers[k].buffered.None? { return; }
      var h := peers[k].buffered.value;
      Put(k, peers[k].(buffered := None));
      ApplyHandshakeFrom(k, h);
    }

    method RebroadcastPeerCompletion(k: Key, code: Code)
      modifies `events
      ensures Only(k, Rebroadcast(old(LinkOf(k)), code))
    {
      if k !in peers || !peers[k].trust.complete { return; }
      if peers[k].name == "" || peers[k].name == CONNECTING { return; }
      EmitEvent(k, TrustPaired(Some(code)));
    }

    // The callback wired by the engine.
    method TrustGranted(k: Key, code: Code)
      requires k in peers
      modifies `peers, `jobs, `events
      ensures Only(k, OnTrustGranted(EnvOf(k), old(LinkOf(k)), code))
    {
      Put(k, peers[k].(code := Some(code)));
      assert k in peers by { assert LinkOf(k).conn.Some?; }
      var hadPending := peers[k].buffered.Some?;
      OpenExchange(k);
      if hadPending {
        FlushPendingHandshake(k);
      } else {
        RebroadcastPeerCompletion(k, code);
      }
    }

    method StoreRow(k: Key, trusted: bool)
      modifies `stored
      ensures Only(k, old(LinkOf(k)).(disk := old(LinkOf(k)).disk.(row := trusted)))
    {
      stored := stored[k := Get(stored, k, BLANK_DISK).(row := trusted)];
    }

    method RemoveJob(k: Key, i: nat)
      requires i < |Get(jobs, k, [])|
      modifies `jobs
      ensures var l := old(LinkOf(k)); Only(k, l.(jobs := l.jobs[..i] + l.jobs[i + 1..]))
    {
      var mine := Get(jobs, k, []);
      jobs := jobs[k := mine[..i] + mine[i + 1..]];
    }

    /** applyHandshake after its database reads: the row, the key, and the event, with the
        code that the record it holds carries by now. */
    method FinishRecord(k: Key, i: nat)
      requires i < |Get(jobs, k, [])|
      modifies `trustedPeerKeys, `jobs, `stored, `events
      ensures Only(k, FinishJob(old(LinkOf(k)), i))
      ensures Get(stored, k, BLANK_DISK).row == !Get(old(jobs), k, [])[i].lanOnly
      ensures k in trustedPeerKeys <==> k in old(trustedPeerKeys) || (!Get(old(jobs), k, [])[i].lanOnly && k !in revokedKeys)
    {
      var mine := Get(jobs, k, []);
      var job := mine[i];
      var code := if job.Orphan? then job.code else if k in peers then peers[k].code else None;
      RemoveJob(k, i);
      StoreRow(k, !job.lanOnly);
      if !job.lanOnly { AddTrusted(k); }
      if job.lanOnly {
        EmitEvent(k, LanDetected);
        return;
      }
      EmitEvent(k, TrustPaired(code));
    }

    // ─── Responses ──────────────────────────────────────────────────────────

    method HandleResponseFrom(k: Key, nonce: Option<Nonce>, mac: Option<Mac>)
      requires SecretsOk()
      modifies `trustedPeerKeys, `revokedKeys, `failedPairings, `unansweredPairings, `peers, `jobs, `stored, `events
      ensures Only(k, HandleResponse(pairingSecrets, EnvOf(k), old(LinkOf(k)), nonce, mac))
    {
      if k !in peers { return; }
      var c := peers[k];
      var alreadyTrusted := c.trust.trusted;
      if !alreadyTrusted && !c.trust.mode.PairingMode? { return; }
      if nonce.None? || mac.None? { return; }
      var idx := FindNonce(c.talk.outstanding, nonce.value);
      if idx == |c.talk.outstanding| {
        if alreadyTrusted { return; }
        RejectPeer(k, NonceMismatch);
        return;
      }
      var e := c.talk.outstanding[idx];
      if mac.value != Mac(e.code, e.nonce) {
        if alreadyTrusted { return; }
        RejectPeer(k, MacMismatch);
        return;
      }
      Put(k, c.(talk := Forget(c.talk, idx)));
      hide Accept, Reject;
      AcceptPeer(k, e.code);
    }

    method RejectPeer(k: Key, reason: FailReason)
      requires k in peers
      modifies `failedPairings, `peers, `events
      ensures Only(k, Reject(EnvOf(k), old(LinkOf(k)), reason))
    {
      RecordPairingFailure(k);
      ClearPairingTimeout(k);
      assert k in peers by { assert LinkOf(k).conn.Some?; }
      Put(k, peers[k].(destroyed := true));
      EmitEvent(k, PairingFailed(reason));
    }

    method AcceptPeer(k: Key, code: Code)
      requires SecretsOk() && k in peers
      modifies `trustedPeerKeys, `revokedKeys, `failedPairings, `unansweredPairings, `peers, `jobs, `stored, `events
      ensures Only(k, Accept(pairingSecrets, EnvOf(k), old(LinkOf(k)), code))
    {
      hide OnTrustGranted, Grant, FreshSecret;
      if peers[k].trust.trusted {
        Reconfirm(k, code);
        return;
      }
      if k in revokedKeys {
        var isFresh := IsFresh(code, revokedKeys[k]);
        if !isFresh {
          Put(k, Disarm(peers[k]).(destroyed := true));
          return;
        }
        Unrevoke(k);
        assert k in peers by { assert LinkOf(k).conn.Some?; }
      }
      GrantTrust(k, code);
    }

    // A trusted peer answered a probe or an old challenge.
    method Reconfirm(k: Key, code: Code)
      requires k in peers
      modifies `peers, `jobs, `events
      ensures Only(k, OnTrustGranted(EnvOf(k), With(old(LinkOf(k)), Disarm(old(peers)[k])), code))
    {
      hide OnTrustGranted;
      ClearPairingTimeout(k);
      assert k in peers by { assert LinkOf(k).conn.Some?; }
      TrustGranted(k, code);
    }

    method IsFresh(code: Code, since: nat) returns (yes: bool)
      requires SecretsOk()
      ensures yes <==> FreshSecret(pairingSecrets, code, since)
    {
      var secret := Lookup(pairingSecrets, CodeId(code));
      yes := secret.Some? && secret.value.createdAt >= since;
    }

    method GrantTrust(k: Key, code: Code)
      requires k in peers
      modifies `failedPairings, `unansweredPairings, `peers, `jobs, `events
      ensures Only(k, Grant(EnvOf(k), old(LinkOf(k)), code))
    {
      hide OnTrustGranted;
      Put(k, peers[k].(trust := peers[k].trust.(trusted := true, watchdog := false, verified := true)));
      ClearLadders(k);
      EmitEvent(k, Verified(code));
      assert k in peers by { assert LinkOf(k).conn.Some?; }
      TrustGranted(k, code);
      if k in peers { SendHandshakeTo(k); }
    }

    // ─── The LAN tier and the user ──────────────────────────────────────────

    // maybeAutoTrustLanPeer once the setting is known.
    method SettleLanRecord(k: Key, enabled: bool)
      modifies `peers, `jobs, `events
      ensures Only(k, LanSettled(EnvOf(k), old(LinkOf(k)), enabled))
    {
      if k !in peers || !peers[k].lanCheck { return; }
      var c := peers[k].(lanCheck := false);
      if !enabled {
        Put(k, c);
        return;
      }
      if c.trust.mode.PairingMode? { c := c.(trust := c.trust.(mode := LanMode, watchdog := false)); }
      Put(k, c);
      hide FlushBuffered, SendHandshake;
      assert k in peers by { assert LinkOf(k).conn.Some?; }
      Greet(k);
      EmitEvent(k, LanDetected);
    }

    // The handshake goes out, and what the peer sent before is applied.
    method Greet(k: Key)
      requires k in peers
      modifies `peers, `jobs
      ensures var l := old(LinkOf(k)); Only(k, FlushBuffered(EnvOf(k), With(l, SendHandshake(EnvOf(k), l.conn.value))))
    {
      hide FlushBuffered, SendHandshake;
      SendHandshakeTo(k);
      FlushPendingHandshake(k);
    }

    method ConfirmLanRecord(k: Key)
      modifies `trustedPeerKeys, `peers, `jobs, `events
      ensures Only(k, ConfirmLanPeer(EnvOf(k), old(LinkOf(k))))
    {
      if k !in peers || k in revokedKeys { return; }
      if peers[k].trust.trusted { return; }
      hide FlushBuffered, SendHandshake, ReplicateExchange;
      Put(k, peers[k].(trust := peers[k].trust.(mode := DirectMode, trusted := true, watchdog := false, confirmed := true)));
      AddTrusted(k);
      assert k in peers by { assert LinkOf(k).conn.Some?; }
      Welcome(k);
    }

    // A confirmed peer gets the handshake, the exchange and what it sent before, and is
    // announced.
    method Welcome(k: Key)
      requires k in peers
      modifies `peers, `jobs, `events
      ensures var l := old(LinkOf(k));
        var c := ReplicateExchange(SendHandshake(EnvOf(k), l.conn.value));
        Only(k, Emit(FlushBuffered(EnvOf(k), With(l, c)), TrustPaired(c.code)))
    {
      hide FlushBuffered;
      var code := peers[k].code;
      SendHandshakeTo(k);
      assert k in peers by { assert LinkOf(k).conn.Some?; }
      OpenExchange(k);
      FlushPendingHandshake(k);
      EmitEvent(k, TrustPaired(code));
    }

    // ─── The router ─────────────────────────────────────────────────────────

    method GateSyncMessage(k: Key, kind: SyncKind, library: string) returns (open: bool)
      modifies `peers, `syncDeniedLast
      ensures var l := old(LinkOf(k)); var after := ReceiveSync(EnvOf(k), l, kind, library);
        && Only(k, after.(events := l.events))
        && (open <==> after.events == l.events + [SyncDispatched(kind, library)])
        && (!open <==> after.events == l.events)
    {
      open := false;
      if k !in peers { return; }
      if !peers[k].trust.trusted {
        if peers[k].trust.mode.LanMode? { DenySync(k, kind, library); }
        return;
      }
      if LibraryBound(kind) && library != "" && library !in EnvOf(k).partnerOf { return; }
      open := true;
    }

    method DenySync(k: Key, kind: SyncKind, library: string)
      requires k in peers
      modifies `peers, `syncDeniedLast
      ensures Only(k, SendSyncDenied(EnvOf(k), old(LinkOf(k)), kind, library))
    {
      var denied: map<(SyncKind, string), nat> := Get(syncDeniedLast, k, map[]);
      var last := if (kind, library) in denied then denied[(kind, library)] else 0;
      if now - last < DENIED_WINDOW { return; }
      RecordDenial(k, kind, library);
      assert k in peers by { assert LinkOf(k).conn.Some?; }
      Send(k, Sync(DeniedNotice, library));
    }

    method RecordDenial(k: Key, kind: SyncKind, library: string)
      modifies `syncDeniedLast
      ensures Only(k, old(LinkOf(k)).(deniedAt := old(LinkOf(k)).deniedAt[(kind, library) := now]))
    {
      var denied: map<(SyncKind, string), nat> := Get(syncDeniedLast, k, map[]);
      denied := denied[(kind, library) := now];
      syncDeniedLast := syncDeniedLast[k := denied];
    }

    method Route(k: Key, m: Msg)
      requires SecretsOk()
      modifies `pairingSecrets, `trustedPeerKeys, `revokedKeys, `failedPairings, `unansweredPairings, `peers, `syncDeniedLast,
        `jobs, `stored, `revocations, `events
      ensures Only(k, HandlePeerMessage(old(pairingSecrets), EnvOf(k), old(LinkOf(k)), m))
      ensures SecretsOk() && pairingSecrets == SecretsAfter(old(pairingSecrets), m, now)
    {
      hide HandleChallenge, HandleResponse, ReceiveHandshake, ReceiveOffer, ReceiveSync, RevokeKey, Destroy, LinkOf, Only;
      match m
      case Challenge(id, nonce) => HandleChallengeFrom(k, id, nonce);
      case Response(nonce, mac) => HandleResponseFrom(k, nonce, mac);
      case Handshake(h) => ReceiveHandshakeFrom(k, h);
      case TransferOffer => ReceiveOfferFrom(k);
      case Sync(kind, library) => ReceiveSyncFrom(k, kind, library);
      case DeviceRemoved => RemovedByPeer(k);
    }

    method ReceiveHandshakeFrom(k: Key, h: Hello)
      modifies `peers, `jobs
      ensures Only(k, ReceiveHandshake(EnvOf(k), old(LinkOf(k)), h))
    {
      hide ApplyHandshake;
      if k !in peers { return; }
      if (!peers[k].trust.trusted && !peers[k].trust.mode.LanMode?) || k in revokedKeys {
        Put(k, peers[k].(buffered := Some(h)));
        return;
      }
      ApplyHandshakeFrom(k, h);
    }

    method ReceiveOfferFrom(k: Key)
      modifies `events
      ensures Only(k, ReceiveOffer(old(LinkOf(k))))
      ensures events == if k in peers && peers[k].trust.trusted then old(events)[k := Get(old(events), k, []) + [OfferAccepted]] else old(events)
    {
      if k !in peers || !peers[k].trust.trusted { return; }
      EmitEvent(k, OfferAccepted);
    }

    method ReceiveSyncFrom(k: Key, kind: SyncKind, library: string)
      modifies `peers, `syncDeniedLast, `events
      ensures Only(k, ReceiveSync(EnvOf(k), old(LinkOf(k)), kind, library))
    {
      var open := GateSyncMessage(k, kind, library);
      hide ReceiveSync;
      if open { EmitEvent(k, SyncDispatched(kind, library)); }
    }

    // The peer removed us: its key is revoked, and codes registered before are dropped.
    method RemovedByPeer(k: Key)
      requires SecretsOk()
      modifies `pairingSecrets, `revokedKeys, `trustedPeerKeys, `stored, `revocations, `peers
      ensures Only(k, Destroy(RevokeKey(old(LinkOf(k)), now)))
      ensures SecretsOk() && pairingSecrets == Keep(old(pairingSecrets), RegisteredSince(now))
      ensures forall s :: s in pairingSecrets <==> s in old(pairingSecrets) && s.createdAt >= now
    {
      KeepOk(pairingSecrets, RegisteredSince(now));
      RecordRevocation(k);
      if k in peers { Put(k, peers[k].(destroyed := true)); }
      RetainSecrets(RegisteredSince(now));
    }

    // ─── Timers and connections ─────────────────────────────────────────────

    method ExpireWatchdog(k: Key)
      modifies `unansweredPairings, `peers
      ensures Only(k, WatchdogFires(EnvOf(k), old(LinkOf(k))))
    {
      if k !in peers || !peers[k].trust.watchdog { return; }
      ClearPairingTimeout(k);
      assert k in peers by { assert LinkOf(k).conn.Some?; }
      if peers[k].trust.trusted || peers[k].trust.complete { return; }
      if k in sitePeers || k in tunnelPeers { return; }
      RecordUnansweredPairing(k);
      assert k in peers by { assert LinkOf(k).conn.Some?; }
      Put(k, peers[k].(destroyed := true));
    }

    // The record of k, if any, leaves the map; continuations started on it keep it.
    method Unlist(k: Key)
      modifies `peers, `jobs
      ensures Only(k, Hangup(old(LinkOf(k))))
    {
      if k !in peers { return; }
      jobs := jobs[k := Orphans(Get(jobs, k, []), peers[k].code)];
      peers := peers - {k};
    }

    method OpenRecord(k: Key, side: Side, lan: bool)
      modifies `peers, `jobs
      ensures Only(k, OpenConnection(old(LinkOf(k)), side, lan))
    {
      var direct := IsTrusted(k);
      Unlist(k);
      var mode := if direct then DirectMode else if lan then LanMode else PairingMode;
      var trust := Trust(mode, direct, false, false, direct, false, false);
      Put(k, Conn(side, trust, Talk([], [], 0, []), None, None, CONNECTING, false, false, false, false, Get(revocations, k, 0)));
      if direct {
        assert k in peers by { assert LinkOf(k).conn.Some?; }
        OpenExchange(k);
      }
    }

    method GreetOrChallenge(k: Key)
      modifies `failedPairings, `unansweredPairings, `peers
      ensures Only(k, ChannelReady(pairingSecrets, EnvOf(k), old(LinkOf(k))))
    {
      hide SendChallenges;
      if k !in peers { return; }
      if peers[k].trust.trusted || peers[k].trust.mode.LanMode? {
        SendHandshakeTo(k);
      } else if k in sitePeers {
      } else if k in tunnelPeers {
      } else {
        SendChallengesTo(k, false);
      }
    }

    method SetLanCheck(k: Key)
      modifies `peers
      ensures Only(k, LanHeard(old(LinkOf(k))))
    {
      if k !in peers || peers[k].trust.trusted || k in revokedKeys || peers[k].trust.mode.DirectMode? { return; }
      Put(k, peers[k].(lanCheck := true));
    }

    method SendRemoved(k: Key)
      modifies `peers
      ensures Only(k, NotifyRemoved(old(LinkOf(k))))
    {
      if k in peers { Send(k, DeviceRemoved); }
    }

    method StoreWrite(k: Key)
      modifies `stored
      ensures Only(k, FlushWrite(old(LinkOf(k))))
    {
      var d := Get(stored, k, BLANK_DISK);
      if d.writes != [] { stored := stored[k := d.(savedRevocation := d.writes[0], writes := d.writes[1..])]; }
    }

    // ─── What the event loop calls ──────────────────────────────────────────

    // Each call below runs one of the handlers above in a state left by earlier calls.

    /** A message.  Only one thing it can do ends a revocation: answer a challenge of an
        untrusted peer, correctly, for a code registered since. */
    method HandleMessage(k: Key, m: Msg)
      requires Valid()
      modifies `pairingSecrets, `trustedPeerKeys, `revokedKeys, `failedPairings, `unansweredPairings, `peers, `syncDeniedLast,
        `jobs, `stored, `revocations, `events
      ensures Only(k, HandlePeerMessage(old(pairingSecrets), EnvOf(k), old(LinkOf(k)), m))
      ensures pairingSecrets == SecretsAfter(old(pairingSecrets), m, now)
      ensures forall s :: s in pairingSecrets <==> s in old(pairingSecrets) && (m.DeviceRemoved? ==> s.createdAt >= now)
      ensures Valid() && OthersStillRevoked(k)
      ensures var l := old(LinkOf(k));
        l.revokedAt.Some? ==> (LinkOf(k).revokedAt.None? <==> ReAdmits(old(pairingSecrets), l, m, l.revokedAt.value))
    {
      hide LinkOk, ReAdmits, HandlePeerMessage, LinkOf;
      KeepOk(pairingSecrets, RegisteredSince(now));
      ghost var after := HandlePeerMessage(pairingSecrets, EnvOf(k), LinkOf(k), m);
      MessageOk(pairingSecrets, EnvOf(k), LinkOf(k), m);
      Route(k, m);
      KeepsValid(k, after);
    }

    method SignalingReady(k: Key)
      requires Valid()
      modifies `failedPairings, `unansweredPairings, `peers
      ensures Only(k, ChannelReady(pairingSecrets, EnvOf(k), old(LinkOf(k))))
      ensures Valid() && StillRevoked()
    {
      StepOk(pairingSecrets, EnvOf(k), LinkOf(k), Ready);
      hide LinkOk, ChannelReady;
      GreetOrChallenge(k);
      KeepsValid(k, ChannelReady(pairingSecrets, EnvOf(k), old(LinkOf(k))));
    }

    method PairingTimedOut(k: Key)
      requires Valid()
      modifies `unansweredPairings, `peers
      ensures Only(k, WatchdogFires(EnvOf(k), old(LinkOf(k))))
      ensures Valid() && StillRevoked()
    {
      StepOk(pairingSecrets, EnvOf(k), LinkOf(k), Watchdog);
      hide LinkOk, WatchdogFires;
      ExpireWatchdog(k);
      KeepsValid(k, WatchdogFires(EnvOf(k), old(LinkOf(k))));
    }

    method HeardOnLan(k: Key)
      requires Valid()
      modifies `peers
      ensures Only(k, LanHeard(old(LinkOf(k))))
      ensures Valid() && StillRevoked()
    {
      StepOk(pairingSecrets, EnvOf(k), LinkOf(k), Heard);
      hide LinkOk, LanHeard;
      SetLanCheck(k);
      KeepsValid(k, LanHeard(old(LinkOf(k))));
    }

    method SettleLan(k: Key, enabled: bool)
      requires Valid()
      modifies `peers, `jobs, `events
      ensures Only(k, LanSettled(EnvOf(k), old(LinkOf(k)), enabled))
      ensures Valid() && StillRevoked()
    {
      LanSettledOk(EnvOf(k), LinkOf(k), enabled);
      hide LinkOk, LanSettled;
      SettleLanRecord(k, enabled);
      KeepsValid(k, LanSettled(EnvOf(k), old(LinkOf(k)), enabled));
    }

    method ConfirmLan(k: Key)
      requires Valid()
      modifies `trustedPeerKeys, `peers, `jobs, `events
      ensures Only(k, ConfirmLanPeer(EnvOf(k), old(LinkOf(k))))
      ensures Valid() && StillRevoked()
    {
      ConfirmOk(EnvOf(k), LinkOf(k));
      hide LinkOk, ConfirmLanPeer;
      ConfirmLanRecord(k);
      KeepsValid(k, ConfirmLanPeer(EnvOf(k), old(LinkOf(k))));
    }

    /** The database answered a handshake's reads.  A key revoked meanwhile is not trusted
        again, although the row is written and the pairing announced. */
    method FinishApply(k: Key, i: nat)
      requires Valid() && i < |Get(jobs, k, [])|
      modifies `trustedPeerKeys, `jobs, `stored, `events
      ensures Only(k, FinishJob(old(LinkOf(k)), i))
      ensures Get(stored, k, BLANK_DISK).row == !Get(old(jobs), k, [])[i].lanOnly
      ensures k in trustedPeerKeys <==> k in old(trustedPeerKeys) || (!Get(old(jobs), k, [])[i].lanOnly && k !in revokedKeys)
      ensures Valid() && StillRevoked()
    {
      FinishOk(LinkOf(k), i);
      hide LinkOk, FinishJob;
      FinishRecord(k, i);
      KeepsValid(k, FinishJob(old(LinkOf(k)), i));
    }

    method Revoke(k: Key)
      requires Valid()
      modifies `revokedKeys, `trustedPeerKeys, `stored, `revocations
      ensures Only(k, RevokeKey(old(LinkOf(k)), now))
      ensures Valid() && StillRevoked() && k in revokedKeys && !IsTrusted(k)
    {
      StepOk(pairingSecrets, EnvOf(k), LinkOf(k), Input.Revoke);
      hide LinkOk;
      RecordRevocation(k);
      KeepsValid(k, RevokeKey(old(LinkOf(k)), now));
    }

    method TellRemoved(k: Key)
      requires Valid()
      modifies `peers
      ensures Only(k, NotifyRemoved(old(LinkOf(k))))
      ensures Valid() && StillRevoked()
    {
      StepOk(pairingSecrets, EnvOf(k), LinkOf(k), Notify);
      hide LinkOk, NotifyRemoved;
      SendRemoved(k);
      KeepsValid(k, NotifyRemoved(old(LinkOf(k))));
    }

    // A queued write of a revocation reached the disk.
    method WriteDone(k: Key)
      requires Valid()
      modifies `stored
      ensures Only(k, FlushWrite(old(LinkOf(k))))
      ensures Valid() && StillRevoked()
    {
      StepOk(pairingSecrets, EnvOf(k), LinkOf(k), Flush);
      hide LinkOk, FlushWrite;
      StoreWrite(k);
      KeepsValid(k, FlushWrite(old(LinkOf(k))));
    }

    // The devices table was written for another reason: a confirmation, a removal.
    method RowWritten(k: Key, trusted: bool)
      requires Valid()
      modifies `stored
      ensures Only(k, old(LinkOf(k)).(disk := old(LinkOf(k)).disk.(row := trusted)))
      ensures Valid() && StillRevoked()
    {
      ghost var after := Next(pairingSecrets, EnvOf(k), LinkOf(k), WriteRow(trusted));
      StepOk(pairingSecrets, EnvOf(k), LinkOf(k), WriteRow(trusted));
      hide LinkOk;
      StoreRow(k, trusted);
      KeepsValid(k, after);
    }

    /** A connection.  It counts as trusted only if its key is and was not revoked. */
    method OnConnection(k: Key, side: Side, lan: bool)
      requires Valid()
      modifies `peers, `jobs
      ensures Only(k, OpenConnection(old(LinkOf(k)), side, lan))
      ensures Valid() && StillRevoked()
      ensures k in peers && (peers[k].trust.trusted <==> k !in revokedKeys && k in trustedPeerKeys)
    {
      StepOk(pairingSecrets, EnvOf(k), LinkOf(k), Open(side, lan));
      hide LinkOk;
      OpenRecord(k, side, lan);
      assert LinkOf(k).conn.Some?;
      hide OpenConnection;
      KeepsValid(k, OpenConnection(old(LinkOf(k)), side, lan));
    }

    method OnClose(k: Key)
      requires Valid()
      modifies `peers, `jobs
      ensures Only(k, Hangup(old(LinkOf(k))))
      ensures Valid() && StillRevoked()
    {
      StepOk(pairingSecrets, EnvOf(k), LinkOf(k), Close);
      hide LinkOk, Hangup;
      Unlist(k);
      KeepsValid(k, Hangup(old(LinkOf(k))));
    }

    // A call about all keys keeps the invariants if it leaves every revocation alone.
    twostate lemma AllKeepValid()
      requires SecretsOk() && forall k: Key :: LinkOk(LinkOf(k)) && LinkOf(k).revokedAt == old(LinkOf(k)).revokedAt
      ensures Valid() && StillRevoked()
    {
      forall k: Key | k in old(revokedKeys) ensures k in revokedKeys && !IsTrusted(k) {
        assert LinkOf(k).revokedAt == old(LinkOf(k)).revokedAt;
      }
    }

    /** sendChallengesToAll, for a new code of ours or on a turn of the pairing loop. */
    method SendChallengesToEveryone(force: bool)
      requires Valid()
      modifies `failedPairings, `unansweredPairings, `peers
      ensures forall k: Key :: LinkOf(k) == SendChallengesToAll(pairingSecrets, EnvOf(k), old(LinkOf(k)), force)
      ensures Valid() && StillRevoked()
    {
      forall k: Key ensures var m := SendChallengesToAll(pairingSecrets, EnvOf(k), LinkOf(k), force);
        LinkOk(m) && m.revokedAt == LinkOf(k).revokedAt
      {
        ChallengingOk(pairingSecrets, EnvOf(k), LinkOf(k), Code(""), force);
      }
      hide LinkOk, SendChallengesToAll, LinkOf;
      ChallengeEveryone(force);
      AllKeepValid();
    }

    /** rotateHostPairingCode: every code is dropped, joiner codes included, and a fresh
        permanent one is generated and put to every untrusted or revoked peer. */
    method RotateHostCode(code: Code)
      requires Valid()
      modifies `pairingSecrets, `failedPairings, `unansweredPairings, `peers
      ensures pairingSecrets == [Secret(code, Host, now, 0)]
      ensures forall k: Key :: LinkOf(k) == SendChallengesToAll(pairingSecrets, EnvOf(k), old(LinkOf(k)), false)
      ensures Valid() && StillRevoked()
    {
      pairingSecrets := [];
      SetSecret(Secret(code, Host, now, 0));
      SendChallengesToEveryone(false);
    }

    // The periodic clean-up.
    method ExpireSecrets()
      requires Valid()
      modifies `pairingSecrets
      ensures Valid() && pairingSecrets == Keep(old(pairingSecrets), Unexpired(now))
      ensures forall s :: s in pairingSecrets <==> s in old(pairingSecrets) && (s.expiresAt == 0 || now < s.expiresAt)
    {
      KeepOk(pairingSecrets, Unexpired(now));
      RetainSecrets(Unexpired(now));
    }

    // A pairing that settled drops the code it entered; a host code is never dropped.
    method DropJoinerCode(code: Code)
      requires Valid()
      modifies `pairingSecrets
      ensures Valid() && pairingSecrets == Keep(old(pairingSecrets), NotJoined(code))
      ensures forall s :: s in pairingSecrets <==> s in old(pairingSecrets) && !(s.code == code && s.role == Joiner)
    {
      KeepOk(pairingSecrets, NotJoined(code));
      RetainSecrets(NotJoined(code));
    }

    /** removeDevice: the row goes, the key is revoked, the codes are rotated, and then the
        peer is told over its open connection, which is closed later. */
    method RemoveDevice(k: Key, code: Code)
      requires Valid()
      modifies `pairingSecrets, `revokedKeys, `trustedPeerKeys, `stored, `revocations, `failedPairings, `unansweredPairings, `peers
      ensures Valid() && StillRevoked() && k in revokedKeys && !IsTrusted(k)
      ensures pairingSecrets == [Secret(code, Host, now, 0)]
      ensures var l := old(LinkOf(k));
        LinkOf(k) == NotifyRemoved(SendChallengesToAll(pairingSecrets, EnvOf(k), RevokeKey(l.(disk := l.disk.(row := false)), now), false))
      ensures forall j: Key :: j != k ==> LinkOf(j) == SendChallengesToAll(pairingSecrets, EnvOf(j), old(LinkOf(j)), false)
    {
      hide SendChallengesToAll, NotifyRemoved, LinkOk, LinkOf;
      RowWritten(k, false);
      Revoke(k);
      RotateHostCode(code);
      TellRemoved(k);
    }

    method RegisterJoinerCode(up: Codes.Upper, raw: string) returns (clean: Option<string>)
      requires Valid()
      modifies `pairingSecrets, `failedPairings, `unansweredPairings, `peers
      ensures clean == Codes.NormalizePairingCode(up, raw)
      ensures clean.None? ==> pairingSecrets == old(pairingSecrets) && forall k: Key :: LinkOf(k) == old(LinkOf(k))
      ensures clean.Some? ==>
        && pairingSecrets == Store(old(pairingSecrets), Joined(Code(clean.value), now))
        && forall k: Key :: LinkOf(k) == CodeEntered(pairingSecrets, EnvOf(k), old(LinkOf(k)), Code(clean.value))
      ensures Valid() && StillRevoked()
    {
      clean := EnterCode(up, raw);
      hide LinkOk, CodeEntered, LinkOf;
      if clean.Some? {
        forall k: Key ensures LinkOk(LinkOf(k)) && LinkOf(k).revokedAt == old(LinkOf(k)).revokedAt {
          ChallengingOk(pairingSecrets, EnvOf(k), old(LinkOf(k)), Code(clean.value), true);
        }
      }
      AllKeepValid();
    }
  }

  method FindNonce(outstanding: seq<Entry>, n: Nonce) returns (i: nat)
    ensures i == IndexOf(outstanding, n)
  {
    i := 0;
    while i < |outstanding| && outstanding[i].nonce != n
      invariant 0 <= i <= |outstanding|
      invariant forall j :: 0 <= j < i ==> outstanding[j].nonce != n
    {
      i := i + 1;
    }
  }
}
