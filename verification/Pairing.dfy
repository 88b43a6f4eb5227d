/** Everything one engine knows about one peer key, and what each handler of the
    pairing protocol does to it.  Every handler below touches the state of a single
    key only, so an engine is a family of such links plus its list of secrets. */
module Pairing {
  import opened Options

  // Which end of a connection drew a nonce.
  datatype Side = Left | Right

  datatype Code = Code(text: string)

  // The hash of a code and the keyed hash of a nonce are ideal: distinct arguments
  // never collide, which is what a free constructor says.
  datatype CodeId = CodeId(code: Code)
  datatype Nonce = Drawn(side: Side, serial: nat) | NotSixteenBytes(text: string)
  datatype Mac = Mac(code: Code, nonce: Nonce) | OtherMac(text: string)

  datatype Role = Host | Joiner
  datatype Secret = Secret(code: Code, role: Role, createdAt: nat, expiresAt: nat)

  datatype Identity = Identity(id: string, publicKey: string, name: string)
  datatype Hello = Hello(identity: Option<Identity>)

  datatype SyncKind = Index | Delete | Verify | VerifyResult | Invite | InviteAccept | InviteDecline | Remove | DeniedNotice

  // A field that is absent, or not a string, in the JSON message is None.
  datatype Msg =
    | Challenge(codeId: Option<CodeId>, nonce: Option<Nonce>)
    | Response(answered: Option<Nonce>, mac: Option<Mac>)
    | Handshake(hello: Hello)
    | TransferOffer
    | Sync(kind: SyncKind, library: string)
    | DeviceRemoved

  datatype FailReason = NonceMismatch | MacMismatch

  datatype Event =
    | Verified(code: Code)
    | TrustPaired(via: Option<Code>)
    | LanDetected
    | PairingFailed(reason: FailReason)
    | OfferAccepted
    | SyncDispatched(sync: SyncKind, library: string)

  datatype Mode = PairingMode | LanMode | DirectMode

  datatype Entry = Entry(nonce: Nonce, code: Code)
  datatype Unanswered = Unanswered(codeId: CodeId, nonce: Nonce)

  /** Trust tier and watchdog.  The last three fields are history: they record why the
      peer is trusted and no handler reads them. */
  datatype Trust = Trust(mode: Mode, trusted: bool, complete: bool, watchdog: bool,
                         openedTrusted: bool, verified: bool, confirmed: bool)

  /** The challenge exchange: nonces we await answers for, challenges we could not answer
      yet, how many nonces were drawn, and messages handed to the signaling channel. */
  datatype Talk = Talk(outstanding: seq<Entry>, pending: seq<Unanswered>, drawn: nat, out: seq<Msg>)

  /** The record kept for a live connection.  `openedAfter` is history: how many
      revocations of the key preceded it. */
  datatype Conn = Conn(
    side: Side, trust: Trust, talk: Talk, buffered: Option<Hello>, code: Option<Code>, name: string,
    handshakeSent: bool, stream: bool, destroyed: bool, lanCheck: bool, openedAfter: nat)

  datatype Backoff = Backoff(count: nat, until: nat)
  datatype Ladders = Ladders(failed: Option<Backoff>, unanswered: Option<Backoff>)

  /** The part of applyHandshake that runs after its database reads return.  It announces
      the code its own record carries by then: the live record's, or the last code of a
      record whose connection has closed. */
  datatype Job = Attached(lanOnly: bool) | Orphan(lanOnly: bool, code: Option<Code>)

  /** The stored revocation, the writes queued for it, and whether the devices table
      holds a trusted row for the key. */
  datatype Disk = Disk(row: bool, savedRevocation: Option<nat>, writes: seq<Option<nat>>)

  datatype Link = Link(
    conn: Option<Conn>, revokedAt: Option<nat>, trustedKey: bool, ladders: Ladders,
    deniedAt: map<(SyncKind, string), nat>, jobs: seq<Job>, disk: Disk,
    revocations: nat, events: seq<Event>)

  /** What a handler reads from its surroundings: the clock, our own identity, whether the
      peer is a site session or a tunnel-code peer, the libraries it is a partner of. */
  datatype Env = Env(now: nat, me: Identity, site: bool, tunnel: bool, partnerOf: set<string>)

  const CONNECTING := "Connecting..."
  const MAX_PENDING := 16
  const DENIED_WINDOW := 10000
  const PAIRING_TTL := 900000

  // ─── Secrets ──────────────────────────────────────────────────────────────

  predicate Live(s: Secret, now: nat) {
    s.expiresAt == 0 || now < s.expiresAt
  }

  // The table of secrets is keyed by code.
  ghost predicate DistinctSecrets(s: seq<Secret>) {
    forall i, j | 0 <= i < j < |s| :: s[i].code != s[j].code
  }

  predicate Usable(secrets: seq<Secret>, id: CodeId, now: nat) {
    exists s | s in secrets :: CodeId(s.code) == id && Live(s, now)
  }

  predicate FreshSecret(secrets: seq<Secret>, code: Code, since: nat) {
    exists s | s in secrets :: s.code == code && s.createdAt >= since
  }

  // ─── Backoff ladders ──────────────────────────────────────────────────────

  function Pow2(n: nat): nat {
    if n == 0 then 1 else 2 * Pow2(n - 1)
  }

  function Climb(b: Option<Backoff>, now: nat, first: nat, cap: nat): Option<Backoff> {
    var count := if b.Some? then b.value.count else 0;
    Some(Backoff(count + 1, now + Min(first * Pow2(count), cap)))
  }

  predicate Active(b: Option<Backoff>, now: nat) {
    b.Some? && b.value.until > now
  }

  function RecordFailure(b: Ladders, now: nat): Ladders {
    b.(failed := Climb(b.failed, now, 5000, 300000))
  }

  function RecordUnanswered(b: Ladders, now: nat): Ladders {
    b.(unanswered := Climb(b.unanswered, now, 15000, 1800000))
  }

  // ─── Trust store ──────────────────────────────────────────────────────────

  predicate IsTrustedPublicKey(l: Link) {
    l.revokedAt.None? && l.trustedKey
  }

  function AddTrustedKey(l: Link): Link {
    if l.revokedAt.Some? then l else l.(trustedKey := true)
  }

  function Queue(d: Disk, write: Option<nat>): Disk {
    d.(writes := d.writes + [write])
  }

  function RevokeKey(l: Link, now: nat): Link {
    l.(revokedAt := Some(now), trustedKey := false, disk := Queue(l.disk, Some(now)), revocations := l.revocations + 1)
  }

  function UnrevokeKey(l: Link): Link {
    l.(revokedAt := None, disk := Queue(l.disk, None))
  }

  // ─── Connection-record helpers ────────────────────────────────────────────

  function With(l: Link, c: Conn): Link {
    l.(conn := Some(c))
  }

  function Say(c: Conn, m: Msg): Conn {
    c.(talk := c.talk.(out := c.talk.out + [m]))
  }

  function Disarm(c: Conn): Conn {
    c.(trust := c.trust.(watchdog := false))
  }

  function Arm(env: Env, c: Conn): Conn {
    if c.trust.trusted || c.trust.complete || env.tunnel then c else c.(trust := c.trust.(watchdog := true))
  }

  predicate LanOnly(c: Conn) {
    !c.trust.trusted && c.trust.mode.LanMode?
  }

  // Identity exchange is open to trusted peers and to peers recognized on the LAN.
  predicate Recognized(c: Conn) {
    c.trust.trusted || c.trust.mode.LanMode?
  }

  function SendHandshake(env: Env, c: Conn): Conn {
    if c.handshakeSent || !Recognized(c) then c
    else Say(c.(handshakeSent := true), Handshake(Hello(Some(env.me))))
  }

  function ReplicateExchange(c: Conn): Conn {
    if c.trust.trusted then c.(stream := true) else c
  }

  // ─── Challenges ───────────────────────────────────────────────────────────

  predicate Challenged(t: Talk, code: Code) {
    exists e | e in t.outstanding :: e.code == code
  }

  // A new outstanding entry for every live secret not yet challenged, in order.
  function Missing(secrets: seq<Secret>, now: nat, side: Side, t: Talk): seq<Entry> {
    if secrets == [] then []
    else
      var before := Missing(secrets[..|secrets| - 1], now, side, t);
      var s := secrets[|secrets| - 1];
      if Challenged(t, s.code) || !Live(s, now) then before
      else before + [Entry(Drawn(side, t.drawn + |before|), s.code)]
  }

  function ChallengeFor(e: Entry): Msg {
    Challenge(Some(CodeId(e.code)), Some(e.nonce))
  }

  function ChallengesFor(entries: seq<Entry>): seq<Msg> {
    if entries == [] then []
    else ChallengesFor(entries[..|entries| - 1]) + [ChallengeFor(entries[|entries| - 1])]
  }

  function Issue(t: Talk, entries: seq<Entry>): Talk {
    t.(outstanding := t.outstanding + entries, drawn := t.drawn + |entries|, out := t.out + ChallengesFor(entries))
  }

  function ChallengeNow(secrets: seq<Secret>, env: Env, c: Conn): Conn {
    var entries := Missing(secrets, env.now, c.side, c.talk);
    if entries == [] then c else Arm(env, c.(talk := Issue(c.talk, entries)))
  }

  function SendChallenges(secrets: seq<Secret>, env: Env, l: Link, force: bool): Link {
    if l.conn.None? then l
    else
      var c := l.conn.value;
      if (c.trust.trusted && l.revokedAt.None?) || LanOnly(c) || Active(l.ladders.failed, env.now) then l
      else if !force && Active(l.ladders.unanswered, env.now) then l.(ladders := l.ladders.(failed := None))
      else l.(ladders := Ladders(None, None), conn := Some(ChallengeNow(secrets, env, c)))
  }

  function Remember(t: Talk, u: Unanswered): Talk {
    var grown := t.pending + [u];
    t.(pending := if |grown| > MAX_PENDING then grown[1..] else grown)
  }

  // Receiving a challenge starts the watchdog, except towards a site session or
  // towards a suppressed peer whose code we do not hold.
  function NoteChallenge(env: Env, l: Link, usable: bool): Link
    requires l.conn.Some?
  {
    if env.site || (!usable && Active(l.ladders.unanswered, env.now)) then l
    else With(l, Arm(env, l.conn.value)).(ladders := l.ladders.(unanswered := None))
  }

  function SetAside(env: Env, l: Link, u: Unanswered): Link
    requires l.conn.Some?
  {
    var noted := NoteChallenge(env, l, false);
    With(noted, noted.conn.value.(talk := Remember(noted.conn.value.talk, u)))
  }

  function Answer(secrets: seq<Secret>, env: Env, l: Link, code: Code, nonce: Nonce): Link
    requires l.conn.Some?
  {
    var noted := NoteChallenge(env, l, true);
    if nonce.NotSixteenBytes? then noted
    else
      var answered := With(noted, Say(noted.conn.value, Response(Some(nonce), Some(Mac(code, nonce)))));
      if l.conn.value.talk.outstanding == [] && !l.conn.value.trust.trusted && !env.site
      then SendChallenges(secrets, env, answered, true)
      else answered
  }

  function HandleChallenge(secrets: seq<Secret>, env: Env, l: Link, id: Option<CodeId>, nonce: Option<Nonce>): Link {
    if l.conn.None? || LanOnly(l.conn.value) then l
    else if l.revokedAt.Some? && !(id.Some? && Usable(secrets, id.value, env.now)) then l
    else if id.None? || nonce.None? then l
    else if Usable(secrets, id.value, env.now) then Answer(secrets, env, l, id.value.code, nonce.value)
    else SetAside(env, l, Unanswered(id.value, nonce.value))
  }

  // Handle again, in order of arrival, challenges that were set aside.
  function HandleAll(secrets: seq<Secret>, env: Env, l: Link, todo: seq<Unanswered>): Link {
    if todo == [] then l
    else
      var u := todo[|todo| - 1];
      HandleChallenge(secrets, env, HandleAll(secrets, env, l, todo[..|todo| - 1]), Some(u.codeId), Some(u.nonce))
  }

  function TakePending(c: Conn): Conn {
    c.(talk := c.talk.(pending := []))
  }

  function FlushPending(secrets: seq<Secret>, env: Env, l: Link): Link
    requires l.conn.Some?
  {
    HandleAll(secrets, env, With(l, TakePending(l.conn.value)), l.conn.value.talk.pending)
  }

  function SendChallengesToAll(secrets: seq<Secret>, env: Env, l: Link, force: bool): Link {
    if l.conn.None? || LanOnly(l.conn.value) then l
    else
      var flushed := FlushPending(secrets, env, l);
      if !l.conn.value.trust.trusted || l.revokedAt.Some? then SendChallenges(secrets, env, flushed, force) else flushed
  }

  function Probe(l: Link, code: Code): Link {
    if l.conn.None? || !l.conn.value.trust.trusted || l.revokedAt.Some? || Challenged(l.conn.value.talk, code) then l
    else
      var c := l.conn.value;
      With(l, c.(talk := Issue(c.talk, [Entry(Drawn(c.side, c.talk.drawn), code)])))
  }

  // registerJoinerCode, once the secret is in `secrets`.
  function CodeEntered(secrets: seq<Secret>, env: Env, l: Link, code: Code): Link {
    var wasTrusted := l.conn.Some? && l.conn.value.trust.trusted && l.revokedAt.None?;
    var told := SendChallengesToAll(secrets, env, l.(ladders := l.ladders.(unanswered := None)), true);
    if wasTrusted then Probe(told, code) else told
  }

  // ─── Handshakes ───────────────────────────────────────────────────────────

  predicate IsSelf(env: Env, id: Identity) {
    id.id == env.me.id || id.publicKey == env.me.publicKey
  }

  function Introduced(c: Conn, id: Identity): Conn {
    c.(name := if id.name != "" then id.name else c.name,
       trust := c.trust.(complete := c.trust.complete || c.trust.trusted, watchdog := false))
  }

  function ApplyHandshake(env: Env, l: Link, h: Hello): Link {
    if l.conn.None? || !Recognized(l.conn.value) then l
    else
      var c := l.conn.value;
      if l.revokedAt.Some? then With(l, c.(buffered := Some(h)))
      else if h.identity.None? || IsSelf(env, h.identity.value) then l
      else With(l, SendHandshake(env, Introduced(c, h.identity.value))).(jobs := l.jobs + [Attached(!c.trust.trusted)])
  }

  function FlushBuffered(env: Env, l: Link): Link {
    if l.conn.None? || !Recognized(l.conn.value) || l.conn.value.buffered.None? then l
    else ApplyHandshake(env, With(l, l.conn.value.(buffered := None)), l.conn.value.buffered.value)
  }

  function Emit(l: Link, e: Event): Link {
    l.(events := l.events + [e])
  }

  function Rebroadcast(l: Link, code: Code): Link {
    if l.conn.None? || !l.conn.value.trust.complete || l.conn.value.name == "" || l.conn.value.name == CONNECTING then l
    else Emit(l, TrustPaired(Some(code)))
  }

  function OnTrustGranted(env: Env, l: Link, code: Code): Link
    requires l.conn.Some?
  {
    var told := With(l, ReplicateExchange(l.conn.value.(code := Some(code))));
    if l.conn.value.buffered.Some? then FlushBuffered(env, told) else Rebroadcast(told, code)
  }

  function ReceiveHandshake(env: Env, l: Link, h: Hello): Link {
    if l.conn.None? then l
    else if !Recognized(l.conn.value) || l.revokedAt.Some? then With(l, l.conn.value.(buffered := Some(h)))
    else ApplyHandshake(env, l, h)
  }

  function CodeOf(l: Link, job: Job): Option<Code> {
    if job.Orphan? then job.code else if l.conn.Some? then l.conn.value.code else None
  }

  // The continuation of applyHandshake: write the device row, trust the key, announce.
  function FinishJob(l: Link, i: nat): Link
    requires i < |l.jobs|
  {
    var job := l.jobs[i];
    var done := l.(jobs := l.jobs[..i] + l.jobs[i + 1..], disk := l.disk.(row := !job.lanOnly));
    if job.lanOnly then Emit(done, LanDetected) else Emit(AddTrustedKey(done), TrustPaired(CodeOf(l, job)))
  }

  // ─── Responses ────────────────────────────────────────────────────────────

  function IndexOf(outstanding: seq<Entry>, n: Nonce): (i: nat)
    ensures i <= |outstanding|
    ensures i < |outstanding| ==> outstanding[i].nonce == n
    ensures forall j :: 0 <= j < i ==> outstanding[j].nonce != n
  {
    if outstanding == [] || outstanding[0].nonce == n then 0 else 1 + IndexOf(outstanding[1..], n)
  }

  function Reject(env: Env, l: Link, reason: FailReason): Link
    requires l.conn.Some?
  {
    Emit(With(l, Disarm(l.conn.value).(destroyed := true)).(ladders := RecordFailure(l.ladders, env.now)),
         PairingFailed(reason))
  }

  function Forget(t: Talk, i: nat): Talk
    requires i < |t.outstanding|
  {
    t.(outstanding := t.outstanding[..i] + t.outstanding[i + 1..])
  }

  // The branch that grants trust; the matched entry is already removed.
  function Grant(env: Env, l: Link, code: Code): Link
    requires l.conn.Some?
  {
    var trust := l.conn.value.trust.(trusted := true, watchdog := false, verified := true);
    var trusted := Emit(With(l, l.conn.value.(trust := trust)).(ladders := Ladders(None, None)), Verified(code));
    var granted := OnTrustGranted(env, trusted, code);
    if granted.conn.None? then granted else With(granted, SendHandshake(env, granted.conn.value))
  }

  function Accept(secrets: seq<Secret>, env: Env, l: Link, code: Code): Link
    requires l.conn.Some?
  {
    if l.conn.value.trust.trusted then OnTrustGranted(env, With(l, Disarm(l.conn.value)), code)
    else if l.revokedAt.Some? && !FreshSecret(secrets, code, l.revokedAt.value) then
      With(l, Disarm(l.conn.value).(destroyed := true))
    else Grant(env, if l.revokedAt.Some? then UnrevokeKey(l) else l, code)
  }

  function HandleResponse(secrets: seq<Secret>, env: Env, l: Link, nonce: Option<Nonce>, mac: Option<Mac>): Link {
    if l.conn.None? || nonce.None? || mac.None? then l
    else
      var c := l.conn.value;
      if !c.trust.trusted && !c.trust.mode.PairingMode? then l
      else
        var i := IndexOf(c.talk.outstanding, nonce.value);
        if i == |c.talk.outstanding| then if c.trust.trusted then l else Reject(env, l, NonceMismatch)
        else
          var e := c.talk.outstanding[i];
          if mac.value != Mac(e.code, e.nonce) then if c.trust.trusted then l else Reject(env, l, MacMismatch)
          else Accept(secrets, env, With(l, c.(talk := Forget(c.talk, i))), e.code)
  }

  // ─── The rest of the router ───────────────────────────────────────────────

  predicate LibraryBound(k: SyncKind) {
    !k.Invite? && !k.DeniedNotice?
  }

  function SendSyncDenied(env: Env, l: Link, k: SyncKind, library: string): Link
    requires l.conn.Some?
  {
    var last := if (k, library) in l.deniedAt then l.deniedAt[(k, library)] else 0;
    if env.now - last < DENIED_WINDOW then l
    else With(l, Say(l.conn.value, Sync(DeniedNotice, library))).(deniedAt := l.deniedAt[(k, library) := env.now])
  }

  function ReceiveSync(env: Env, l: Link, k: SyncKind, library: string): Link {
    if l.conn.None? then l
    else if !l.conn.value.trust.trusted then
      if l.conn.value.trust.mode.LanMode? then SendSyncDenied(env, l, k, library) else l
    else if LibraryBound(k) && library != "" && library !in env.partnerOf then l
    else Emit(l, SyncDispatched(k, library))
  }

  function ReceiveOffer(l: Link): Link {
    if l.conn.None? || !l.conn.value.trust.trusted then l else Emit(l, OfferAccepted)
  }

  function Destroy(l: Link): Link {
    if l.conn.None? then l else With(l, l.conn.value.(destroyed := true))
  }

  function HandlePeerMessage(secrets: seq<Secret>, env: Env, l: Link, m: Msg): Link {
    match m
    case Challenge(id, nonce) => HandleChallenge(secrets, env, l, id, nonce)
    case Response(nonce, mac) => HandleResponse(secrets, env, l, nonce, mac)
    case Handshake(h) => ReceiveHandshake(env, l, h)
    case TransferOffer => ReceiveOffer(l)
    case Sync(k, library) => ReceiveSync(env, l, k, library)
    case DeviceRemoved => Destroy(RevokeKey(l, env.now))
  }

  // ─── Connection lifetime, timers and the user ─────────────────────────────

  function Orphans(jobs: seq<Job>, code: Option<Code>): seq<Job> {
    seq(|jobs|, i requires 0 <= i < |jobs| => if jobs[i].Attached? then Orphan(jobs[i].lanOnly, code) else jobs[i])
  }

  // The connection closed: its record leaves the map, but work begun on it goes on.
  function Hangup(l: Link): Link {
    if l.conn.None? then l else l.(conn := None, jobs := Orphans(l.jobs, l.conn.value.code))
  }

  /** A fresh record.  `lan` is the outcome of the LAN test, whose setting is read
      asynchronously after the revocation test: it may be stale, trust may not. */
  function OpenConnection(l: Link, side: Side, lan: bool): Link {
    var direct := IsTrustedPublicKey(l);
    var mode := if direct then DirectMode else if lan then LanMode else PairingMode;
    With(Hangup(l), Conn(side, Trust(mode, direct, false, false, direct, false, false), Talk([], [], 0, []),
                         None, None, CONNECTING, false, direct, false, false, l.revocations))
  }

  // The signaling channel opened, or one of its two retries came due.
  function ChannelReady(secrets: seq<Secret>, env: Env, l: Link): Link {
    if l.conn.None? then l
    else if Recognized(l.conn.value) then With(l, SendHandshake(env, l.conn.value))
    else if env.site || env.tunnel then l
    else SendChallenges(secrets, env, l, false)
  }

  function WatchdogFires(env: Env, l: Link): Link {
    if l.conn.None? || !l.conn.value.trust.watchdog then l
    else
      var c := Disarm(l.conn.value);
      if c.trust.trusted || c.trust.complete || env.site || env.tunnel then With(l, c)
      else With(l, c.(destroyed := true)).(ladders := RecordUnanswered(l.ladders, env.now))
  }

  // removeDevice revokes the key, rotates the codes, and then tells the peer before its
  // connection is closed.
  function NotifyRemoved(l: Link): Link {
    if l.conn.None? then l else With(l, Say(l.conn.value, DeviceRemoved))
  }

  // maybeAutoTrustLanPeer tests the record, then waits for a setting, then acts.
  function LanHeard(l: Link): Link {
    if l.conn.None? || l.conn.value.trust.trusted || l.revokedAt.Some? || l.conn.value.trust.mode.DirectMode? then l
    else With(l, l.conn.value.(lanCheck := true))
  }

  function AsLan(c: Conn): Conn {
    if c.trust.mode.PairingMode? then c.(lanCheck := false, trust := c.trust.(mode := LanMode, watchdog := false))
    else c.(lanCheck := false)
  }

  function LanSettled(env: Env, l: Link, enabled: bool): Link {
    if l.conn.None? || !l.conn.value.lanCheck then l
    else if !enabled then With(l, l.conn.value.(lanCheck := false))
    else Emit(FlushBuffered(env, With(l, SendHandshake(env, AsLan(l.conn.value)))), LanDetected)
  }

  function ConfirmLanPeer(env: Env, l: Link): Link {
    if l.conn.None? || l.revokedAt.Some? || l.conn.value.trust.trusted then l
    else
      var trust := l.conn.value.trust.(mode := DirectMode, trusted := true, watchdog := false, confirmed := true);
      var c := ReplicateExchange(SendHandshake(env, l.conn.value.(trust := trust)));
      Emit(FlushBuffered(env, With(AddTrustedKey(l), c)), TrustPaired(c.code))
  }

  function FlushWrite(l: Link): Link {
    if l.disk.writes == [] then l
    else l.(disk := l.disk.(savedRevocation := l.disk.writes[0], writes := l.disk.writes[1..]))
  }

  /** The process dies with its queued writes; start() reloads the revoked keys before
      the trusted ones. */
  function Restart(l: Link): Link {
    var saved := l.disk.savedRevocation;
    Link(None, saved, l.disk.row && saved.None?, Ladders(None, None), map[], [], l.disk.(writes := []),
         l.revocations, l.events)
  }

  datatype Input =
    | Open(side: Side, lan: bool)
    | Close
    | Receive(msg: Msg)
    | Ready
    | Entered(code: Code)
    | Generated
    | Drive
    | Watchdog
    | Heard
    | Settled(enabled: bool)
    | Confirm
    | Finish(job: nat)
    | Revoke
    | Notify
    | Flush
    | WriteRow(trusted: bool)
    | Reboot

  /** One step of an engine as seen by one key.  `secrets` is the list the step reads:
      after the new secret was stored for Entered and Generated. */
  function Next(secrets: seq<Secret>, env: Env, l: Link, input: Input): Link {
    match input
    case Open(side, lan) => OpenConnection(l, side, lan)
    case Close => Hangup(l)
    case Receive(m) => if l.conn.None? || l.conn.value.destroyed then l else HandlePeerMessage(secrets, env, l, m)
    case Ready => ChannelReady(secrets, env, l)
    case Entered(code) => CodeEntered(secrets, env, l, code)
    case Generated => SendChallengesToAll(secrets, env, l, false)
    case Drive => SendChallengesToAll(secrets, env, l, true)
    case Watchdog => WatchdogFires(env, l)
    case Heard => LanHeard(l)
    case Settled(enabled) => LanSettled(env, l, enabled)
    case Confirm => ConfirmLanPeer(env, l)
    case Finish(i) => if i < |l.jobs| then FinishJob(l, i) else l
    case Revoke => RevokeKey(l, env.now)
    case Notify => NotifyRemoved(l)
    case Flush => FlushWrite(l)
    case WriteRow(trusted) => l.(disk := l.disk.(row := trusted))
    case Reboot => Restart(l)
  }
}
