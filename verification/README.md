# Verified model of the MeshDrop engine

This project models the parts of the MeshDrop core that hold its guarantees: how two
engines come to trust each other, how a folder is scanned and pushed, how a displaced file
is recovered, how rows are stored, and how a byte range of a site file travels. Every
statement below holds for all inputs, all runs or all reachable states of the model.
`dafny verify dfyconfig.toml` checks the whole project.

## What is modelled

**Pairing** (`Pairing`, `Secrets`, `TrustManager`, `LinkInvariants`, `PairingTokens`,
`PairingSteps`, `PairingLockout`, `PairingWorld`, `PairingAnswers`, `PairingTermination`, `PairingRemoval`,
`PairingCompletion`, `PairingAnnouncement`, `PairingEffects`, `PairingStanding`,
`PairingExchange`, `PairingRecord`, `PairingHistory`). Every pairing handler touches the state of one peer key, so
`Pairing` describes that state as one value, a `Link` (the live connection record, the
revocation, the trusted key, the two backoff ladders, the stored rows with their queued
writes, the events emitted), and each handler as a function on it. `TrustManagement` is the
engine as it runs: a class whose fields are the trust manager's maps and the shared peers
map, whose methods loop over secrets, peers and stored rows, each proved to do to one key
what the function says and nothing to any other key. The calls of its event loop require and
keep `Valid`: the invariants of `LinkInvariants` for every key at once. `LinkInvariants` proves what one engine
keeps whatever messages arrive, in whatever order timers fire and users act, and across
restarts; `PairingLockout` that a peer which answered wrongly is not challenged while its
lockout lasts. `PairingWorld` joins two engines by a channel that delivers in any order, and
proves safety over whole runs by counting, for each nonce, where its challenge, its
set-aside copy and its answer are. `PairingTermination` gives a measure that every delivery
lowers; `PairingRemoval` says exactly when the exchange over a removed device's connection dies
out; `PairingCompletion` and `PairingAnnouncement` prove that two engines left in peace
both come to trust and announce the pairing once. `PairingEffects`, `PairingStanding`,
`PairingExchange` and `PairingRecord` tell every step again, observable by observable instead
of handler by handler: what is announced and served, who is trusted and what is stored, what is
asked and answered, and every other field of the record. `PairingHistory` draws from them where,
over whole runs with restarts, a stored row, a trusted key and a served request come from, and
what is remembered. The MAC and the code id are ideal: free
constructors that never collide; nonces are numbered by the side that draws them.

**Folder sync** (`SyncScan`, `PushLedger`, `PushSteps`, `PushLibrary`, `PushRounds`, `TrashRecovery`,
`RowStore`). A folder is a map from path to file or directory, with the set of files a walk
would list. `SyncScan` proves exactly when an incremental scan leaves the same live index
as a full one, and exactly after which watcher events the next scan mirrors the folder.
`PushLedger` is the push library's state between awaits; rounds, ends of transfers and
scans interleave freely, except that rounds run one at a time and the index changes only
between rounds; `PushLibrary` is the record whose methods take those steps in place and keep
the ledger invariant from the rows it was loaded with. `PushSteps` tells each step by its
effects, up to a whole round over any ledger and any plan. `PushRounds` draws the consequences for whole runs and for rotating
verification. `TrashRecovery` is one maintenance pass over a listing in any order.
`RowStore` is the ordered key store and the loading of a library with migration.

**Site read** (`SiteRead`): the Range header, the host's chunk loop with arbitrary short
reads, and the visitor's table of interleaved reads.

**Smaller pieces** (`TopicRegistry`, `StagingNames`, `Codes`), with `Ascii`, `Options`,
`Collections`, `Decimal` and `Sums` beneath.

Code that updates fields or loops in the source is a class or a loop here; the functions
beside it are its specification, and the lemmas are about those functions.

## Where a promise does not hold as stated

Each of these has a lemma with a concrete input and one with the exact condition.

- A revocation ends without re-pairing when the process dies before its write reaches the
  disk (`CrashForgetsRevocation`, condition in `StepOk` and `RevocationLasts`).
- An incremental scan takes in a dirty file that a full scan would skip, such as one of an
  ignored name (`IgnoredFileTakenIn`, `IncrementalScanExact`). A full scan of a folder with
  more than 50000 files does not mirror it (`OneFileTooMany`, `FullScanExact`).
- After an unnamed change or an overflow the watcher starts a new dirty set, and the next
  scan misses earlier changes that are not reported again (`UnnamedChangeForgotten`,
  condition in `WatcherCoverage`).
- Removing a device revokes its key first and rotates the codes a little later. In between, a
  removed device whose connection is open and which can still answer for a live code is
  challenged anew on every turn of the pairing loop, because accepting an answer forgets the
  challenge (`GapGoesOn`, `NeverSettles`). The exchange can go on if and only if there is such
  a code (`GoesOnExactly`); after the rotation there is none, and it dies out however often the
  loop turns (`RemovalSettles`).
- A file whose name begins with a character above U+FFFF is stored as a row and never
  listed again (`EmojiNameLost`, `RangeExact`, `SecondLoad`).
- A displaced copy older than the retention and listed before its marker is purged instead
  of restored (`OldCopyLost`, `FilledExactly`). The comment above the pass promises that
  markers past their retention are purged; the code compares an age with an absolute time,
  and the model follows the code.
- The visitor's 1 GiB cap counts base64 text chunk by chunk. With full reads a slice arrives
  exactly up to 805281800 bytes (`UnderCapRefused`, `FullReadArrives`); with other reads the
  cut decides between a quarter and three quarters of the cap (`CapBounds`, `CutDecides`).
- An individual drop code whose letters begin with GRP is refused by the parser
  (`RefusedDropCode`, `DropCodeIsFixed`).

## Model

| member | source | states |
|---|---|---|
| LinkInvariants.StepOk | engine/TrustManager.js:773-860 | every step of an engine about one key keeps the record and revocation invariants, and a revocation ends in a step exactly if a peer answers for a secret registered at or after it, or a restart finds no stored revocation |
| LinkInvariants.EveryRunIsOk | connections/index.js:336-396 | in every run: trust has a provenance, complete and an open exchange stream imply trust, an armed watchdog implies pairing mode and no trust, a revoked key is not trusted, and a trusted connection of a revoked key was opened before the revocation |
| LinkInvariants.RevocationLasts | engine/TrustManager.js:822-845 | over runs with restarts, a revoked key stays revoked and untrusted until a peer answers for a secret registered at or after the revocation, provided no restart loses a queued write |
| LinkInvariants.CrashForgetsRevocation | connections/signaling.js:281-316 | a removal notice followed by a crash leaves the key trusted after the restart |
| LinkInvariants.LanPeerGetsNothing | connections/signaling.js:208-229 | a LAN peer neither verified nor confirmed is untrusted, and no step challenges or answers it, accepts its offer, dispatches its sync messages, or trusts it without the user's confirmation |
| PairingEffects.EventsExact | connections/signaling.js:180-408 | every step announces and serves exactly this: an offer is accepted exactly if it arrives from a trusted peer, a sync message is served exactly if its sender is trusted and a partner of the library it names, and each other event comes from the one thing that raises it |
| PairingEffects.AnswerEffect | engine/TrustManager.js:773-860 | what a right answer, a right answer for a code too old, a wrong answer, and an answer to a trusted or LAN record each do to trust, code, stream, ladders, handshakes under way and events |
| PairingEffects.GrantedEffect | index.js:526-539 | the grant callback marks the record with the code, opens the exchange, and either applies the buffered handshake or announces a completed pairing again, never both |
| PairingEffects.ApplyEffect | connections/devices.js:18-97 | a handshake is applied exactly if it names another device and comes from a trusted or LAN peer whose key is not revoked; one continuation starts, for the tier the peer has |
| PairingEffects.FlushEffect | connections/devices.js:152-163 | a buffered handshake is applied exactly if its peer is recognized and not revoked, and is then forgotten |
| PairingEffects.SyncEffect | connections/signaling.js:180-229 | the gate serves, denies once per ten seconds, or stays silent, and changes nothing else |
| PairingStanding.StandingExact | connections/devices.js:99-146 | every step does exactly this to the trusted set, the stored row and revocation with its queued writes, the trust, mode, code and stream of the record, and the handshakes under way; the row a handshake leaves is trusted exactly if its peer was |
| PairingStanding.OpenExact | connections/index.js:336-395 | a new record is trusted exactly for a trusted key that is not revoked, and begins empty |
| PairingStanding.RemovalExact | index.js:1548-1628 | removing a device leaves its row untrusted, its key revoked and out of the trusted set with that write queued last, and its peer told after everything else |
| PairingExchange.LaddersExact | engine/TrustManager.js:530-614 | the nth failure in a row locks out for 5, 10, 20, 40, 80, 160, 300 seconds and so on; the nth unanswered cycle pauses for 15 to 960 and then 1800 seconds |
| PairingExchange.ChallengesExact | engine/TrustManager.js:641-678 | a peer that may be challenged is asked once for every code that is held, in time and not awaited, with fresh nonces, which ends both ladders and starts the watchdog; nobody else is sent anything |
| PairingExchange.ChallengeExact | engine/TrustManager.js:684-769 | a challenge for a code held now is answered and its peer asked back unless it is asked already; one for another code is kept, the oldest of more than sixteen going; a malformed, LAN or revoked peer's is dropped |
| PairingExchange.ToAllExact | engine/TrustManager.js:473-491 | when the codes change, every kept challenge for a code now held is answered, in order, the rest stays kept, and a peer that may be challenged is asked for every code not awaited |
| PairingExchange.EnteredExact | engine/TrustManager.js:347-378 | entering a code ends the pause and does the same on the user's word; a peer trusted already is sent exactly one challenge for that code, unless one is awaited |
| PairingExchange.ReadyExact | connections/signaling.js:66-85 | an open channel greets a recognized peer once and challenges any other, unless it is a site session or came with a tunnel code |
| PairingRecord.RecordExact | connections/signaling.js:233-408 | a step that brings no challenge and goes through no codes leaves exactly this in the record, sends exactly this, and notes exactly this in the ladders and the denial table |
| PairingRecord.EveryRunIsBounded | engine/TrustManager.js:732-745 | in no run are more than sixteen unanswered challenges kept |
| PairingHistory.RowProvenance | connections/devices.js:99-126 | over runs with restarts the stored row is trusted exactly if its last write was an explicit trusted one or a finished application of a paired peer's handshake, or there was none and it was trusted before |
| PairingHistory.StrangersStayOut | connections/devices.js:64-146 | a key that was never verified, confirmed or written as trusted is trusted on no connection and after no restart, however many LAN handshakes are applied |
| PairingHistory.PairedIsRemembered | engine/TrustManager.js:100-127 | after a paired peer's handshake has been applied its key is trusted at every later point, and after a restart with its writes flushed, until it is removed, its row is written untrusted, or a crash loses a write |
| PairingHistory.ServedOnlyTheTrusted | connections/signaling.js:384-394 | in every run and mode, each accepted offer and each served sync message was asked for by a peer trusted at that moment |
| PairingHistory.TrustedIsServed | connections/signaling.js:208-229 | in every run an offer of a trusted peer over a live connection is accepted, and its sync message served unless it is about a library it is no partner of |
| PairingHistory.DenialsAreSpaced | connections/signaling.js:180-203 | two notices to one peer about the same kind of message and library are at least ten seconds apart, unless the process restarts |
| PairingLockout.LockedOutIsNotChallenged | engine/TrustManager.js:641-657 | no step over a live connection, a user's code included, challenges an untrusted or revoked peer while its lockout lasts |
| PairingLockout.WrongAnswerLocks | engine/TrustManager.js:784-808 | a wrong answer from an untrusted peer destroys the connection and locks its key, across a reconnect, for at least five seconds and at most five minutes |
| PairingWorld.ApplyKeeps | engine/TrustManager.js:641-860 | every move of the two-engine system keeps the token accounting: each challenge, set-aside copy and answer belongs to one outstanding entry, and none is duplicated |
| PairingWorld.AnswerMatches | engine/TrustManager.js:784-798 | an answer in flight has an outstanding entry at its receiver with the same nonce and code and the MAC it expects |
| PairingWorld.NoMismatch | engine/TrustManager.js:784-808 | in every run the nonce-mismatch and MAC-mismatch disconnects are never reached |
| PairingWorld.VerifiedMeansBothHeld | engine/TrustManager.js:847-860 | trust granted by pairing over a code implies that both engines have held it |
| PairingWorld.NoPingPong | connections/signaling.js:19-37 | per connection a side sends at most one handshake, no challenge twice, and a challenge draws at most one answer |
| PairingWorld.OneChallengePerCode | engine/TrustManager.js:658-677 | while its peer is untrusted a side challenges each code at most once |
| PairingTermination.DeliveryDecreases | engine/TrustManager.js:732-769 | every delivery to either side lowers a measure over both engines and the wire |
| PairingTermination.UnpromptedNeverRaises | connections/signaling.js:66-148 | whatever the trust and revocation of the peer, nothing an engine does without a user raises the measure, but for driving a removed device's connection, which raises it by at most two for each live code of its side that the other side can answer for at that moment |
| PairingTermination.ExchangeTerminates | engine/TrustManager.js:684-860 | from any state of two connected engines, without further user action the number of deliveries is bounded by the measure of that state and those charges, one for each turn of the pairing loop over a removed device's connection |
| PairingTermination.UnsharedTerminates | engine/TrustManager.js:641-677 | while no code is live on both sides nothing is charged: deliveries are bounded in advance, however often a removed device's connection is driven |
| PairingAnswers.ToAllCovered | engine/TrustManager.js:684-712 | challenging and handling set-aside challenges sends answers only for codes the engine holds, unexpired, at that moment |
| PairingRemoval.NeverSettles | index.js:1152-1154 | between the revocation and the rotation, a removed device that can answer for a live code of the other side is challenged and answers again on every turn of the loop, for any number of turns |
| PairingRemoval.GoesOnExactly | engine/TrustManager.js:636-677 | the exchange over a removed device's open connection, with nothing awaited for a common code, can go on without end if and only if a live code of its side is one the other side can answer for |
| PairingRemoval.RemovalSettles | index.js:1588-1628 | from any state in which the codes are rotated and the peer is told, the deliveries that follow without a user are bounded in advance, with no charge for the turns of the loop |
| PairingRemoval.RotationUnshares | engine/TrustManager.js:194-214 | rotation leaves no code live on both sides |
| PairingRemoval.GapGoesOn | index.js:1555-1563 | paired engines that share a live code, one of which revokes the other, can go on in this way until the codes are rotated |
| PairingCompletion.MutualCompletion | engine/TrustManager.js:473-491 | two engines that do not trust each other yet, whatever came of earlier connections, and are left in peace on a new one are both trusted once nothing is in flight, if they hold the same unexpired code, whatever the order of registrations and deliveries |
| PairingAnnouncement.AnswerIsFirst | index.js:526-539 | in a fresh pairing over one shared code the answer that arrives meets a receiver that does not trust yet |
| PairingAnnouncement.AnnouncedAtMostOnce | connections/devices.js:152-175 | a fresh pairing is announced, and the peer's handshake applied, at most once at any point |
| PairingAnnouncement.AnnouncedExactlyOnce | connections/devices.js:18-146 | by quiescence each side has completed the pairing and announced it exactly once, under the shared code, whether the handshake came before or after the answer |
| Secrets.StoreIsUpdate | engine/TrustManager.js:347-357 | storing a secret replaces exactly the entry of its code and keeps codes distinct |
| Secrets.EnteredCodeIsFresh | engine/TrustManager.js:347-357 | an entered code is usable for exactly the pairing lifetime, counts as registered after every earlier revocation, and leaves other codes as they were |
| Secrets.KeepOk | engine/TrustManager.js:194-198 | deleting secrets leaves exactly the wanted ones, with codes distinct |
| Secrets.ExpiryIsUnseen | engine/TrustManager.js:895-904 | dropping expired secrets changes nothing that can be done with a code from then on |
| Secrets.Lookup | engine/TrustManager.js:705-706 | the secret found for a code id is usable exactly if some held secret of that id is |
| Pairing.IndexOf | engine/TrustManager.js:784-784 | the first outstanding entry with the nonce, or the length |
| TrustManagement.IssueMissing | engine/TrustManager.js:658-675 | the loop draws one nonce and sends one challenge, in order, for exactly the live secrets that have none outstanding |
| TrustManagement.FindNonce | engine/TrustManager.js:784-784 | the index of the first outstanding entry with the nonce |
| TrustManagement.TrustManager.AddTrusted | engine/TrustManager.js:142-148 | a revoked key is not added |
| TrustManagement.TrustManager.Revoke | engine/TrustManager.js:159-177 | the key leaves the trusted set, is revoked from now, and its write is queued; the invariants of every key hold |
| TrustManagement.TrustManager.Unrevoke | engine/TrustManager.js:181-187 | the key is no longer revoked, with the deletion queued |
| TrustManagement.TrustManager.Start | index.js:861-862 | a restart has the stored revocations, and trusts exactly the stored trusted keys that are not revoked; a key whose revocation had reached the disk is still revoked and untrusted |
| TrustManagement.TrustManager.constructor | index.js:861-862 | a fresh process over any stored tables satisfies the invariants of every key |
| TrustManagement.TrustManager.RevokedIsUntrusted | engine/TrustManager.js:129-140 | between events a revoked key is not trusted, and any connection of it that counts as trusted was opened before the revocation |
| TrustManagement.TrustManager.LoadRevokedKeys | engine/TrustManager.js:76-98 | exactly the stored revocations are loaded, whatever order the rows come in |
| TrustManagement.TrustManager.LoadTrustedPeerKeys | engine/TrustManager.js:100-127 | a key is trusted exactly if a trusted row is stored for it and it is not revoked |
| TrustManagement.TrustManager.RecordPairingFailure | engine/TrustManager.js:530-538 | one more failure, with the doubled and capped lockout |
| TrustManagement.TrustManager.IsPairingLocked | engine/TrustManager.js:540-548 | locked exactly while the lockout lasts; an expired entry is forgotten |
| TrustManagement.TrustManager.RecordUnansweredPairing | engine/TrustManager.js:602-614 | one more unanswered cycle, with the doubled and capped window |
| TrustManagement.TrustManager.IsPairingSuppressed | engine/TrustManager.js:616-624 | suppressed exactly while the window lasts; an expired entry is forgotten |
| TrustManagement.TrustManager.ArmPairingTimeout | engine/TrustManager.js:558-572 | the watchdog is armed unless the peer is trusted, complete or a tunnel-code peer |
| TrustManagement.TrustManager.PairingTimedOut | engine/TrustManager.js:572-594 | a watchdog that fires destroys an unverified connection and records the cycle, sparing site and tunnel peers; the invariants hold and no revocation ends |
| TrustManagement.TrustManager.SendChallengesTo | engine/TrustManager.js:641-678 | sendChallenges does to one key what the specification says and nothing to another |
| TrustManagement.TrustManager.ChallengeMissing | engine/TrustManager.js:658-677 | the missing challenges go out and, if there were any, the watchdog is armed |
| TrustManagement.TrustManager.HandleChallengeFrom | engine/TrustManager.js:684-769 | handleChallenge: answered, set aside, reciprocated or ignored as specified |
| TrustManagement.TrustManager.Note | engine/TrustManager.js:719-730 | an answerable challenge ends suppression and arms the watchdog, an unanswerable one arms it unless suppressed, a site peer's does neither |
| TrustManagement.TrustManager.AnswerNoted | engine/TrustManager.js:746-768 | a nonce of the right length is answered, and reciprocated only without an outstanding challenge of ours |
| TrustManagement.TrustManager.FlushPendingOf | engine/TrustManager.js:480-486 | the set-aside challenges are taken and handled again in order of arrival |
| TrustManagement.TrustManager.ChallengePeer | engine/TrustManager.js:473-491 | set-aside challenges are handled again in order of arrival, then an untrusted peer is challenged |
| TrustManagement.TrustManager.SendChallengesToEveryone | engine/TrustManager.js:473-491 | the loop over peers does each peer's step exactly once, whatever its order; the invariants of every key hold and no revocation ends |
| TrustManagement.TrustManager.ProbeTrustedPeers | engine/TrustManager.js:497-515 | each trusted peer of the snapshot is probed for the code once |
| TrustManagement.TrustManager.ProbeTrustedPeer | engine/TrustManager.js:498-513 | one challenge for the code, unless the peer is revoked, untrusted or already asked |
| TrustManagement.TrustManager.SetSecret | engine/TrustManager.js:352-358 | the secret replaces the entry of its code in place or joins at the end |
| TrustManagement.TrustManager.RegisterJoinerCode | engine/TrustManager.js:347-378 | a code in no valid form changes nothing; any other is stored in canonical form and put to every peer as specified; the invariants of every key hold and no revocation ends |
| TrustManagement.TrustManager.RotateHostCode | engine/TrustManager.js:194-214 | every code gives way to one fresh permanent one, put to every untrusted or revoked peer that is not held back; the invariants of every key hold and no revocation ends |
| TrustManagement.TrustManager.RemoveDevice | index.js:1548-1628 | the row goes, the key is revoked, the codes are rotated and the peer is told, in that order; the key is untrusted and the invariants of every key hold |
| TrustManagement.TrustManager.ExpireSecrets | engine/TrustManager.js:895-904 | exactly the unexpired codes are left |
| TrustManagement.TrustManager.DropJoinerCode | engine/TrustManager.js:303-338 | the entered code is dropped, a host code never |
| TrustManagement.TrustManager.RetainSecrets | engine/TrustManager.js:895-904 | the loop leaves exactly the wanted secrets, in the table's order, with codes distinct |
| TrustManagement.TrustManager.HandleResponseFrom | engine/TrustManager.js:773-860 | handleResponse: mismatch, stale, re-confirmed, refused or granted as specified |
| TrustManagement.TrustManager.RejectPeer | engine/TrustManager.js:785-795 | a failure is recorded, the watchdog cleared, the connection destroyed, the failure announced |
| TrustManagement.TrustManager.AcceptPeer | engine/TrustManager.js:810-845 | a right answer re-confirms a trusted peer, is refused from a revoked one without a fresh secret, and otherwise grants trust |
| TrustManagement.TrustManager.GrantTrust | engine/TrustManager.js:847-859 | trust, cleared backoffs, the grant callback, then the handshake |
| TrustManagement.TrustManager.TrustGranted | index.js:526-539 | a grant flushes a buffered handshake or else re-announces a completed pairing, never both |
| TrustManagement.TrustManager.SendHandshakeTo | connections/signaling.js:19-37 | the identity goes out once, to trusted or LAN peers only |
| TrustManagement.TrustManager.OpenExchange | connections/index.js:105-123 | the exchange stream opens for trusted peers only |
| TrustManagement.TrustManager.ApplyHandshakeFrom | connections/devices.js:18-97 | the part of applyHandshake before its database reads |
| TrustManagement.TrustManager.Introduce | connections/devices.js:64-90 | the name is taken over, a trusted peer is complete, the watchdog is cleared |
| TrustManagement.TrustManager.FinishApply | connections/devices.js:99-146 | the part after them: the row is written trusted exactly if the peer is not a mere LAN peer, the key joins the trusted set exactly then and if it is not revoked, and the one event carries the code its record has by then; a key revoked meanwhile stays revoked and untrusted |
| TrustManagement.TrustManager.FlushPendingHandshake | connections/devices.js:152-163 | a buffered handshake is applied once and forgotten |
| TrustManagement.TrustManager.RebroadcastPeerCompletion | connections/devices.js:169-175 | only a completed, named peer is announced again |
| TrustManagement.TrustManager.SettleLan | connections/devices.js:185-216 | a peer heard on the LAN moves from pairing to lan and exchanges identity only; the invariants hold and no revocation ends |
| TrustManagement.TrustManager.HeardOnLan | connections/devices.js:185-195 | only an untrusted, unrevoked peer outside direct mode starts the LAN check; the invariants hold |
| TrustManagement.TrustManager.ConfirmLan | connections/devices.js:222-268 | the user's confirmation trusts the peer unless its key is revoked; the invariants hold and a revoked key stays revoked and untrusted |
| TrustManagement.TrustManager.GateSyncMessage | connections/signaling.js:208-229 | the gate opens exactly for trusted peers and, for library messages, the library's partner |
| TrustManagement.TrustManager.DenySync | connections/signaling.js:185-203 | one denial per sender, type and library and window |
| TrustManagement.TrustManager.HandleMessage | connections/signaling.js:233-408 | the router does to the sender's key what the specification says and nothing to another, and a removal notice drops the codes registered before it; the invariants of every key hold, every other key's revocation stays, and the sender's ends exactly if it answers a challenge for a code registered since |
| TrustManagement.TrustManager.ReceiveHandshakeFrom | connections/signaling.js:259-276 | a handshake that comes too early, or from a revoked key, is buffered; any other is applied |
| TrustManagement.TrustManager.ReceiveOfferFrom | connections/signaling.js:384-408 | an offer is accepted exactly if the sender's record is trusted, and nothing else changes |
| TrustManagement.TrustManager.ReceiveSyncFrom | connections/signaling.js:258-258 | a sync message is dispatched exactly if the gate opens |
| TrustManagement.TrustManager.RemovedByPeer | connections/signaling.js:281-330 | the sender's key is revoked, its connection destroyed, and exactly the codes registered before are dropped |
| TrustManagement.TrustManager.OnConnection | connections/index.js:336-395 | a new record is trusted exactly for a trusted, unrevoked key; work under way keeps the record it was started for; the invariants hold |
| TrustManagement.TrustManager.OnClose | connections/index.js:247-278 | the record is forgotten, work under way keeps it, and nothing else about the key changes; the invariants hold |
| TrustManagement.TrustManager.SignalingReady | connections/signaling.js:66-85 | an open channel sends the handshake, or challenges, or neither for site and tunnel peers; the invariants hold and no revocation ends |
| TrustManagement.TrustManager.TellRemoved | index.js:1616-1628 | removal tells the peer over its open connection; the invariants hold |
| TrustManagement.TrustManager.WriteDone | engine/TrustManager.js:159-187 | a queued write reaches the table; the invariants hold |
| SyncScan.IsDirtyOrUnder | engine/sync/Scanner.js:87-95 | true exactly for a dirty path or one with a dirty path as directory prefix |
| SyncScan.StatDirtyPaths | engine/sync/Scanner.js:98-128 | the true state of each dirty path, a tombstone for a vanished one, and whether a directory was met |
| SyncScan.ScanFolder | engine/sync/Scanner.js:9-84 | as many listed files as the limit allows, with their signatures |
| SyncScan.BuildIndex | engine/SyncEngine.js:823-864 | the loops build exactly the specified next index |
| SyncScan.AddScanned | engine/SyncEngine.js:823-849 | what was scanned is in the index as specified, over the old index if the scan was incremental |
| SyncScan.AddGone | engine/SyncEngine.js:851-864 | exactly the live entries the scan should have met and did not become tombstones |
| SyncScan.CollectChanged | engine/SyncEngine.js:866-872 | exactly the entries that are new or differ in signature or deletion |
| SyncScan.FullScanExact | engine/SyncEngine.js:780-876 | a full scan's live entries are the files on disk with their signatures, if and only if there are no more than the limit |
| SyncScan.OneFileTooMany | engine/sync/Scanner.js:9-84 | a folder of 50001 files is not mirrored by any walk |
| SyncScan.IncrementalScanExact | engine/SyncEngine.js:786-876 | with no dirty directory, an incremental scan's live entries are the files on disk if and only if nothing else changed and a walk would list each dirty file |
| SyncScan.IncrementalRefinesFull | engine/SyncEngine.js:786-876 | the incremental and the full index agree on what is live under exactly that condition |
| SyncScan.IgnoredFileTakenIn | engine/sync/Scanner.js:98-128 | an ignored dirty file makes an incremental scan differ from the folder's listing |
| SyncScan.EntryExact | engine/SyncEngine.js:823-864 | path by path, the entry a scan leaves: the old one for an unchanged file, one of ours for a new or changed file, a tombstone of ours with the last size and signature for a live file not met where the scan looks, and what becomes of old tombstones |
| SyncScan.Library.OnFolderChange | engine/SyncEngine.js:443-459 | the events heard since the last scan decide the dirty set; an event that comes while the library is paused is not heard |
| SyncScan.PathExact | engine/SyncEngine.js:443-452 | the path of an event is what follows the leading separators of its name, with every backslash turned into a slash |
| SyncScan.WatcherCoverage | engine/SyncEngine.js:443-459 | the next scan mirrors every folder whose changes were all reported if and only if, by the events alone, there are no paths to scan by, or every event named a path and each path, or a folder above it, was named since the set was last given up |
| SyncScan.KeptIsTail | engine/SyncEngine.js:443-459 | the dirty set is the paths of the events since the last one that named nothing or brought the paths to more than 200 |
| SyncScan.FewPathsAreKept | engine/SyncEngine.js:443-459 | with every event naming a path and at most 200 of them nothing is given up and nothing reported is lost |
| SyncScan.NoLossMirrors | engine/SyncEngine.js:786-876 | when nothing reported is lost, the next scan leaves exactly the files of the folder live |
| SyncScan.LossLeavesGhost | engine/SyncEngine.js:786-876 | when something reported is lost, some index and folder whose differences were all reported end up apart |
| SyncScan.UnnamedChangeForgotten | engine/SyncEngine.js:443-459 | after an event without a name the next named one alone is scanned, and a file deleted meanwhile stays live in the index |
| SyncScan.Library.RunScan | engine/SyncEngine.js:780-881 | with the folder there, the library is not paused, the specified index is adopted, and it mirrors the folder if and only if the scan could see enough; with the folder gone, some file live and a walk, it is paused and nothing else changes; it mirrors the folder if every change was reported and no report lost; rows stay in step |
| SyncScan.Library.Resume | engine/SyncEngine.js:753-762 | with the folder there, resuming ends the pause and mirrors it, changes made during the pause included, if and only if it holds no more than 50000 files; with it gone and some file live, the library stays paused with its index and rows |
| SyncScan.Library.Scan | engine/SyncEngine.js:787-802 | the dirty set is taken, and used exactly if the scan is not full, it holds 1 to 200 paths and none is a directory |
| SyncScan.Library.Adopt | engine/SyncEngine.js:823-877 | the next index and the changed rows are stored, and mirror the folder exactly under the stated condition |
| SyncScan.RowsFollow | engine/SyncEngine.js:866-876 | writing only the changed entries keeps rows and index in step |
| SyncScan.RowsReload | engine/SyncEngine.js:237-237 | a library loaded from its rows has the same live files |
| PushLedger.StepOk | engine/SyncEngine.js:948-1136 | every step of a round, every end of a transfer and every scan keeps the ledger invariant |
| PushLedger.LoadedOk | engine/SyncEngine.js:207-282 | a library just loaded, with any stored sent rows, satisfies the ledger invariant |
| PushLedger.TodoOk | engine/SyncEngine.js:1039-1062 | what is scheduled is exactly the planned files the peer did not confirm and the lost ones, each once |
| PushLedger.AnswerOk | engine/SyncEngine.js:1031-1050 | marking what the peer confirmed keeps the ledger |
| PushLedger.ScheduleOk | engine/SyncEngine.js:1052-1069 | scheduling keeps the ledger and the counters |
| PushLedger.CreateOk | engine/SyncEngine.js:1079-1112 | creating or skipping one send keeps the ledger and the counters |
| PushLedger.EndOk | engine/SyncEngine.js:1114-1136 | the end of a round keeps the ledger and the counters |
| PushLedger.TerminalOk | engine/SyncEngine.js:1631-1703 | the end of a transfer keeps the ledger and the counters |
| PushSteps.SliceExact | engine/SyncEngine.js:1015-1022 | up to 4000 sent files are all checked; of more, the 4000 or fewer from the position the round gives |
| PushSteps.StartExact | engine/SyncEngine.js:948-1029 | a round plans exactly the live files not in the ledger at their version, and checks only live sent files |
| PushSteps.AnswerExact | engine/SyncEngine.js:1031-1050 | exactly the planned live files the peer affirms are marked, at their present version |
| PushSteps.ScheduleExact | engine/SyncEngine.js:1052-1069 | scheduled, once each, are exactly the planned files not affirmed and the verified ones the peer lacks and no send is carrying |
| PushSteps.SendExact | engine/SyncEngine.js:1079-1112 | a live file that can be read adds exactly its send at its version, is marked with it, and counts as neither skipped nor dropped |
| PushSteps.SkipExact | engine/SyncEngine.js:1079-1112 | a file is skipped only if it cannot be read or is no longer live |
| PushSteps.WholeRound | engine/SyncEngine.js:948-1136 | over any ledger and plan, with every file readable and in any order: every planned file not affirmed is in flight, every live file is in the ledger, nothing is dropped, nothing but planned and lost files is sent, and every lost file is in flight |
| PushSteps.EndExact | engine/SyncEngine.js:1114-1136 | entries of files that are gone leave the ledger and all others stay |
| PushSteps.TerminalExact | engine/SyncEngine.js:1631-1703 | the end of a transfer takes off exactly its send, unmarks a failed file, counts, and finishes the round if it was the last |
| PushSteps.ScansExact | engine/SyncEngine.js:874-901 | a scan between rounds replaces the live files and nothing else, and its end finishes the round exactly if nothing is pending |
| PushRounds.EveryRun | engine/SyncEngine.js:948-1136 | in every run: a file in the ledger at its current version has it in flight, completed or confirmed; pending counts what is in flight and scheduled; done counts completions; after a round every live file is in the ledger unless skipped or failed |
| PushRounds.FinishedMeansDone | engine/SyncEngine.js:1170-1178 | a round is finished only with nothing in flight and nothing scheduled, and the counters restart |
| PushRounds.LastEndFinishes | engine/SyncEngine.js:1688-1702 | the last end of a transfer finishes the round |
| PushRounds.FailedIsPushed | engine/SyncEngine.js:1631-1660 | after a failed, cancelled or interrupted send every plan contains the file while it is there, whatever its version, until it is sent again or confirmed |
| PushRounds.RotationCovers | engine/SyncEngine.js:1015-1022 | any ceil(n / 4000) consecutive rounds check each of n sent files exactly once |
| PushRounds.FullRoundSettled | engine/SyncEngine.js:1010-1062 | with the peer answering, a round over a settled library keeps the ledger and leaves every file of its slice the peer lost in flight |
| PushRounds.LostIsFound | engine/SyncEngine.js:1015-1062 | a file the peer lost is in flight again within ceil(n / 4000) answered rounds |
| PushLibraries.PushLibrary.PlanPushes | engine/sync/Reconciler.js:28-40 | exactly the live files whose ledger version differs or is missing, each once |
| PushLibraries.PushLibrary.constructor | engine/SyncEngine.js:207-282 | the record as loaded from its rows satisfies the ledger invariant |
| PushLibraries.PushLibrary.RoundDelivered | engine/SyncEngine.js:1170-1178 | after a round whose sends all ended without a skip or failure, every live file's present version was delivered, and pending is zero |
| PushLibraries.PushLibrary.SentRels | engine/SyncEngine.js:1015-1015 | the live keys of the ledger in its order |
| PushLibraries.PushLibrary.InFlightRels | engine/TransferEngine.js:255-269 | exactly the files with a queued or running send |
| PushLibraries.PushLibrary.MarkVerified | engine/SyncEngine.js:1039-1050 | each confirmed file of the plan is marked at its current version |
| PushLibraries.PushLibrary.PruneSent | engine/SyncEngine.js:1127-1136 | exactly the entries of files that are not live leave the ledger |
| PushLibraries.PushLibrary.BeginRound | engine/SyncEngine.js:948-1029 | the plan and the slice to verify; the ledger invariant holds |
| PushLibraries.PushLibrary.ApplyAnswer | engine/SyncEngine.js:1031-1050 | the planned files the peer confirms, and no others, count as sent at their current version; the ledger invariant holds |
| PushLibraries.PushLibrary.SchedulePushes | engine/SyncEngine.js:1052-1069 | the rest of the plan and the lost files are scheduled, each once, and pending rises by their number; the ledger invariant holds |
| PushLibraries.PushLibrary.CreateSend | engine/SyncEngine.js:1076-1112 | a readable live file adds exactly its send and mark and no skip; any other adds a skip and nothing else; the ledger invariant holds |
| PushLibraries.PushLibrary.EndCreation | engine/SyncEngine.js:1114-1136 | pending loses the sends not created, and files that are gone leave the ledger; the ledger invariant holds |
| PushLibraries.PushLibrary.TransferTerminal | engine/SyncEngine.js:1631-1703 | a failed send leaves the ledger, the counters move, and the last one finishes the round, which happens only with nothing in flight or scheduled; the ledger invariant holds |
| PushLibraries.PushLibrary.ScanIsOver | engine/SyncEngine.js:899-901 | with nothing pending the round is finished, which happens only with nothing in flight or scheduled; the ledger invariant holds |
| PushLibraries.PushLibrary.TakeIndex | engine/SyncEngine.js:874-877 | between rounds a scan replaces the index; the ledger invariant holds |
| TrashRecovery.PassConserves | engine/SyncEngine.js:112-165 | a pass touches no live file, and every plain entry newer than the cutoff is still in the trash or back at its path |
| TrashRecovery.FilledExactly | engine/SyncEngine.js:169-195 | a missing path is filled exactly if some marker asks for it whose copy is there in time, and then by one such copy |
| TrashRecovery.YoungCopiesRestored | engine/SyncEngine.js:169-195 | with every displaced copy newer than the cutoff, a missing path is filled exactly if a marker asks for it |
| TrashRecovery.SecondPassRestoresNothing | engine/SyncEngine.js:135-158 | a second pass at any later time restores nothing |
| TrashRecovery.OldCopyLost | engine/SyncEngine.js:150-156 | an old copy listed before its marker is purged and its path stays missing |
| TrashRecovery.VisitExact | engine/SyncEngine.js:135-195 | what becomes of an entry at its turn: a readable marker restores its copy where nothing is and is used up either way, an unreadable one and any other entry go by their ages |
| TrashRecovery.Library.RecoverDisplaced | engine/SyncEngine.js:169-195 | one marker is healed, dropped or left as specified, and the result says which |
| TrashRecovery.Library.VisitEntry | engine/SyncEngine.js:135-158 | a marker is healed or purged by its age, another entry purged exactly if older than the cutoff |
| TrashRecovery.Library.TrashMaintenance | engine/SyncEngine.js:112-165 | the loop is the specified pass, and the count is the number of files that became live |
| RowStore.RangeExact | engine/sync/SnapshotStore.js:8-11 | the range of a kind and library holds exactly the keys of its rows whose path is empty, begins below U+FFFF, or is that one character |
| RowStore.KeysApart | engine/sync/SnapshotStore.js:29-46 | different rows have different keys, and no row key is a configuration key |
| RowStore.OthersApart | engine/sync/SnapshotStore.js:8-11 | no row of another kind or library falls under the prefix |
| RowStore.SnapshotStore.IterRows | engine/sync/SnapshotStore.js:13-27 | exactly the stored rows of the kind and library that the range reaches |
| RowStore.SnapshotStore.WriteRows | engine/sync/SnapshotStore.js:29-46 | the last value written per path wins and every other key is unchanged |
| RowStore.SnapshotStore.DelRows | engine/sync/SnapshotStore.js:48-65 | exactly the named rows are gone |
| RowStore.SnapshotStore.PersistConfig | engine/sync/SnapshotStore.js:67-85 | only the configuration entry changes |
| RowStore.SnapshotStore.RemoveLibrary | engine/sync/SnapshotStore.js:87-107 | the configuration and the keys in range of the kinds index, sent, remote, delivered and snapshot are gone, and nothing else |
| RowStore.RemovedRows | engine/sync/SnapshotStore.js:87-107 | seen as rows: a listable row of the library is gone, any other row stays |
| RowStore.SnapshotStore.LoadLibrary | engine/SyncEngine.js:207-282 | the three maps are the listed rows and the embedded entries they lacked, and the store is migrated |
| RowStore.SnapshotStore.Migrate | engine/SyncEngine.js:241-271 | embedded entries without a listed row become rows and join the map; every listed row stays |
| RowStore.SecondLoad | engine/SyncEngine.js:241-274 | a second load finds the same if and only if the range reaches every embedded path |
| RowStore.EmojiNameLost | engine/sync/SnapshotStore.js:8-11 | a name beginning above U+FFFF is found by the first load and lost to the second |
| SiteRead.RangeMeaning | siteProtocol.js:56-74 | for a non-empty file there is a range exactly if the header is of the grammar and names some byte of the file; it lies in the file and holds exactly the bytes named |
| SiteRead.RangeOfEmptyFile | siteProtocol.js:56-74 | of an empty file exactly a suffix range of at least one byte is accepted, as start 0 and end -1 |
| SiteRead.SpecRoundTrip | siteProtocol.js:56-62 | a printed byte range header is read back as it was meant |
| SiteRead.ParseSpecExact | siteProtocol.js:56-62 | a header is parsed to two numbers if and only if it is `bytes=`, digits or none, a dash, digits or none, with those values and a missing number exactly for no digits |
| SiteRead.RequestedExact | siteProtocol.js:56-74 | without a header of that grammar that names a byte of the file the whole file is sent, and otherwise exactly the bytes named |
| SiteRead.HandleRead | engine/SiteServer.js:278-341 | the chunks sent are a prefix of the slice and all of it if no read returns nothing, cut in full chunks if every read returns all it asks for; the end message tells how far they got |
| SiteRead.SendChunks | engine/SiteServer.js:316-334 | for every pattern of short reads the loop ends, with consecutive chunks as long as the read, and no longer than asked for |
| SiteRead.ReadsAreIndependent | engine/SiteVisitor.js:373-404 | what becomes of a read depends only on the messages with its own id |
| SiteRead.ReceiveExact | engine/SiteVisitor.js:373-404 | a message changes only the read of its id, and only if one waits and data is of its site: data joins it or ends it over the cap, an end settles it with what was received exactly if that has the announced digest |
| SiteRead.ReadRoundTrip | engine/SiteVisitor.js:373-404 | however interleaved, the body is exactly the bytes sent, if and only if their base64 text fits the cap |
| SiteRead.RequestRoundTrip | engine/SiteVisitor.js:373-404 | the body is the requested slice, or the whole file without a usable header, with its own start and end |
| SiteRead.CapBounds | engine/SiteVisitor.js:378-383 | a slice of at most a quarter of the cap arrives however it is cut, one of more than three quarters never does |
| SiteRead.CutDecides | engine/SiteVisitor.js:378-383 | a slice between those bounds is refused when read byte by byte and arrives when read in multiples of three bytes |
| SiteRead.FullReadArrives | engine/SiteServer.js:316-334 | with reads that return all they ask for, a slice arrives if and only if it is at most 805281800 bytes long |
| SiteRead.UnderCapRefused | engine/SiteVisitor.js:378-383 | a file of 805281801 bytes, under the cap, is answered in full and refused by its visitor |
| SiteRead.SiteVisitor.Read | engine/SiteVisitor.js:267-274 | a new read waits, with nothing received |
| SiteRead.SiteVisitor.HandleReadData | engine/SiteVisitor.js:373-384 | a chunk joins the read of its id and site, or ends it over the cap |
| SiteRead.SiteVisitor.HandleReadEnd | engine/SiteVisitor.js:386-404 | the read settles with its body, or fails on an error or a checksum mismatch |
| TopicRegistry.HeldUntilLastLeave | engine/TopicRegistry.js:23-56 | while leaves never outnumber joins, the references to a label are their difference |
| TopicRegistry.EnsuredOnce | engine/TopicRegistry.js:38-41 | however often a label is ensured it holds one reference |
| TopicRegistry.TopicRegistry.Join | engine/TopicRegistry.js:23-34 | one more reference; the first one joins the swarm with its options, later ones only record theirs; the swarm stays joined to exactly the held labels |
| TopicRegistry.TopicRegistry.Ensure | engine/TopicRegistry.js:38-41 | a held label gains no reference |
| TopicRegistry.TopicRegistry.Leave | engine/TopicRegistry.js:43-56 | one reference fewer; the last one detaches the topic |
| TopicRegistry.TopicRegistry.Reattach | engine/TopicRegistry.js:61-70 | no count changes, every held label is joined on the new swarm with the options recorded last, and membership is exact if and only if the swarm was joined to nothing else |
| TopicRegistry.TopicRegistry.LabelFor | engine/TopicRegistry.js:78-81 | a topic maps back to its label exactly while the label is held |
| StagingNames.FreeName | index.js:2036-2038 | the loop ends with the first free candidate, after at most as many taken ones as there are used names |
| StagingNames.StageNames | index.js:2028-2039 | staged names differ pairwise ignoring case, and each is its file's flat name with the smallest number free at its turn |
| StagingNames.CandidateSafe | index.js:2032-2038 | a staged name is a single safe path segment |
| StagingNames.FlatExact | index.js:2032-2035 | a flat name is the file's name with every unsafe character replaced by an underscore and its words set off by single blanks, or `file` if no word is left |
| StagingNames.FlatFixed | index.js:2032-2035 | a safe and tidy name is kept, so flattening twice is flattening once |
| StagingNames.SafeCharacters | index.js:2032-2033 | the safe characters, one by one |
| StagingNames.TakenBound | index.js:2036-2038 | if the first n candidates are taken, at least n names are used |
| Codes.FormatCode | crypto.js:60-66 | four groups of four behind MD |
| Codes.GeneratePairingCode | crypto.js:69-76 | a generated code is its letters in canonical form, and normalizing it changes nothing |
| Codes.GenerateDropCode | crypto.js:104-113 | a generated drop code is normalized to itself exactly if it is a group code or its letters do not begin with GRP |
| Codes.GenerateTunnelCode | crypto.js:142-148 | a generated tunnel code is normalized to itself |
| Codes.PairingNormalizerIdempotent | crypto.js:79-88 | a normalized code has the canonical shape and is normalized to itself |
| Codes.PairingNormalizerExact | crypto.js:79-88 | an input is read as a code exactly if its letters are the code's, with or without MD in front |
| Codes.KeptLetters | crypto.js:79-88 | capitals and digits are kept, and upper-casing takes each small letter to its capital |
| Codes.PrintedCodesApart | crypto.js:79-88 | the printed code of some letters is read as the code of others exactly if the letters are the same |
| Codes.DropNormalizerIdempotent | crypto.js:116-135 | the same for drop codes |
| Codes.TunnelNormalizerIdempotent | crypto.js:149-156 | the same for tunnel codes |
| Codes.DropCodeIsFixed | crypto.js:116-135 | a printed drop code is read back unchanged, or refused exactly if it is individual and begins with GRP |
| Codes.DropCodeRefused | crypto.js:104-135 | which random bytes print a code the parser refuses |
| Codes.RefusedDropCode | crypto.js:116-135 | DROP-GRPA-BCDE is refused |

## Left out

- More than one connection per peer, a watchdog that outlives its connection, and a connection closed while its LAN check waits.
- MutualCompletion: no watchdog fires, no LAN check is made and no device is removed while the exchange is under way, because each of these ends the pairing phase the statement is about.
- AnnouncedExactlyOnce: the same, the handshakes carry identities of other devices, no pairing was announced between the two before, and no handshake of an earlier connection is still being applied.
- NeverSettles: the gap lasts as long as the writes between the revocation and the rotation, and the pairing loop turns every five seconds; neither time is part of the runs, so how few turns fall into the gap is not modelled.
- RemovalSettles: the fresh code is one the other side never held; that a random code is new is assumed.
- FinishApply: the row written for a LAN application is untrusted; that the source copies the record after its first read, when the peer may just have been confirmed, is not distinguished.
- RemovedByPeer: the stored row of the device that removed us is deleted in a step of its own, and so may be lost in a crash.
- ConfirmLan: its row write is a step of its own, and its event is emitted with the confirmation instead of after that write.
- TransferTerminal: each send ends once. A send that the transfer engine resumes or retries emits a second terminal event, and one that fails before it starts emits a record without a source, which the sync engine ignores; neither is modelled.
- PushLedger: the ledger lists its paths in order of insertion; that JavaScript objects list integer-like keys first is not modelled.
- StageNames: unsafe characters are replaced per character of the model's strings; the source's expression replaces each half of a surrogate pair.
- LostIsFound: every send that is scheduled can be created; a skipped one is scheduled again in a later round.
- ApplyKeeps: in the two-engine runs the secrets that predate a removal notice are dropped at a step of their own, as a change of the engine's secrets.
- `syncToPeers` and expiry of secrets by timer: in the two-engine runs the secrets of an engine may change arbitrarily at every step.
- Site verification challenges, the `beforePeerMessage` hook, device renames, the protocol-version flag, and the 512-entry clearing of the denial table.
- Peer ids that are not 64 hex characters, database writes that fail, and the longer watchdog while the network is being refreshed.
- Peer records are values in the peers map: aliasing of one record by several closures is not captured.
- A host code restored while peers are connected, and entering one's own host code.
- Growth of the backoff ladders across expiries: an entry is forgotten when its expiry is seen.
- File content hashes in the index, renaming of unsafe path components by `safeRelPath`, and file changes during a scan.
- The directory walk itself: a full scan is an enumeration of the listed files in any order up to the limit.
- Two-way and receive-only libraries, conflict resolution, pauses during a round, retry timers, and ledgers carried over a restart with sends under way.
- Ends of transfers between the enqueueing of a send and the marking of its version, which run in one turn.
- File operations that fail during trash maintenance, and more than one library.
- Concurrent writers of the key store.
- Thumbnails, conditional requests, timeouts and streaming writes of site reads; digits beyond exact floating point in a Range header.
- base64 text itself: only its length is modelled.
- An end of a site read that announces no checksum, which the source accepts unchecked.
- `TopicRegistry.leaveAll`, which releases one reference per label.
- Hyperswarm, Protomux, Hyperbee, the file system and timers are maps, message bags and free steps; claims, keepalive, tunnels, watch parties, sites management and notifications would only add easy members.
