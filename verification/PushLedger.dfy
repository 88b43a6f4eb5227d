/** The owner's side of a push library: which files count as sent, which sends are under
    way, and the phase counters, through rounds whose steps interleave with the ends of
    transfers. */
module PushLedger {
  import opened Collections
  import opened Options
  import opened SyncScan

  const MAX_VERIFY_FILES := 4000

  // The send of one version of a file.
  datatype Send = Send(rel: string, sig: Sig)

  datatype Status = Completed | Failed | Cancelled | Interrupted

  /** Where a round stands between two awaits: not running, waiting for the peer's answer,
      writing down what the peer confirmed, or creating sends with `skipped` of them given
      up. */
  datatype Stage =
    | Idle
    | Verifying(toPush: seq<string>, slice: seq<string>)
    | Marked(toPush: seq<string>, slice: seq<string>, answer: Option<seq<string>>)
    | Creating(todo: seq<string>, skipped: nat)

  /** A map that remembers the order in which its keys were added. */
  datatype Sent = Sent(keys: seq<string>, at: map<string, Sig>)

  // Sends in flight as the transfer engine has them; pending and done as displayed.
  datatype Flow = Flow(sends: seq<Send>, pending: nat, done: nat)

  /** What has happened: versions whose send completed, versions the peer confirmed to
      have, files whose send was skipped or failed since the round began, completions and
      finished rounds, and whether the index is still the one the round planned from. */
  datatype Past = Past(completed: set<Send>, confirmed: set<Send>, dropped: set<string>, completions: nat, finishes: nat,
                       current: bool)

  datatype Ledger = Ledger(live: map<string, Sig>, sent: Sent, flow: Flow, round: nat, stage: Stage, past: Past)

  // ─── The sent index ───────────────────────────────────────────────────────

  ghost predicate SentOk(s: Sent) {
    Distinct(s.keys) && forall rel :: rel in s.keys <==> rel in s.at
  }

  function Mark(s: Sent, rel: string, sig: Sig): Sent {
    Sent(if rel in s.at then s.keys else s.keys + [rel], s.at[rel := sig])
  }

  function Without(keys: seq<string>, gone: set<string>): seq<string> {
    if keys == [] then []
    else
      var rest := Without(keys[..|keys| - 1], gone);
      if keys[|keys| - 1] in gone then rest else rest + [keys[|keys| - 1]]
  }

  function Unmark(s: Sent, gone: set<string>): Sent {
    Sent(Without(s.keys, gone), s.at - gone)
  }

  lemma {:induction false} WithoutOk(keys: seq<string>, gone: set<string>)
    ensures forall rel :: rel in Without(keys, gone) <==> rel in keys && rel !in gone
    ensures Distinct(keys) ==> Distinct(Without(keys, gone))
  {
    if keys != [] {
      var init, last := keys[..|keys| - 1], keys[|keys| - 1];
      WithoutOk(init, gone);
      assert keys == init + [last];
      if Distinct(keys) {
        assert Distinct(init);
        assert last !in init;
      }
    }
  }

  lemma {:induction false} WithoutNone(keys: seq<string>, gone: set<string>)
    requires forall rel :: rel in keys ==> rel !in gone
    ensures Without(keys, gone) == keys
  {
    if keys != [] {
      var init, last := keys[..|keys| - 1], keys[|keys| - 1];
      assert last in keys;
      WithoutNone(init, gone);
      assert keys == init + [last];
    }
  }

  lemma MarkOk(s: Sent, rel: string, sig: Sig)
    requires SentOk(s)
    ensures SentOk(Mark(s, rel, sig))
  {
  }

  lemma UnmarkOk(s: Sent, gone: set<string>)
    requires SentOk(s)
    ensures SentOk(Unmark(s, gone))
    ensures (forall rel :: rel in s.at ==> rel !in gone) ==> Unmark(s, gone) == s
  {
    WithoutOk(s.keys, gone);
    if forall rel :: rel in s.at ==> rel !in gone {
      WithoutNone(s.keys, gone);
      assert s.at - gone == s.at;
    }
  }

  // ─── Planning a round ─────────────────────────────────────────────────────

  /** The files the planner pushes in push mode. */
  predicate Wanted(l: Ledger, rel: string) {
    rel in l.live && (rel !in l.sent.at || l.sent.at[rel] != l.live[rel])
  }

  ghost predicate Plans(l: Ledger, toPush: seq<string>) {
    Distinct(toPush) && forall rel :: rel in toPush <==> Wanted(l, rel)
  }

  // Keys of the sent index that are live, in its order.
  function LiveKeys(keys: seq<string>, live: map<string, Sig>): seq<string> {
    if keys == [] then []
    else
      var rest := LiveKeys(keys[..|keys| - 1], live);
      if keys[|keys| - 1] in live then rest + [keys[|keys| - 1]] else rest
  }

  function Chunks(n: nat): nat {
    (n + MAX_VERIFY_FILES - 1) / MAX_VERIFY_FILES
  }

  function SliceStart(n: nat, round: nat): nat
    requires n > MAX_VERIFY_FILES
  {
    (round % Chunks(n)) * MAX_VERIFY_FILES
  }

  // Array slices stop at the end of the array.
  function Slice(rels: seq<string>, round: nat): seq<string> {
    if |rels| <= MAX_VERIFY_FILES then rels
    else
      var start := Min(SliceStart(|rels|, round), |rels|);
      rels[start..Min(start + MAX_VERIFY_FILES, |rels|)]
  }

  function NextRound(rels: seq<string>, round: nat): nat {
    if |rels| > MAX_VERIFY_FILES then round + 1 else round
  }

  function StartRound(l: Ledger, toPush: seq<string>): Ledger {
    var rels := LiveKeys(l.sent.keys, l.live);
    var round := NextRound(rels, l.round);
    l.(round := round, stage := Verifying(toPush, Slice(rels, round)), past := l.past.(dropped := {}, current := true))
  }

  // ─── The peer's answer ────────────────────────────────────────────────────

  predicate InFlight(sends: seq<Send>, rel: string) {
    exists s :: s in sends && s.rel == rel
  }

  function MarkAll(s: Sent, rels: seq<string>, live: map<string, Sig>, toPush: seq<string>): Sent {
    if rels == [] then s
    else
      var rel := rels[|rels| - 1];
      var before := MarkAll(s, rels[..|rels| - 1], live, toPush);
      if rel in live && rel in toPush then Mark(before, rel, live[rel]) else before
  }

  // Entries of `rels` that pass the test and are not listed yet.
  function Added(todo: seq<string>, rels: seq<string>, wanted: set<string>): seq<string> {
    if rels == [] then todo
    else
      var before := Added(todo, rels[..|rels| - 1], wanted);
      var rel := rels[|rels| - 1];
      if rel in wanted && rel !in before then before + [rel] else before
  }

  // Files of the slice that the peer does not have and that are not on their way to it.
  ghost function Lost(slice: seq<string>, answer: seq<string>, sends: seq<Send>): set<string> {
    set rel | rel in slice && rel !in answer && !InFlight(sends, rel)
  }

  ghost function Todo(toPush: seq<string>, slice: seq<string>, answer: Option<seq<string>>, live: map<string, Sig>, sends: seq<Send>)
    : seq<string>
  {
    if answer.None? then Added([], toPush, set rel | rel in toPush)
    else Added(Added([], toPush, set rel | rel in toPush && !(rel in answer.value && rel in live)), slice,
               Lost(slice, answer.value, sends))
  }

  ghost function Confirmed(rels: seq<string>, live: map<string, Sig>, toPush: seq<string>): set<Send> {
    set rel | rel in rels && rel in live && rel in toPush :: Send(rel, live[rel])
  }

  /** The answer comes, or None when there is none: what it confirms is marked. */
  ghost function Confirm(l: Ledger, answer: Option<seq<string>>): Ledger
    requires l.stage.Verifying?
  {
    var have := if answer.Some? then answer.value else [];
    l.(sent := MarkAll(l.sent, have, l.live, l.stage.toPush),
       stage := Marked(l.stage.toPush, l.stage.slice, answer),
       past := l.past.(confirmed := l.past.confirmed + Confirmed(have, l.live, l.stage.toPush)))
  }

  /** The marks are written: the rest of the plan and the lost files are scheduled. */
  ghost function Schedule(l: Ledger): Ledger
    requires l.stage.Marked?
  {
    var todo := Todo(l.stage.toPush, l.stage.slice, l.stage.answer, l.live, l.flow.sends);
    l.(flow := l.flow.(pending := l.flow.pending + |todo|), stage := Creating(todo, 0))
  }

  // ─── Creating sends ───────────────────────────────────────────────────────

  /** One element of the creation loop.  `ok` is whether the file could be read and the
      peer was there; the loop runs eight at a time, so they end in any order. */
  function Create(l: Ledger, i: nat, ok: bool): Ledger
    requires l.stage.Creating? && i < |l.stage.todo|
  {
    var rel := l.stage.todo[i];
    var todo := l.stage.todo[..i] + l.stage.todo[i + 1..];
    if ok && rel in l.live then
      l.(sent := Mark(l.sent, rel, l.live[rel]), flow := l.flow.(sends := l.flow.sends + [Send(rel, l.live[rel])]),
         stage := Creating(todo, l.stage.skipped))
    else l.(stage := Creating(todo, l.stage.skipped + 1), past := l.past.(dropped := l.past.dropped + {rel}))
  }

  function Less(a: nat, b: nat): nat {
    if a < b then 0 else a - b
  }

  function EndRound(l: Ledger): Ledger
    requires l.stage.Creating?
  {
    l.(sent := Unmark(l.sent, set rel | rel in l.sent.at && rel !in l.live),
       flow := l.flow.(pending := Less(l.flow.pending, l.stage.skipped)),
       stage := Idle)
  }

  // ─── Ends of transfers and of scans ───────────────────────────────────────

  function FinishRound(l: Ledger): Ledger {
    l.(flow := l.flow.(pending := 0, done := 0), past := l.past.(completions := 0, finishes := l.past.finishes + 1))
  }

  function CountDown(l: Ledger, status: Status): Ledger {
    if l.flow.pending == 0 then l
    else
      var flow := l.flow.(pending := l.flow.pending - 1, done := if status.Completed? then l.flow.done + 1 else l.flow.done);
      if flow.pending == 0 then FinishRound(l.(flow := flow)) else l.(flow := flow)
  }

  // The ledger after the transfer, before the counters.
  function Ended(l: Ledger, i: nat, status: Status): Ledger
    requires i < |l.flow.sends|
  {
    var s := l.flow.sends[i];
    var ended := l.(flow := l.flow.(sends := l.flow.sends[..i] + l.flow.sends[i + 1..]));
    if status.Completed? then
      ended.(past := l.past.(completed := l.past.completed + {s}, completions := l.past.completions + 1))
    else
      ended.(sent := if s.rel in l.sent.at then Unmark(l.sent, {s.rel}) else l.sent, past := l.past.(dropped := l.past.dropped + {s.rel}))
  }

  function Terminal(l: Ledger, i: nat, status: Status): Ledger
    requires i < |l.flow.sends|
  {
    CountDown(Ended(l, i, status), status)
  }

  function Rescan(l: Ledger, live: map<string, Sig>): Ledger {
    l.(live := live, past := l.past.(current := false))
  }

  function ScanEnded(l: Ledger): Ledger {
    if l.flow.pending == 0 then FinishRound(l) else l
  }

  datatype Step =
    | Start(toPush: seq<string>)
    | Answer(answer: Option<seq<string>>)
    | Scheduled
    | CreateOne(i: nat, ok: bool)
    | End
    | Ends(i: nat, status: Status)
    | Scanned(live: map<string, Sig>)
    | ScanDone

  /** Rounds run one at a time, and the index changes only between rounds. */
  ghost predicate Enabled(l: Ledger, step: Step) {
    match step
    case Start(toPush) => l.stage.Idle? && Plans(l, toPush)
    case Answer(_) => l.stage.Verifying?
    case Scheduled => l.stage.Marked?
    case CreateOne(i, _) => l.stage.Creating? && i < |l.stage.todo|
    case End => l.stage.Creating? && l.stage.todo == []
    case Ends(i, _) => i < |l.flow.sends|
    case Scanned(_) => l.stage.Idle?
    case ScanDone => true
  }

  ghost function Next(l: Ledger, step: Step): Ledger
    requires Enabled(l, step)
  {
    match step
    case Start(toPush) => StartRound(l, toPush)
    case Answer(answer) => Confirm(l, answer)
    case Scheduled => Schedule(l)
    case CreateOne(i, ok) => Create(l, i, ok)
    case End => EndRound(l)
    case Ends(i, status) => Terminal(l, i, status)
    case Scanned(live) => Rescan(l, live)
    case ScanDone => ScanEnded(l)
  }

  // ─── The invariant ────────────────────────────────────────────────────────

  /** A version has a send in flight, or one completed, or the peer said it has it. */
  ghost predicate Delivered(l: Ledger, s: Send) {
    s in l.flow.sends || s in l.past.completed || s in l.past.confirmed
  }

  ghost predicate EntriesDelivered(l: Ledger) {
    forall rel :: rel in l.sent.at ==> Delivered(l, Send(rel, l.sent.at[rel]))
  }

  function Outstanding(l: Ledger): nat {
    |l.flow.sends| + if l.stage.Creating? then |l.stage.todo| + l.stage.skipped else 0
  }

  ghost predicate CountsOk(l: Ledger) {
    l.flow.pending == Outstanding(l) && l.flow.done == l.past.completions
  }

  ghost predicate InSync(l: Ledger, rel: string) {
    rel in l.sent.at && rel in l.live && l.sent.at[rel] == l.live[rel]
  }

  /** While the index is the one the round planned from, a live file whose version is not
      in the ledger is still to be handled, or was skipped, or had a send fail. */
  ghost predicate NothingForgotten(l: Ledger) {
    l.past.current ==> forall rel :: rel in l.live ==> InSync(l, rel) || rel in l.past.dropped || Waiting(l.stage, rel)
  }

  ghost predicate Waiting(stage: Stage, rel: string) {
    match stage
    case Idle => false
    case Verifying(toPush, _) => rel in toPush
    case Marked(toPush, _, answer) => rel in toPush && !(answer.Some? && rel in answer.value)
    case Creating(todo, _) => rel in todo
  }

  ghost predicate StageLive(l: Ledger) {
    forall rel :: Mentioned(l.stage, rel) ==> rel in l.live
  }

  ghost predicate Mentioned(stage: Stage, rel: string) {
    match stage
    case Idle => false
    case Verifying(toPush, slice) => rel in toPush || rel in slice
    case Marked(toPush, slice, _) => rel in toPush || rel in slice
    case Creating(todo, _) => rel in todo
  }

  ghost predicate LedgerOk(l: Ledger) {
    SentOk(l.sent) && EntriesDelivered(l) && CountsOk(l) && NothingForgotten(l) && StageLive(l)
  }

  // A library just loaded: its sent rows are taken as versions once completed.
  function Loaded(live: map<string, Sig>, sent: Sent): Ledger {
    Ledger(live, sent, Flow([], 0, 0), 0, Idle,
           Past(set rel | rel in sent.at :: Send(rel, sent.at[rel]), {}, {}, 0, 0, false))
  }

  lemma LoadedOk(live: map<string, Sig>, sent: Sent)
    requires SentOk(sent)
    ensures LedgerOk(Loaded(live, sent))
  {
    var l := Loaded(live, sent);
    assert forall rel :: rel in sent.at ==> Delivered(l, Send(rel, sent.at[rel]));
  }

  // ─── Each step keeps it ───────────────────────────────────────────────────

  lemma {:induction false} LiveKeysOk(keys: seq<string>, live: map<string, Sig>)
    ensures forall rel :: rel in LiveKeys(keys, live) <==> rel in keys && rel in live
    ensures Distinct(keys) ==> Distinct(LiveKeys(keys, live))
  {
    if keys != [] {
      var init, last := keys[..|keys| - 1], keys[|keys| - 1];
      LiveKeysOk(init, live);
      assert keys == init + [last];
      if Distinct(keys) {
        assert Distinct(init) && last !in init;
      }
    }
  }

  lemma StartOk(l: Ledger, toPush: seq<string>)
    requires LedgerOk(l) && Enabled(l, Start(toPush))
    ensures LedgerOk(StartRound(l, toPush))
  {
    LiveKeysOk(l.sent.keys, l.live);
  }

  lemma {:induction false} MarkAllOk(s: Sent, rels: seq<string>, live: map<string, Sig>, toPush: seq<string>)
    requires SentOk(s)
    ensures var r := MarkAll(s, rels, live, toPush);
      && SentOk(r)
      && forall rel :: Find(r.at, rel) == if rel in rels && rel in live && rel in toPush then Some(live[rel]) else Find(s.at, rel)
  {
    if rels != [] {
      var init, last := rels[..|rels| - 1], rels[|rels| - 1];
      MarkAllOk(s, init, live, toPush);
      assert rels == init + [last];
      if last in live {
        MarkOk(MarkAll(s, init, live, toPush), last, live[last]);
      }
    }
  }

  lemma {:induction false} AddedOk(todo: seq<string>, rels: seq<string>, wanted: set<string>)
    ensures forall rel :: rel in Added(todo, rels, wanted) <==> rel in todo || (rel in rels && rel in wanted)
    ensures Distinct(todo) ==> Distinct(Added(todo, rels, wanted))
  {
    if rels != [] {
      var init, last := rels[..|rels| - 1], rels[|rels| - 1];
      AddedOk(todo, init, wanted);
      assert rels == init + [last];
    }
  }

  /** What is scheduled: the planned files the peer did not confirm, and the lost ones. */
  lemma TodoOk(toPush: seq<string>, slice: seq<string>, answer: Option<seq<string>>, live: map<string, Sig>, sends: seq<Send>)
    ensures var todo := Todo(toPush, slice, answer, live, sends);
      && Distinct(todo)
      && forall rel :: rel in todo <==>
           || (rel in toPush && !(answer.Some? && rel in answer.value && rel in live))
           || (answer.Some? && rel in Lost(slice, answer.value, sends))
  {
    if answer.None? {
      AddedOk([], toPush, set rel | rel in toPush);
    } else {
      var first := set rel | rel in toPush && !(rel in answer.value && rel in live);
      AddedOk([], toPush, first);
      AddedOk(Added([], toPush, first), slice, Lost(slice, answer.value, sends));
    }
  }

  lemma ScheduleOk(l: Ledger)
    requires LedgerOk(l) && l.stage.Marked?
    ensures LedgerOk(Schedule(l))
  {
    TodoOk(l.stage.toPush, l.stage.slice, l.stage.answer, l.live, l.flow.sends);
    forall rel | rel in l.sent.at ensures Delivered(Schedule(l), Send(rel, l.sent.at[rel])) {
      assert Delivered(l, Send(rel, l.sent.at[rel]));
    }
    forall rel | l.past.current && rel in l.live
      ensures InSync(l, rel) || rel in l.past.dropped || rel in Schedule(l).stage.todo
    {
      assert InSync(l, rel) || rel in l.past.dropped || Waiting(l.stage, rel);
    }
  }

  lemma AnswerOk(l: Ledger, answer: Option<seq<string>>)
    requires LedgerOk(l) && l.stage.Verifying?
    ensures LedgerOk(Confirm(l, answer))
  {
    var have := if answer.Some? then answer.value else [];
    var after := Confirm(l, answer);
    MarkAllOk(l.sent, have, l.live, l.stage.toPush);
    forall rel | rel in after.sent.at ensures Delivered(after, Send(rel, after.sent.at[rel])) {
      assert Find(after.sent.at, rel).Some?;
      if rel in have && rel in l.live && rel in l.stage.toPush {
        assert Send(rel, l.live[rel]) in Confirmed(have, l.live, l.stage.toPush);
      } else {
        assert Find(l.sent.at, rel) == Find(after.sent.at, rel);
        assert Delivered(l, Send(rel, l.sent.at[rel]));
      }
    }
    assert NothingForgotten(after) by {
      forall rel | l.past.current && rel in l.live
        ensures InSync(after, rel) || rel in l.past.dropped || Waiting(after.stage, rel)
      {
        assert InSync(l, rel) || rel in l.past.dropped || rel in l.stage.toPush;
        assert Find(after.sent.at, rel).Some? <==> rel in after.sent.at;
        assert Find(l.sent.at, rel).Some? <==> rel in l.sent.at;
      }
    }
  }

  lemma CreateOk(l: Ledger, i: nat, ok: bool)
    requires LedgerOk(l) && l.stage.Creating? && i < |l.stage.todo|
    ensures LedgerOk(Create(l, i, ok))
  {
    var after := Create(l, i, ok);
    var rel := l.stage.todo[i];
    forall other | other in l.stage.todo && other != rel ensures other in after.stage.todo {
      DropAt(l.stage.todo, i, other);
    }
    assert forall other :: other in after.stage.todo ==> other in l.stage.todo;
    assert EntriesDelivered(after) by {
      forall other | other in after.sent.at ensures Delivered(after, Send(other, after.sent.at[other])) {
        if other != rel || after.sent == l.sent {
          assert Delivered(l, Send(other, l.sent.at[other]));
        } else {
          assert Send(rel, l.live[rel]) in after.flow.sends;
        }
      }
    }
    assert NothingForgotten(after) by {
      forall other | l.past.current && other in l.live
        ensures InSync(after, other) || other in after.past.dropped || other in after.stage.todo
      {
        assert InSync(l, other) || other in l.past.dropped || other in l.stage.todo;
      }
    }
  }

  lemma EndOk(l: Ledger)
    requires LedgerOk(l) && l.stage.Creating? && l.stage.todo == []
    ensures LedgerOk(EndRound(l))
  {
    UnmarkOk(l.sent, set rel | rel in l.sent.at && rel !in l.live);
    forall rel | rel in l.live ensures InSync(l, rel) ==> InSync(EndRound(l), rel) {
    }
    forall rel | rel in EndRound(l).sent.at ensures Delivered(EndRound(l), Send(rel, l.sent.at[rel])) {
      assert Delivered(l, Send(rel, l.sent.at[rel]));
    }
    assert forall rel :: rel in l.live && l.past.current ==> InSync(l, rel) || rel in l.past.dropped;
  }

  lemma TerminalCounts(l: Ledger, i: nat, status: Status)
    requires CountsOk(l) && i < |l.flow.sends|
    ensures CountsOk(Terminal(l, i, status))
  {
  }

  // Counting down touches the counters only.
  lemma CountDownKeeps(l: Ledger, status: Status)
    ensures var r := CountDown(l, status);
      && r.live == l.live && r.sent == l.sent && r.stage == l.stage && r.flow.sends == l.flow.sends
      && r.past == l.past.(completions := r.past.completions, finishes := r.past.finishes)
  {
  }

  lemma TerminalEntries(l: Ledger, i: nat, status: Status)
    requires SentOk(l.sent) && EntriesDelivered(l) && i < |l.flow.sends|
    ensures SentOk(Terminal(l, i, status).sent) && EntriesDelivered(Terminal(l, i, status))
  {
    CountDownKeeps(Ended(l, i, status), status);
    hide CountDown;
    var after := Terminal(l, i, status);
    var s := l.flow.sends[i];
    UnmarkOk(l.sent, {s.rel});
    forall rel | rel in after.sent.at ensures Delivered(after, Send(rel, after.sent.at[rel])) {
      var other := Send(rel, l.sent.at[rel]);
      assert Delivered(l, other);
      if other in l.flow.sends && other != s {
        DropAt(l.flow.sends, i, other);
      }
    }
  }

  lemma TerminalRemembers(l: Ledger, i: nat, status: Status)
    requires NothingForgotten(l) && i < |l.flow.sends|
    ensures NothingForgotten(Terminal(l, i, status))
  {
    CountDownKeeps(Ended(l, i, status), status);
    hide CountDown;
    var after := Terminal(l, i, status);
    forall other | l.past.current && other in l.live
      ensures InSync(after, other) || other in after.past.dropped || Waiting(l.stage, other)
    {
      assert InSync(l, other) || other in l.past.dropped || Waiting(l.stage, other);
    }
  }

  lemma TerminalOk(l: Ledger, i: nat, status: Status)
    requires LedgerOk(l) && i < |l.flow.sends|
    ensures LedgerOk(Terminal(l, i, status))
  {
    hide SentOk, EntriesDelivered, CountsOk, NothingForgotten;
    TerminalCounts(l, i, status);
    TerminalEntries(l, i, status);
    TerminalRemembers(l, i, status);
  }

  /** Every step of a round, every end of a transfer and every scan keeps the ledger. */
  lemma StepOk(l: Ledger, step: Step)
    requires LedgerOk(l) && Enabled(l, step)
    ensures LedgerOk(Next(l, step))
  {
    match step
    case Start(toPush) => StartOk(l, toPush);
    case Answer(answer) => AnswerOk(l, answer);
    case Scheduled => ScheduleOk(l);
    case CreateOne(i, ok) => CreateOk(l, i, ok);
    case End => EndOk(l);
    case Ends(i, status) => TerminalOk(l, i, status);
    case Scanned(live) =>
    case ScanDone =>
  }
}
