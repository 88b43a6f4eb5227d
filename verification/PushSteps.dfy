/** What each step of a round does, told by its effects, and what a whole round in which
    every file can be sent leaves behind. */
module PushSteps {
  import opened Collections
  import opened Options
  import opened SyncScan
  import opened PushLedger

  // ─── The slice to verify ──────────────────────────────────────────────────

  /** With at most 4000 sent files that are live, all of them are checked; with n more, the
      4000 (or fewer, at the end) from the position that round ceil(n / 4000) cycles give. */
  lemma SliceExact(rels: seq<string>, round: nat)
    ensures |Slice(rels, round)| <= 4000
    ensures |rels| <= 4000 ==> Slice(rels, round) == rels
    ensures |rels| > 4000 ==>
      var first := (round % ((|rels| + 3999) / 4000)) * 4000;
      first < |rels| && Slice(rels, round) == rels[first..if first + 4000 < |rels| then first + 4000 else |rels|]
  {
    if |rels| > 4000 {
      var c := (|rels| + 3999) / 4000;
      assert round % c <= c - 1;
      assert (c - 1) * 4000 < |rels|;
    }
  }

  /** A round begins with exactly the live files that are not in the ledger at their present
      version as its plan: the live sent files, or a slice of them, are to be verified; what was
      dropped before is forgotten and the index is the present one. */
  lemma StartExact(l: Ledger, toPush: seq<string>)
    requires LedgerOk(l) && Enabled(l, Start(toPush))
    ensures var after := Next(l, Start(toPush));
      && after.stage.Verifying? && after.stage.toPush == toPush
      && (forall rel :: rel in toPush <==> rel in l.live && !InSync(l, rel))
      && (forall rel :: rel in after.stage.slice ==> rel in l.sent.at && rel in l.live)
      && (|LiveKeys(l.sent.keys, l.live)| <= 4000 ==>
            (forall rel :: rel in l.sent.at && rel in l.live ==> rel in after.stage.slice) && after.round == l.round)
      && (|LiveKeys(l.sent.keys, l.live)| > 4000 ==> after.round == l.round + 1)
      && after.stage.slice == Slice(LiveKeys(l.sent.keys, l.live), after.round)
      && after.past == l.past.(dropped := {}, current := true)
      && after == l.(stage := after.stage, round := after.round, past := after.past)
  {
    LiveKeysOk(l.sent.keys, l.live);
  }

  // ─── The answer ───────────────────────────────────────────────────────────

  // The peer says it has a planned file that is live.
  predicate Affirms(answer: Option<seq<string>>, rel: string) {
    answer.Some? && rel in answer.value
  }

  lemma {:induction false} MarkAllKeeps(s: Sent, rels: seq<string>, live: map<string, Sig>, toPush: seq<string>)
    ensures s.keys <= MarkAll(s, rels, live, toPush).keys
  {
    if rels != [] { MarkAllKeeps(s, rels[..|rels| - 1], live, toPush); }
  }

  /** Exactly the planned, live files the peer affirms are marked, at their present version. */
  lemma AnswerExact(l: Ledger, answer: Option<seq<string>>)
    requires LedgerOk(l) && l.stage.Verifying?
    ensures var after := Next(l, Answer(answer));
      && after.stage == Marked(l.stage.toPush, l.stage.slice, answer)
      && after.live == l.live && after.flow == l.flow && after.round == l.round && l.sent.keys <= after.sent.keys
      && (forall rel :: Find(after.sent.at, rel) ==
            if Affirms(answer, rel) && rel in l.stage.toPush && rel in l.live then Some(l.live[rel]) else Find(l.sent.at, rel))
      && (forall s :: s in after.past.confirmed <==>
            s in l.past.confirmed || (Affirms(answer, s.rel) && s.rel in l.stage.toPush && s.rel in l.live && l.live[s.rel] == s.sig))
      && after.past == l.past.(confirmed := after.past.confirmed)
  {
    var have := if answer.Some? then answer.value else [];
    MarkAllOk(l.sent, have, l.live, l.stage.toPush);
    MarkAllKeeps(l.sent, have, l.live, l.stage.toPush);
  }

  /** Scheduled are exactly the planned files that were not affirmed, and the verified ones
      that the peer does not have and that no send is carrying to it; each once. */
  lemma ScheduleExact(l: Ledger)
    requires LedgerOk(l) && l.stage.Marked?
    ensures var after := Next(l, Scheduled);
      && after.stage.Creating? && after.stage.skipped == 0 && Distinct(after.stage.todo)
      && (forall rel :: rel in after.stage.todo <==>
            || (rel in l.stage.toPush && !Affirms(l.stage.answer, rel))
            || (l.stage.answer.Some? && rel in l.stage.slice && rel !in l.stage.answer.value && !exists s :: s in l.flow.sends && s.rel == rel))
      && after.flow == l.flow.(pending := l.flow.pending + |after.stage.todo|)
      && after == l.(stage := after.stage, flow := after.flow)
  {
    TodoOk(l.stage.toPush, l.stage.slice, l.stage.answer, l.live, l.flow.sends);
    assert forall rel :: rel in l.stage.toPush ==> Mentioned(l.stage, rel);
  }

  // ─── Creating ─────────────────────────────────────────────────────────────

  /** A live file that can be read is sent at its present version and marked with it; it is
      neither skipped nor dropped. */
  lemma SendExact(l: Ledger, i: nat)
    requires l.stage.Creating? && i < |l.stage.todo| && l.stage.todo[i] in l.live
    ensures var rel := l.stage.todo[i];
      var after := Next(l, CreateOne(i, true));
      && after.flow == l.flow.(sends := l.flow.sends + [Send(rel, l.live[rel])])
      && after.sent.at == l.sent.at[rel := l.live[rel]]
      && after.sent.keys == (if rel in l.sent.at then l.sent.keys else l.sent.keys + [rel])
      && after.stage == Creating(l.stage.todo[..i] + l.stage.todo[i + 1..], l.stage.skipped)
      && after == l.(flow := after.flow, sent := after.sent, stage := after.stage)
  {
  }

  /** A skip means that the file could not be read, the peer was gone, or the file is no
      longer live; it sends and marks nothing. */
  lemma SkipExact(l: Ledger, i: nat, ok: bool)
    requires l.stage.Creating? && i < |l.stage.todo| && Next(l, CreateOne(i, ok)).flow.sends == l.flow.sends
    ensures var rel := l.stage.todo[i];
      var after := Next(l, CreateOne(i, ok));
      && (!ok || rel !in l.live)
      && after.stage == Creating(l.stage.todo[..i] + l.stage.todo[i + 1..], l.stage.skipped + 1)
      && after.past == l.past.(dropped := l.past.dropped + {rel})
      && after == l.(stage := after.stage, past := after.past)
  {
  }

  // The order in which the scheduled files are taken up.
  predicate Takes(n: nat, order: seq<nat>) {
    |order| == n && forall k :: 0 <= k < n ==> order[k] < n - k
  }

  // Every scheduled file is taken up, in this order, and can be read.
  function CreateEach(l: Ledger, order: seq<nat>): (r: Ledger)
    requires l.stage.Creating? && Takes(|l.stage.todo|, order)
    ensures r.stage.Creating? && r.stage.todo == []
    decreases |order|
  {
    if order == [] then l else CreateEach(Create(l, order[0], true), order[1..])
  }

  lemma {:induction false} CreateEachExact(l: Ledger, order: seq<nat>)
    requires LedgerOk(l) && l.stage.Creating? && Takes(|l.stage.todo|, order)
    ensures var r := CreateEach(l, order);
      && LedgerOk(r) && r.stage == Creating([], l.stage.skipped) && r.live == l.live && r.past == l.past && r.round == l.round
      && l.flow.sends <= r.flow.sends && |r.flow.sends| == |l.flow.sends| + |l.stage.todo|
      && r.flow.pending == l.flow.pending && r.flow.done == l.flow.done
      && (forall rel :: rel in l.stage.todo ==> Send(rel, l.live[rel]) in r.flow.sends && InSync(r, rel))
      && (forall s :: s in r.flow.sends ==> s in l.flow.sends || (s.rel in l.stage.todo && s.sig == l.live[s.rel]))
      && (forall rel :: rel !in l.stage.todo ==> Find(r.sent.at, rel) == Find(l.sent.at, rel))
    decreases |order|
  {
    if order != [] {
      var i := order[0];
      var rel, next := l.stage.todo[i], Create(l, i, true);
      assert Mentioned(l.stage, rel);
      CreateOk(l, i, true);
      SendExact(l, i);
      CreateEachExact(next, order[1..]);
      var r := CreateEach(l, order);
      assert Send(rel, l.live[rel]) in next.flow.sends;
      forall other | other in l.stage.todo
        ensures Send(other, l.live[other]) in r.flow.sends && InSync(r, other)
      {
        assert Mentioned(l.stage, other);
        if other in next.stage.todo {
        } else {
          if other != rel { DropAt(l.stage.todo, i, other); }
          assert Find(r.sent.at, rel) == Find(next.sent.at, rel);
        }
      }
      assert forall other :: other in next.stage.todo ==> other in l.stage.todo;
    }
  }

  /** A whole round over any ledger and any plan, in which every scheduled file can be read:
      each planned file the peer did not affirm is on its way at its present version, each
      affirmed one is marked, so is each live file that was in the ledger and not planned;
      nothing is dropped, nothing is sent but the planned and the lost files, and a file
      verified as lost is on its way too. */
  lemma WholeRound(l: Ledger, toPush: seq<string>, answer: Option<seq<string>>, order: seq<nat>)
    requires LedgerOk(l) && Enabled(l, Start(toPush))
    requires var marked := Next(Next(l, Start(toPush)), Answer(answer)); Takes(|Next(marked, Scheduled).stage.todo|, order)
    ensures var started := Next(l, Start(toPush));
      var r := EndRound(CreateEach(Next(Next(started, Answer(answer)), Scheduled), order));
      && LedgerOk(r) && r.stage.Idle? && r.live == l.live && r.past.dropped == {}
      && (forall rel :: rel in toPush && !Affirms(answer, rel) ==> Send(rel, l.live[rel]) in r.flow.sends)
      && (forall rel :: rel in l.live ==> InSync(r, rel))
      && (forall rel :: rel in r.sent.at ==> rel in l.live)
      && l.flow.sends <= r.flow.sends
      && (forall s :: s in r.flow.sends && s !in l.flow.sends ==>
            && s.rel in l.live && s.sig == l.live[s.rel] && !Affirms(answer, s.rel)
            && (s.rel in toPush || (s.rel in started.stage.slice && !InFlight(l.flow.sends, s.rel))))
      && (answer.Some? ==> forall rel :: rel in started.stage.slice && rel !in answer.value ==> InFlight(r.flow.sends, rel))
  {
    hide LedgerOk, Create, Confirm, Schedule;
    var started := Next(l, Start(toPush));
    StepOk(l, Start(toPush));
    StartExact(l, toPush);
    var marked := Next(started, Answer(answer));
    StepOk(started, Answer(answer));
    AnswerExact(started, answer);
    var creating := Next(marked, Scheduled);
    StepOk(marked, Scheduled);
    ScheduleExact(marked);
    CreateEachExact(creating, order);
    var done := CreateEach(creating, order);
    EndOk(done);
    EndExact(done);
    RoundIsInSync(done, EndRound(done));
    InFlightStays(l, started.stage.slice, answer, creating, EndRound(done));
    AllScheduled(creating);
  }

  lemma AllScheduled(l: Ledger)
    requires LedgerOk(l) && l.stage.Creating?
    ensures forall rel :: rel in l.stage.todo ==> rel in l.live
  {
    assert forall rel :: rel in l.stage.todo ==> Mentioned(l.stage, rel);
  }

  // With nothing dropped, the end of a round finds every live file in the ledger.
  lemma RoundIsInSync(l: Ledger, r: Ledger)
    requires LedgerOk(l) && l.stage.Creating? && l.stage.todo == [] && l.past.current && l.past.dropped == {}
    requires r.live == l.live && forall rel :: rel in l.live ==> Find(r.sent.at, rel) == Find(l.sent.at, rel)
    ensures forall rel :: rel in l.live ==> InSync(r, rel)
  {
    forall rel | rel in l.live ensures InSync(r, rel) {
      assert InSync(l, rel);
      assert Find(r.sent.at, rel) == Find(l.sent.at, rel);
    }
  }

  lemma InFlightStays(l: Ledger, slice: seq<string>, answer: Option<seq<string>>, creating: Ledger, r: Ledger)
    requires l.flow.sends <= r.flow.sends && creating.stage.Creating?
    requires answer.Some? ==> forall rel :: rel in slice && rel !in answer.value && !InFlight(l.flow.sends, rel) ==> rel in creating.stage.todo
    requires forall rel :: rel in creating.stage.todo ==> InFlight(r.flow.sends, rel)
    ensures answer.Some? ==> forall rel :: rel in slice && rel !in answer.value ==> InFlight(r.flow.sends, rel)
  {
    if answer.Some? {
      forall rel | rel in slice && rel !in answer.value ensures InFlight(r.flow.sends, rel) {
        if InFlight(l.flow.sends, rel) {
          var s :| s in l.flow.sends && s.rel == rel;
          assert s in r.flow.sends;
        }
      }
    }
  }

  // ─── Ends ─────────────────────────────────────────────────────────────────

  /** The end of a round: entries of files that are no longer live are gone, every other
      entry stays, and pending loses what was skipped. */
  lemma EndExact(l: Ledger)
    requires LedgerOk(l) && Enabled(l, End)
    ensures var after := Next(l, End);
      && after.stage.Idle? && SentOk(after.sent)
      && (forall rel :: Find(after.sent.at, rel) == if rel in l.live then Find(l.sent.at, rel) else None)
      && after.flow == l.flow.(pending := l.flow.pending - l.stage.skipped)
      && after == l.(stage := after.stage, sent := after.sent, flow := after.flow)
  {
    UnmarkOk(l.sent, set rel | rel in l.sent.at && rel !in l.live);
  }

  /** The end of a transfer takes exactly that send off, takes a failed file out of the
      ledger, counts, and finishes the round when it was the last. */
  lemma TerminalExact(l: Ledger, i: nat, status: Status)
    requires LedgerOk(l) && Enabled(l, Ends(i, status))
    ensures var s := l.flow.sends[i];
      var after := Next(l, Ends(i, status));
      && after.flow.sends == l.flow.sends[..i] + l.flow.sends[i + 1..]
      && (forall rel :: Find(after.sent.at, rel) == if rel == s.rel && status != Completed then None else Find(l.sent.at, rel))
      && after.past.completed == (if status == Completed then l.past.completed + {s} else l.past.completed)
      && after.past.dropped == (if status == Completed then l.past.dropped else l.past.dropped + {s.rel})
      && (if l.flow.pending == 1
          then after.flow.pending == 0 && after.flow.done == 0 && after.past.finishes == l.past.finishes + 1
          else && after.flow.pending == l.flow.pending - 1 && after.past.finishes == l.past.finishes
               && after.flow.done == l.flow.done + if status == Completed then 1 else 0)
      && after.live == l.live && after.stage == l.stage && after.round == l.round
  {
  }

  /** A scan between rounds replaces the live files and touches nothing that was sent; at its end
      the round is finished if nothing is pending, and otherwise left to the last transfer. */
  lemma ScansExact(l: Ledger, live: map<string, Sig>)
    requires LedgerOk(l)
    ensures Enabled(l, Scanned(live)) ==>
      Next(l, Scanned(live)) == Ledger(live, l.sent, l.flow, l.round, l.stage, l.past.(current := false))
    ensures Next(l, ScanDone) ==
      if l.flow.pending == 0 then l.(flow := l.flow.(done := 0), past := l.past.(completions := 0, finishes := l.past.finishes + 1)) else l
  {
  }
}
