/** The library record of a push library, updated in place.  A round is the sequence
    BeginRound, ApplyAnswer, SchedulePushes, CreateSend for each scheduled file, EndCreation;
    the ends of transfers may come between any two of them. */
module PushLibraries {
  import opened Collections
  import opened Options
  import opened SyncScan
  import opened PushLedger
  import PushRounds

  class PushLibrary {
    // The live part of the index.
    var index: map<string, Sig>
    var sentIndex: Sent
    var phasePending: nat
    var phaseDone: nat
    var verifyRound: nat
    // What the round in progress carries across its awaits.
    var stage: Stage
    // The transfer engine's sends of this library, queued or running.
    var transfers: seq<Send>
    var past: Past

    ghost function Ledger(): Ledger
      reads this
    {
      PushLedger.Ledger(index, sentIndex, Flow(transfers, phasePending, phaseDone), verifyRound, stage, past)
    }

    /** What every call leaves behind: the ledger invariant, over the record's fields. */
    ghost predicate Valid()
      reads this
    {
      LedgerOk(Ledger())
    }

    // The library as loaded from its rows.
    constructor (live: map<string, Sig>, sent: Sent)
      requires SentOk(sent)
      ensures Ledger() == Loaded(live, sent)
      ensures Valid()
    {
      index, sentIndex, phasePending, phaseDone, verifyRound := live, sent, 0, 0, 0;
      stage, transfers := Idle, [];
      past := Past(set rel | rel in sent.at :: Send(rel, sent.at[rel]), {}, {}, 0, 0, false);
      new;
      LoadedOk(live, sent);
    }

    /** After a round over the present index, with its sends all ended and none of them
        skipped or failed, every live file is in the ledger at its present version, and that
        version was delivered: its send completed or the peer confirmed it. */
    lemma RoundDelivered(rel: string)
      requires Valid() && stage.Idle? && past.current && past.dropped == {} && transfers == [] && rel in index
      ensures phasePending == 0
      ensures rel in sentIndex.at && sentIndex.at[rel] == index[rel]
      ensures Send(rel, index[rel]) in past.completed || Send(rel, index[rel]) in past.confirmed
    {
      assert InSync(Ledger(), rel);
      assert Delivered(Ledger(), Send(rel, sentIndex.at[rel]));
    }

    // The planner in push mode.
    method PlanPushes() returns (toPush: seq<string>)
      ensures Plans(Ledger(), toPush)
    {
      toPush := [];
      var todo := index.Keys;
      while todo != {}
        invariant todo <= index.Keys
        invariant Distinct(toPush)
        invariant forall rel :: rel in toPush <==> rel !in todo && Wanted(Ledger(), rel)
        decreases |todo|
      {
        var rel :| rel in todo;
        todo := todo - {rel};
        if rel !in sentIndex.at {
          toPush := toPush + [rel];
        } else if sentIndex.at[rel] != index[rel] {
          toPush := toPush + [rel];
        }
      }
    }

    method SentRels() returns (rels: seq<string>)
      ensures rels == LiveKeys(sentIndex.keys, index)
    {
      rels := [];
      for i := 0 to |sentIndex.keys|
        invariant rels == LiveKeys(sentIndex.keys[..i], index)
      {
        assert sentIndex.keys[..i + 1][..i] == sentIndex.keys[..i];
        if sentIndex.keys[i] in index { rels := rels + [sentIndex.keys[i]]; }
      }
      assert sentIndex.keys[..|sentIndex.keys|] == sentIndex.keys;
    }

    method BeginRound() returns (toPush: seq<string>)
      requires Valid() && stage.Idle?
      modifies `verifyRound, `stage, `past
      ensures Plans(old(Ledger()), toPush)
      ensures Ledger() == StartRound(old(Ledger()), toPush)
      ensures Valid()
    {
      toPush := PlanPushes();
      var sentRels := SentRels();
      var sentSlice := sentRels;
      if |sentRels| > MAX_VERIFY_FILES {
        verifyRound := verifyRound + 1;
        var idx := verifyRound % Chunks(|sentRels|);
        var from := Min(idx * MAX_VERIFY_FILES, |sentRels|);
        var to := Min((idx + 1) * MAX_VERIFY_FILES, |sentRels|);
        assert to == Min(from + MAX_VERIFY_FILES, |sentRels|);
        sentSlice := sentRels[from..to];
      }
      stage := Verifying(toPush, sentSlice);
      past := past.(dropped := {}, current := true);
      StartOk(old(Ledger()), toPush);
    }

    method InFlightRels() returns (rels: set<string>)
      ensures forall rel :: rel in rels <==> InFlight(transfers, rel)
    {
      rels := {};
      for i := 0 to |transfers|
        invariant forall rel :: rel in rels <==> exists j :: 0 <= j < i && transfers[j].rel == rel
      {
        rels := rels + {transfers[i].rel};
      }
      assert forall rel :: InFlight(transfers, rel) <==> exists j :: 0 <= j < |transfers| && transfers[j].rel == rel;
    }

    // Files the peer confirmed count as sent at their current version.
    method MarkVerified(verified: seq<string>, toPush: seq<string>)
      modifies `sentIndex, `past
      ensures sentIndex == MarkAll(old(sentIndex), verified, index, toPush)
      ensures past == old(past).(confirmed := old(past).confirmed + Confirmed(verified, index, toPush))
    {
      var confirmed := {};
      for i := 0 to |verified|
        invariant sentIndex == MarkAll(old(sentIndex), verified[..i], index, toPush)
        invariant past == old(past) && confirmed == Confirmed(verified[..i], index, toPush)
      {
        var rel := verified[i];
        assert verified[..i + 1] == verified[..i] + [rel];
        OneMoreConfirmed(verified[..i], rel, toPush);
        if rel in index && rel in toPush {
          sentIndex := Mark(sentIndex, rel, index[rel]);
          confirmed := confirmed + {Send(rel, index[rel])};
        }
      }
      assert verified[..|verified|] == verified;
      past := past.(confirmed := past.confirmed + confirmed);
    }

    lemma OneMoreConfirmed(rels: seq<string>, rel: string, toPush: seq<string>)
      ensures Confirmed(rels + [rel], index, toPush) ==
        Confirmed(rels, index, toPush) + if rel in index && rel in toPush then {Send(rel, index[rel])} else {}
    {
    }

    static method Collect(todo: seq<string>, rels: seq<string>, wanted: set<string>) returns (r: seq<string>)
      ensures r == Added(todo, rels, wanted)
    {
      r := todo;
      for i := 0 to |rels|
        invariant r == Added(todo, rels[..i], wanted)
      {
        assert rels[..i + 1] == rels[..i] + [rels[i]];
        if rels[i] in wanted && rels[i] !in r { r := r + [rels[i]]; }
      }
      assert rels[..|rels|] == rels;
    }

    method ApplyAnswer(answer: Option<seq<string>>)
      requires Valid() && stage.Verifying?
      modifies `sentIndex, `stage, `past
      ensures Ledger() == Confirm(old(Ledger()), answer)
      ensures Valid()
    {
      AnswerOk(Ledger(), answer);
      hide LedgerOk;
      if answer.Some? { MarkVerified(answer.value, stage.toPush); }
      stage := Marked(stage.toPush, stage.slice, answer);
      if answer.None? {
        assert Confirmed([], index, stage.toPush) == {};
        assert past.confirmed == past.confirmed + {};
      }
    }

    method SchedulePushes()
      requires Valid() && stage.Marked?
      modifies `phasePending, `stage
      ensures Ledger() == Schedule(old(Ledger()))
      ensures Valid()
    {
      ScheduleOk(Ledger());
      hide LedgerOk;
      var toPush, slice, answer := stage.toPush, stage.slice, stage.answer;
      var lost := {};
      var have := {};
      if answer.Some? {
        have := set rel | rel in answer.value && rel in index && rel in toPush;
        var inFlight := InFlightRels();
        lost := set rel | rel in slice && rel !in answer.value && rel !in inFlight;
        assert lost == Lost(slice, answer.value, transfers);
      }
      var wanted := set rel | rel in toPush && rel !in have;
      assert answer.None? ==> wanted == set rel | rel in toPush;
      assert answer.Some? ==> wanted == set rel | rel in toPush && !(rel in answer.value && rel in index);
      var pendingRels := Collect([], toPush, wanted);
      if answer.Some? { pendingRels := Collect(pendingRels, slice, lost); }
      phasePending := phasePending + |pendingRels|;
      stage := Creating(pendingRels, 0);
    }

    method CreateSend(i: nat, ok: bool)
      requires Valid() && stage.Creating? && i < |stage.todo|
      modifies `sentIndex, `transfers, `stage, `past
      ensures Ledger() == Create(old(Ledger()), i, ok)
      ensures var rel := old(stage).todo[i];
        if ok && rel in index
        then transfers == old(transfers) + [Send(rel, index[rel])] && sentIndex.at == old(sentIndex).at[rel := index[rel]]
             && stage.skipped == old(stage).skipped && past == old(past)
        else transfers == old(transfers) && sentIndex == old(sentIndex)
             && stage.skipped == old(stage).skipped + 1 && past.dropped == old(past).dropped + {rel}
      ensures Valid()
    {
      CreateOk(Ledger(), i, ok);
      hide LedgerOk;
      var rel := stage.todo[i];
      var rest := stage.todo[..i] + stage.todo[i + 1..];
      if !ok || rel !in index {
        stage := Creating(rest, stage.skipped + 1);
        past := past.(dropped := past.dropped + {rel});
        return;
      }
      transfers := transfers + [Send(rel, index[rel])];
      sentIndex := Mark(sentIndex, rel, index[rel]);
      stage := Creating(rest, stage.skipped);
    }

    // Entries of files that are gone leave the ledger.
    method PruneSent()
      requires SentOk(sentIndex)
      modifies `sentIndex
      ensures sentIndex == Unmark(old(sentIndex), set rel | rel in old(sentIndex).at && rel !in index)
    {
      var keys, at := [], sentIndex.at;
      ghost var gone := set rel | rel in sentIndex.at && rel !in index;
      ghost var dropped: set<string> := {};
      for i := 0 to |sentIndex.keys|
        invariant sentIndex == old(sentIndex)
        invariant keys == Without(sentIndex.keys[..i], gone)
        invariant at == sentIndex.at - dropped
        invariant forall rel :: rel in dropped <==> rel in sentIndex.keys[..i] && rel in gone
      {
        var rel := sentIndex.keys[i];
        assert sentIndex.keys[..i + 1] == sentIndex.keys[..i] + [rel];
        if rel !in index {
          at := at - {rel};
          dropped := dropped + {rel};
        } else {
          keys := keys + [rel];
        }
      }
      assert sentIndex.keys[..|sentIndex.keys|] == sentIndex.keys;
      assert dropped == gone;
      sentIndex := Sent(keys, at);
    }

    method EndCreation()
      requires Valid() && stage.Creating? && stage.todo == []
      modifies `sentIndex, `phasePending, `stage
      ensures Ledger() == EndRound(old(Ledger()))
      ensures Valid()
    {
      EndOk(Ledger());
      var notCreated := stage.skipped;
      if notCreated > 0 && phasePending > 0 {
        phasePending := if phasePending > notCreated then phasePending - notCreated else 0;
      }
      PruneSent();
      stage := Idle;
    }

    method Finish()
      modifies `phasePending, `phaseDone, `past
      ensures Ledger() == FinishRound(old(Ledger()))
    {
      phasePending, phaseDone := 0, 0;
      past := past.(completions := 0, finishes := past.finishes + 1);
    }

    method TransferTerminal(i: nat, status: Status)
      requires Valid() && i < |transfers|
      modifies `sentIndex, `transfers, `phasePending, `phaseDone, `past
      ensures Ledger() == Terminal(old(Ledger()), i, status)
      ensures Valid()
      ensures past.finishes > old(past).finishes ==> Outstanding(Ledger()) == 0
    {
      TerminalOk(Ledger(), i, status);
      PushRounds.FinishedMeansDone(Ledger(), Ends(i, status));
      hide LedgerOk, Outstanding;
      var s := transfers[i];
      transfers := transfers[..i] + transfers[i + 1..];
      if !status.Completed? {
        if s.rel in sentIndex.at { sentIndex := Unmark(sentIndex, {s.rel}); }
        past := past.(dropped := past.dropped + {s.rel});
      } else {
        past := past.(completed := past.completed + {s}, completions := past.completions + 1);
      }
      if phasePending > 0 {
        phasePending := phasePending - 1;
        if status.Completed? { phaseDone := phaseDone + 1; }
        if phasePending == 0 { Finish(); }
      }
    }

    // The scan found another index; it runs only between rounds.
    method TakeIndex(live: map<string, Sig>)
      requires Valid() && stage.Idle?
      modifies `index, `past
      ensures Ledger() == Rescan(old(Ledger()), live)
      ensures Valid()
    {
      index, past := live, past.(current := false);
      StepOk(old(Ledger()), Scanned(live));
    }

    method ScanIsOver()
      requires Valid()
      modifies `phasePending, `phaseDone, `past
      ensures Ledger() == ScanEnded(old(Ledger()))
      ensures Valid()
      ensures past.finishes > old(past).finishes ==> Outstanding(Ledger()) == 0
    {
      StepOk(Ledger(), ScanDone);
      if phasePending == 0 { Finish(); }
    }
  }
}
