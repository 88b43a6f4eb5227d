/** Whole runs of a push library: what the ledger guarantees at every point, when a round
    may be declared finished, what a failed send leads to, and how the rotating check of
    sent files comes round to each of them. */
module PushRounds {
  import opened Collections
  import opened Options
  import opened SyncScan
  import opened PushLedger

  // A step that is not enabled does not happen.
  ghost function Run(l: Ledger, steps: seq<Step>): Ledger {
    if steps == [] then l
    else
      var before := Run(l, steps[..|steps| - 1]);
      if Enabled(before, steps[|steps| - 1]) then Next(before, steps[|steps| - 1]) else before
  }

  lemma {:induction false} RunOk(l: Ledger, steps: seq<Step>)
    requires LedgerOk(l)
    ensures LedgerOk(Run(l, steps))
  {
    if steps != [] {
      RunOk(l, steps[..|steps| - 1]);
      var before := Run(l, steps[..|steps| - 1]);
      if Enabled(before, steps[|steps| - 1]) {
        StepOk(before, steps[|steps| - 1]);
      }
    }
  }

  /** At every point of every run: a live file whose ledger entry is its current version
      has that version in flight, completed or confirmed; pending is what is in flight plus
      what is scheduled; done counts completed sends only; and after a round each live file
      is in the ledger at its current version, unless its send was skipped or failed. */
  lemma EveryRun(live: map<string, Sig>, sent: Sent, steps: seq<Step>)
    requires SentOk(sent)
    ensures var l := Run(Loaded(live, sent), steps);
      && (forall rel :: InSync(l, rel) ==> Delivered(l, Send(rel, l.live[rel])))
      && l.flow.pending == Outstanding(l)
      && l.flow.done == l.past.completions
      && (l.stage.Idle? && l.past.current ==>
           forall rel :: rel in l.live && rel !in l.past.dropped ==> InSync(l, rel) && Delivered(l, Send(rel, l.live[rel])))
  {
    LoadedOk(live, sent);
    RunOk(Loaded(live, sent), steps);
  }

  /** A round is declared finished only when no send is in flight and none is scheduled,
      and the counters restart from zero. */
  lemma FinishedMeansDone(l: Ledger, step: Step)
    requires LedgerOk(l) && Enabled(l, step)
    ensures var after := Next(l, step);
      && l.past.finishes <= after.past.finishes <= l.past.finishes + 1
      && (after.past.finishes > l.past.finishes ==> Outstanding(after) == 0 && after.flow.pending == 0 && after.flow.done == 0)
  {
    StepOk(l, step);
  }

  /** The last end of a transfer finishes the round: with sends under way the phase never
      gets stuck. */
  lemma LastEndFinishes(l: Ledger, i: nat, status: Status)
    requires LedgerOk(l) && i < |l.flow.sends| && Outstanding(l) == 1
    ensures Terminal(l, i, status).past.finishes == l.past.finishes + 1
  {
  }

  // ─── Failed sends ─────────────────────────────────────────────────────────

  /** The step starts a new send of the file, or the peer says it has it. */
  ghost predicate Resends(l: Ledger, step: Step, rel: string) {
    || (step.CreateOne? && l.stage.Creating? && step.i < |l.stage.todo| && l.stage.todo[step.i] == rel)
    || (step.Answer? && l.stage.Verifying? && step.answer.Some? && rel in step.answer.value && rel in l.stage.toPush)
  }

  lemma UnsentStays(l: Ledger, step: Step, rel: string)
    requires LedgerOk(l) && Enabled(l, step) && rel !in l.sent.at && !Resends(l, step, rel)
    ensures rel !in Next(l, step).sent.at
  {
    if step.Answer? {
      var have := if step.answer.Some? then step.answer.value else [];
      MarkAllOk(l.sent, have, l.live, l.stage.toPush);
      assert Find(Confirm(l, step.answer).sent.at, rel) == Find(l.sent.at, rel);
    }
  }

  ghost predicate NeverResent(l: Ledger, steps: seq<Step>, rel: string) {
    forall k :: 0 <= k < |steps| ==> !Resends(Run(l, steps[..k]), steps[k], rel)
  }

  lemma {:induction false} UnsentUntilResent(l: Ledger, steps: seq<Step>, rel: string)
    requires LedgerOk(l) && rel !in l.sent.at && NeverResent(l, steps, rel)
    ensures rel !in Run(l, steps).sent.at
  {
    if steps != [] {
      var init := steps[..|steps| - 1];
      assert forall k :: 0 <= k < |init| ==> init[..k] == steps[..k];
      UnsentUntilResent(l, init, rel);
      RunOk(l, init);
      if Enabled(Run(l, init), steps[|steps| - 1]) {
        UnsentStays(Run(l, init), steps[|steps| - 1], rel);
      }
    }
  }

  /** A failed, cancelled or interrupted send makes its file pushable, whatever version was
      on its way and whatever the file is now, and every later plan contains it until it is
      sent again, confirmed by the peer, or no longer there. */
  lemma FailedIsPushed(l: Ledger, i: nat, status: Status, steps: seq<Step>, toPush: seq<string>)
    requires LedgerOk(l) && i < |l.flow.sends| && !status.Completed?
    requires var rel := l.flow.sends[i].rel; NeverResent(Terminal(l, i, status), steps, rel)
    requires Enabled(Run(Terminal(l, i, status), steps), Start(toPush))
    ensures var rel := l.flow.sends[i].rel;
      rel in Run(Terminal(l, i, status), steps).live <==> rel in toPush
  {
    var rel := l.flow.sends[i].rel;
    TerminalOk(l, i, status);
    UnmarkOk(l.sent, {rel});
    UnsentUntilResent(Terminal(l, i, status), steps, rel);
    assert rel in toPush <==> Wanted(Run(Terminal(l, i, status), steps), rel);
  }

  // ─── Rotating verification ────────────────────────────────────────────────

  lemma AtLeastOnce(c: nat, a: nat)
    requires a >= 1
    ensures c * a >= c
  {
    assert c * a == c * (a - 1) + c;
  }

  lemma DivisionIsUnique(x: nat, c: nat, q: nat, r: nat)
    requires c > 0 && x == c * q + r && r < c
    ensures x % c == r
  {
    var d := x / c;
    assert x == c * d + x % c;
    if q > d {
      assert c * q == c * d + c * (q - d);
      AtLeastOnce(c, q - d);
    } else if q < d {
      assert c * d == c * q + c * (d - q);
      AtLeastOnce(c, d - q);
    }
  }

  // The j-th number from `first` on, modulo c.
  function Turn(first: nat, j: nat, c: nat): nat
    requires c > 0
  {
    (first + j) % c
  }

  lemma TurnAt(first: nat, j: nat, c: nat)
    requires j < c
    ensures Turn(first, j, c) == var m := first % c; if m + j < c then m + j else m + j - c
  {
    var m, q := first % c, first / c;
    assert first == c * q + m;
    if m + j < c {
      DivisionIsUnique(first + j, c, q, m + j);
    } else {
      assert c * (q + 1) == c * q + c;
      DivisionIsUnique(first + j, c, q + 1, m + j - c);
    }
  }

  // Among c consecutive numbers exactly one has a given remainder.
  lemma OneOfEach(first: nat, c: nat, t: nat) returns (k: nat)
    requires t < c
    ensures k < c && Turn(first, k, c) == t
    ensures forall j: nat :: j < c && Turn(first, j, c) == t ==> j == k
  {
    var m := first % c;
    forall j: nat | j < c ensures Turn(first, j, c) == if m + j < c then m + j else m + j - c {
      TurnAt(first, j, c);
    }
    k := if t >= m then t - m else t + c - m;
  }

  /** Position p is checked in the k-th round from `first` on. */
  ghost predicate CheckedIn(n: nat, first: nat, k: nat, p: nat)
    requires n > MAX_VERIFY_FILES
  {
    SliceStart(n, first + k) <= p < SliceStart(n, first + k) + MAX_VERIFY_FILES
  }

  lemma CheckedAtTurn(n: nat, first: nat, k: nat, p: nat)
    requires n > MAX_VERIFY_FILES
    ensures CheckedIn(n, first, k, p) <==> Turn(first, k, Chunks(n)) == p / MAX_VERIFY_FILES
  {
  }

  /** Any ceil(n / 4000) consecutive rounds check each position exactly once. */
  lemma RotationCovers(n: nat, first: nat, p: nat) returns (k: nat)
    requires n > MAX_VERIFY_FILES && p < n
    ensures k < Chunks(n) && CheckedIn(n, first, k, p)
    ensures forall j: nat :: j < Chunks(n) && CheckedIn(n, first, j, p) ==> j == k
  {
    k := OneOfEach(first, Chunks(n), p / MAX_VERIFY_FILES);
    CheckedAtTurn(n, first, k, p);
    forall j: nat | j < Chunks(n) && CheckedIn(n, first, j, p) ensures j == k {
      CheckedAtTurn(n, first, j, p);
    }
  }

  lemma SliceHolds(rels: seq<string>, round: nat, p: nat)
    requires p < |rels|
    requires |rels| > MAX_VERIFY_FILES ==> SliceStart(|rels|, round) <= p < SliceStart(|rels|, round) + MAX_VERIFY_FILES
    ensures rels[p] in Slice(rels, round)
  {
    if |rels| > MAX_VERIFY_FILES {
      var start := SliceStart(|rels|, round);
      assert Slice(rels, round)[p - start] == rels[p];
    }
  }

  /** Every live file is in the ledger at its current version, and nothing else is. */
  ghost predicate Settled(l: Ledger) {
    LedgerOk(l) && l.stage.Idle? && (forall rel :: rel in l.live ==> InSync(l, rel)) && (forall rel :: rel in l.sent.at ==> rel in l.live)
  }

  function CreateAll(l: Ledger): Ledger
    requires l.stage.Creating?
    decreases |l.stage.todo|
  {
    if l.stage.todo == [] then l else CreateAll(Create(l, 0, true))
  }

  // One round whose every scheduled send could be created.
  ghost function FullRound(l: Ledger, answer: seq<string>): Ledger
    requires l.stage.Idle?
  {
    var creating := Schedule(Confirm(StartRound(l, []), Some(answer)));
    CreateAllEnds(creating);
    EndRound(CreateAll(creating))
  }

  lemma {:induction false} CreateAllEnds(l: Ledger)
    requires l.stage.Creating?
    ensures CreateAll(l).stage.Creating? && CreateAll(l).stage.todo == []
    decreases |l.stage.todo|
  {
    if l.stage.todo != [] {
      CreateAllEnds(Create(l, 0, true));
    }
  }

  lemma MarkSame(s: Sent, rel: string, sig: Sig)
    requires rel in s.at && s.at[rel] == sig
    ensures Mark(s, rel, sig) == s
  {
    assert s.at[rel := sig] == s.at;
  }

  lemma {:induction false} CreateAllSettled(l: Ledger)
    requires LedgerOk(l) && l.stage.Creating? && (forall rel :: rel in l.live ==> InSync(l, rel))
    ensures var r := CreateAll(l);
      && LedgerOk(r) && r.stage.Creating? && r.stage.todo == [] && r.sent == l.sent && r.live == l.live && r.round == l.round
      && (forall s :: s in l.flow.sends ==> s in r.flow.sends)
      && (forall rel :: rel in l.stage.todo ==> InFlight(r.flow.sends, rel))
    decreases |l.stage.todo|
  {
    if l.stage.todo != [] {
      var rel, next := l.stage.todo[0], Create(l, 0, true);
      CreateOk(l, 0, true);
      MarkSame(l.sent, rel, l.live[rel]);
      CreateAllSettled(next);
      assert Send(rel, l.live[rel]) in next.flow.sends;
      assert next.stage.todo == l.stage.todo[1..];
      forall other | other in l.stage.todo ensures InFlight(CreateAll(l).flow.sends, other) {
        if other != rel {
          DropAt(l.stage.todo, 0, other);
        }
      }
    }
  }

  lemma {:induction false} AllLive(keys: seq<string>, live: map<string, Sig>)
    requires forall rel :: rel in keys ==> rel in live
    ensures LiveKeys(keys, live) == keys
  {
    if keys != [] {
      assert keys[|keys| - 1] in keys;
      AllLive(keys[..|keys| - 1], live);
      assert keys == keys[..|keys| - 1] + [keys[|keys| - 1]];
    }
  }

  lemma {:induction false} MarkNone(s: Sent, rels: seq<string>, live: map<string, Sig>)
    ensures MarkAll(s, rels, live, []) == s
  {
    if rels != [] {
      MarkNone(s, rels[..|rels| - 1], live);
    }
  }

  /** With the peer answering, a round over a settled library changes no entry of the
      ledger and leaves every file of its slice that the peer lost on its way again. */
  lemma FullRoundSettled(l: Ledger, answer: seq<string>)
    requires Settled(l)
    ensures var r := FullRound(l, answer);
      && Settled(r) && r.live == l.live && r.sent == l.sent && r.round == NextRound(l.sent.keys, l.round)
      && (forall rel :: rel in Slice(l.sent.keys, r.round) && rel !in answer ==> InFlight(r.flow.sends, rel))
  {
    AllLive(l.sent.keys, l.live);
    assert Plans(l, []);
    var started := StartRound(l, []);
    StartOk(l, []);
    var creating := Schedule(Confirm(started, Some(answer)));
    AnswerOk(started, Some(answer));
    ScheduleOk(Confirm(started, Some(answer)));
    MarkNone(l.sent, answer, l.live);
    TodoOk([], started.stage.slice, Some(answer), l.live, l.flow.sends);
    CreateAllSettled(creating);
    var all := CreateAll(creating);
    EndOk(all);
    UnmarkOk(all.sent, set rel | rel in all.sent.at && rel !in all.live);
    forall rel | rel in started.stage.slice && rel !in answer ensures InFlight(all.flow.sends, rel) {
      if InFlight(l.flow.sends, rel) {
        var s :| s in l.flow.sends && s.rel == rel;
        assert s in all.flow.sends;
      } else {
        assert rel in creating.stage.todo;
      }
    }
  }

  // A round, and the transfers that complete before the next one.
  datatype Round = Round(answer: seq<string>, completed: seq<nat>)

  function Complete(l: Ledger, completed: seq<nat>): Ledger {
    if completed == [] then l
    else
      var before := Complete(l, completed[..|completed| - 1]);
      var i := completed[|completed| - 1];
      if i < |before.flow.sends| then Terminal(before, i, Completed) else before
  }

  lemma {:induction false} CompleteSettled(l: Ledger, completed: seq<nat>)
    requires Settled(l)
    ensures var r := Complete(l, completed); Settled(r) && r.live == l.live && r.sent == l.sent && r.round == l.round
  {
    if completed != [] {
      CompleteSettled(l, completed[..|completed| - 1]);
      var before := Complete(l, completed[..|completed| - 1]);
      var i := completed[|completed| - 1];
      if i < |before.flow.sends| {
        TerminalOk(before, i, Completed);
        assert forall rel :: rel in before.live ==> InSync(before, rel);
      }
    }
  }

  ghost function Rounds(l: Ledger, rounds: seq<Round>): Ledger {
    if rounds == [] then l
    else
      var before := Rounds(l, rounds[..|rounds| - 1]);
      var r := rounds[|rounds| - 1];
      if before.stage.Idle? then Complete(FullRound(before, r.answer), r.completed) else before
  }

  lemma {:induction false} RoundsSettled(l: Ledger, rounds: seq<Round>)
    requires Settled(l)
    ensures var r := Rounds(l, rounds);
      && Settled(r) && r.live == l.live && r.sent == l.sent
      && (|l.sent.keys| > MAX_VERIFY_FILES ==> r.round == l.round + |rounds|)
  {
    if rounds != [] {
      var init, r := rounds[..|rounds| - 1], rounds[|rounds| - 1];
      RoundsSettled(l, init);
      var before := Rounds(l, init);
      FullRoundSettled(before, r.answer);
      CompleteSettled(FullRound(before, r.answer), r.completed);
    }
  }

  /** Within ceil(n / 4000) rounds that the peer answers, a file it no longer has is found
      missing: the round that checks it leaves a send of it in flight. */
  lemma LostIsFound(l: Ledger, rounds: seq<Round>, rel: string) returns (k: nat)
    requires Settled(l) && rel in l.live
    requires |rounds| >= 1 && (|l.sent.keys| > MAX_VERIFY_FILES ==> |rounds| == Chunks(|l.sent.keys|))
    requires forall r :: r in rounds ==> rel !in r.answer
    ensures k < |rounds| && Rounds(l, rounds[..k]).stage.Idle?
    ensures InFlight(FullRound(Rounds(l, rounds[..k]), rounds[k].answer).flow.sends, rel)
  {
    hide FullRound, LedgerOk, Slice, CheckedIn;
    var p := PositionOf(l, rel);
    k := 0;
    if |l.sent.keys| > MAX_VERIFY_FILES {
      k := RotationCovers(|l.sent.keys|, l.round + 1, p);
      CheckedNow(|l.sent.keys|, l.round, k, p);
    }
    RoundsSettled(l, rounds[..k]);
    FoundIn(Rounds(l, rounds[..k]), rounds[k].answer, rel, p);
  }

  lemma PositionOf(l: Ledger, rel: string) returns (p: nat)
    requires Settled(l) && rel in l.live
    ensures p < |l.sent.keys| && l.sent.keys[p] == rel
  {
    assert InSync(l, rel) && rel in l.sent.keys;
    p :| 0 <= p < |l.sent.keys| && l.sent.keys[p] == rel;
  }

  lemma CheckedNow(n: nat, round: nat, k: nat, p: nat)
    requires n > MAX_VERIFY_FILES && CheckedIn(n, round + 1, k, p)
    ensures CheckedIn(n, round + k + 1, 0, p)
  {
    assert round + 1 + k == round + k + 1 + 0;
  }

  lemma FoundIn(l: Ledger, answer: seq<string>, rel: string, p: nat)
    requires Settled(l) && p < |l.sent.keys| && l.sent.keys[p] == rel && rel !in answer
    requires |l.sent.keys| > MAX_VERIFY_FILES ==> CheckedIn(|l.sent.keys|, l.round + 1, 0, p)
    ensures InFlight(FullRound(l, answer).flow.sends, rel)
  {
    SliceHolds(l.sent.keys, NextRound(l.sent.keys, l.round), p);
    FullRoundSettled(l, answer);
  }
}
