/** The log justifies each authorization but a burn's first, over every run. A limit rejection counts
    only when it answers a first send, which deletes its request; one that answers a resend proves
    nothing and leaves the request live (crates/xusdc-light-attester/src/store.rs). */
module HistoryTheorems {
  import opened Basics
  import opened Submission
  import opened StoreSpec
  import opened StoreInvariant
  import opened Discovery
  import opened Machine
  import opened MachineInvariant
  import opened MachineSteps
  import opened MachineAnswers
  import opened RunTheorems

  /** The burn's saved request may still be accepted or paid. */
  predicate Live(s: State, note: NoteId) {
    note in s.subs && s.subs[note].status != Expired
  }

  /** The step from `w` to `w'` appends row `k`, which allows signing the burn again: an identified
      expiry, an operator's release, or Circle's limit answering the first send of the stored request,
      which the step deletes. */
  predicate Allows(w: World, w': World, k: int, note: NoteId) {
    var before, after := w.store, w'.store;
    && |before.events| <= k < |after.events| && after.events[k].note == note
    && match after.events[k].kind
       case Outcome => after.events[k].status == Some(Expired) && after.events[k].id.Some?
       case OperatorRelease => true
       case WithdrawalLimit => AnswersFirstSend(w, note) && note in before.subs && note !in after.subs
       case _ => false
  }

  predicate AnswersFirstSend(w: World, note: NoteId) {
    w.pc.Awaiting? && w.pc.attempt == First && w.pc.saved.note == note && w.pc.saved.id.None?
  }

  predicate Signs(w: World, w': World, note: NoteId) {
    var n := |w.store.events|;
    |w'.store.events| == n + 1 && w'.store.events[n].kind == Authorized && w'.store.events[n].note == note
  }

  // ---- What one step does to a live request ------------------------------------------------------

  /** The step ends a live request exactly when it appends a row that allows signing again, and only
      signing makes one live. */
  ghost predicate Accounts(w: World, w': World, note: NoteId) {
    && (Live(w.store, note) && !Live(w'.store, note) ==> exists k :: Allows(w, w', k, note))
    && (forall k :: Allows(w, w', k, note) ==> !Live(w'.store, note))
    && (!Live(w.store, note) && Live(w'.store, note) ==> Signs(w, w', note))
    && (forall n :: Signs(w, w', n) ==> !Live(w.store, n) && Live(w'.store, n))
  }

  lemma SameRowsAccount(w: World, w': World, note: NoteId)
    requires w'.store.subs == w.store.subs && w'.store.events == w.store.events
    ensures Accounts(w, w', note)
  {}

  /** Releases, one after another. */
  predicate IsRelease(kind: EventKind) { kind == BurnReleased || kind == OperatorRelease }

  lemma {:induction false} OfflineAccounts(s: State, notes: seq<NoteId>, note: NoteId)
    requires WellKept(s) && ReleaseHolds(s, notes).Ok?
    ensures var s' := ReleaseHolds(s, notes).value.state;
      && s.events <= s'.events
      && (forall k :: |s.events| <= k < |s'.events| ==> IsRelease(s'.events[k].kind))
      && (note in s'.subs ==> note in s.subs && s'.subs[note] == s.subs[note])
      && (note in s.subs && note !in s'.subs ==>
            exists k :: |s.events| <= k < |s'.events| && s'.events[k].note == note && s'.events[k].kind == OperatorRelease)
      && (forall k :: |s.events| <= k < |s'.events| && s'.events[k].note == note && s'.events[k].kind == OperatorRelease ==>
            note !in s'.subs)
    decreases |notes|
  {
    if |notes| > 0 {
      var first := ReleaseHold(s, notes[0], true).value.state;
      ReleaseKeeps(s, notes[0], true);
      OfflineAccounts(first, notes[1..], note);
      var s' := ReleaseHolds(s, notes).value.state;
      assert s'.events[|s.events|] == first.events[|s.events|];
    }
  }

  lemma ReleaseAccounts(w: World, selection: Selection, note: NoteId)
    requires Inv(w) && Enabled(w, Release(selection))
    ensures Accounts(w, Apply(w, Release(selection)), note)
  {
    var w' := Apply(w, Release(selection));
    ReleaseKeeps(w.store, selection.note, selection.notAccepted);
    if Live(w.store, note) && !Live(w'.store, note) { assert Allows(w, w', |w.store.events|, note); }
  }

  lemma OfflineStepAccounts(w: World, notes: seq<NoteId>, note: NoteId)
    requires Inv(w) && Enabled(w, ReleaseOffline(notes))
    ensures Accounts(w, Apply(w, ReleaseOffline(notes)), note)
  {
    var w' := Apply(w, ReleaseOffline(notes));
    OfflineAccounts(w.store, notes, note);
    if Live(w.store, note) && !Live(w'.store, note) {
      var k :| |w.store.events| <= k < |w'.store.events| && w'.store.events[k].note == note && w'.store.events[k].kind == OperatorRelease;
      assert Allows(w, w', k, note);
    }
  }

  lemma PrepareAccounts(w: World, result: Prepared, note: NoteId)
    requires Inv(w) && Enabled(w, Prepare(result))
    ensures Accounts(w, Apply(w, Prepare(result)), note)
  {
    if result.Signed? { SigningAccounts(w, result.request, note); }
  }

  lemma SigningAccounts(w: World, request: Request, note: NoteId)
    requires Inv(w) && Enabled(w, Prepare(Signed(request)))
    ensures Accounts(w, Apply(w, Prepare(Signed(request))), note)
  {
    if ValidRequest(w.pc.note, request) { SaveKeeps(w.store, w.pc.note, request); }
  }

  /** An outcome ends a live request exactly when it is an expiry, and then it is logged, since no
      earlier outcome of a live request says so. */
  lemma OutcomeAccounts(w: World, w': World, outcome: Submission, note: NoteId)
    requires WellKept(w.store) && outcome.note in w.store.subs && Successor(w.store.subs[outcome.note], outcome)
    requires UpdateOutcome(w.store, outcome) == Ok(w'.store)
    ensures Accounts(w, w', note)
  {
    var s, n := w.store, outcome.note;
    UpdateKeeps(s, outcome);
    LatestOutcomeIsCurrent(s, outcome);
    assert NoteKept(s, n);
    if n == note && outcome.status == Expired { assert Allows(w, w', |s.events|, note); }
  }

  lemma LimitAccounts(w: World, w': World, at: nat, response: Body, got: Submission, note: NoteId)
    requires w.pc.Awaiting? && w.pc.saved.id.None? && RowIs(w.store, w.pc.saved) && got.note == w.pc.saved.note
    requires RecordLimitRejection(w.store, got.note, at, response, Some((got, w.pc.attempt))) == Ok(w'.store)
    ensures Accounts(w, w', note)
  {
    if got.note == note && w.pc.attempt == First { assert Allows(w, w', |w.store.events|, note); }
  }

  /** A limit rejection of a resend allows nothing and leaves the request live: an earlier send of it
      may have been accepted. */
  lemma ResendAllowsNothing(w: World, reply: Reply, k: int, note: NoteId)
    requires Inv(w) && Enabled(w, Answered(Got(reply))) && w.pc.attempt == Recovery
    requires w.pc.saved.id.None? && IsLimitRejection(w.cfg, reply)
    ensures var w' := Apply(w, Answered(Got(reply)));
      && !Allows(w, w', k, note)
      && Live(w'.store, w.pc.saved.note) && w'.store.subs[w.pc.saved.note].request == w.pc.saved.request
  {}

  lemma AnswerAccounts(w: World, answer: Answer, note: NoteId)
    requires Inv(w) && Enabled(w, Answered(answer))
    ensures Accounts(w, Apply(w, Answered(answer)), note)
  {
    var w', saved := Apply(w, Answered(answer)), w.pc.saved;
    var got := Receive(saved, answer);
    RowIsLive(w.store, saved);
    if Settle(w.cfg, w.now, w.store, saved, w.pc.attempt, answer).Ended? {
      SameRowsAccount(w, w', note);
    } else if answer.Lost? {
      OutcomeAccounts(w, w', got, note);
    } else if saved.id.None? && IsLimitRejection(w.cfg, answer.reply) {
      LimitAccounts(w, w', RetryAt(w.cfg.limit.value.interval, w.now).value, answer.reply.body, got, note);
    } else if saved.id.None? && answer.reply.http == 409 {
      ConflictIsSuccessor(saved, answer.reply);
      OutcomeAccounts(w, w', ReadConflict(got).0, note);
    } else {
      ResponseIsSuccessor(saved, answer.reply);
      OutcomeAccounts(w, w', ReadResponse(got, answer.reply).0, note);
    }
  }

  lemma BeginAccounts(w: World, note: NoteId)
    requires Enabled(w, Begin)
    ensures Accounts(w, Apply(w, Begin), note)
  {
    SameRowsAccount(w, Apply(w, Begin), note);
  }

  lemma StepAccounts(w: World, step: Step, note: NoteId)
    requires Inv(w) && Enabled(w, step)
    ensures Accounts(w, Apply(w, step), note)
  {
    if WritesNothing(step) {
      StoreUntouched(w, step);
      SameRowsAccount(w, Apply(w, step), note);
    } else {
      match step
      case SaveNext(_) => SameRowsAccount(w, Apply(w, step), note);
      case Release(selection) => ReleaseAccounts(w, selection, note);
      case ReleaseOffline(notes) => OfflineStepAccounts(w, notes, note);
      case Begin => BeginAccounts(w, note);
      case Prepare(result) => PrepareAccounts(w, result, note);
      case Answered(answer) => AnswerAccounts(w, answer, note);
    }
  }

  // ---- Runs --------------------------------------------------------------------------------------

  /** Step `t` of the run appends row `k`, which allows signing the burn again. */
  predicate AllowedAt(run: seq<World>, t: int, k: int, note: NoteId) {
    0 <= t && t + 1 < |run| && Allows(run[t], run[t + 1], k, note)
  }

  /** The burn's latest authorization in the log. */
  predicate LatestSigned(events: seq<Event>, note: NoteId, a: int) {
    && 0 <= a < |events| && events[a].kind == Authorized && events[a].note == note
    && forall k :: a < k < |events| ==> !(events[k].kind == Authorized && events[k].note == note)
  }

  ghost predicate AllowedSince(run: seq<World>, w: int, a: int, note: NoteId) {
    exists t, k :: t < w && a < k && AllowedAt(run, t, k, note)
  }

  /** A row appended by step `t` is in every log after it. */
  lemma AppendedBy(run: seq<World>, t: nat, w: nat, k: nat, note: NoteId)
    requires IsRun(run) && t < w < |run| && AllowedAt(run, t, k, note)
    ensures k < |run[w].store.events| && run[w].store.events[k] == run[t + 1].store.events[k]
  {
    LogGrows(run, t + 1, w);
  }

  lemma RunAccounts(run: seq<World>, v: nat, note: NoteId)
    requires IsRun(run) && v + 1 < |run|
    ensures GrowsTo(run[v].store.events, run[v + 1].store.events) && Accounts(run[v], run[v + 1], note)
  {
    RunKeeps(run, v);
    var step := StepTaken(run, v);
    StepLog(run[v], step);
    StepAccounts(run[v], step, note);
  }

  /** A burn's request is live from its latest authorization exactly until the run appends a row that
      allows signing it again. In particular a resend's limit rejection allows nothing. */
  lemma {:induction false} LiveUntilAllowed(run: seq<World>, w: nat, note: NoteId, a: nat)
    requires IsRun(run) && w < |run| && LatestSigned(run[w].store.events, note, a)
    ensures Live(run[w].store, note) <==> !AllowedSince(run, w, a, note)
  {
    if w > 0 {
      RunAccounts(run, w - 1, note);
      if a < |run[w - 1].store.events| {
        StillLatest(run[w - 1].store.events, run[w].store.events, note, a);
        LiveUntilAllowed(run, w - 1, note, a);
        LiveStep(run, w, note, a);
      } else {
        JustSigned(run, w, note, a);
      }
    }
  }

  lemma StillLatest(before: seq<Event>, after: seq<Event>, note: NoteId, a: nat)
    requires before <= after && LatestSigned(after, note, a) && a < |before|
    ensures LatestSigned(before, note, a)
  {
    assert forall k :: 0 <= k < |before| ==> after[k] == before[k];
  }

  /** Right after the authorization nothing can have allowed another. */
  lemma JustSigned(run: seq<World>, w: nat, note: NoteId, a: nat)
    requires IsRun(run) && 0 < w < |run| && LatestSigned(run[w].store.events, note, a) && |run[w - 1].store.events| <= a
    requires GrowsTo(run[w - 1].store.events, run[w].store.events) && Accounts(run[w - 1], run[w], note)
    ensures Live(run[w].store, note) && !AllowedSince(run, w, a, note)
  {
    assert Signs(run[w - 1], run[w], note);
    forall t, k | t < w && AllowedAt(run, t, k, note) ensures k <= a { AppendedBy(run, t, w, k, note); }
  }

  lemma LiveStep(run: seq<World>, w: nat, note: NoteId, a: nat)
    requires 0 < w < |run| && a < |run[w - 1].store.events|
    requires LatestSigned(run[w].store.events, note, a)
    requires Accounts(run[w - 1], run[w], note)
    requires Live(run[w - 1].store, note) <==> !AllowedSince(run, w - 1, a, note)
    ensures Live(run[w].store, note) <==> !AllowedSince(run, w, a, note)
  {
    if !AllowedSince(run, w - 1, a, note) {
      if !Live(run[w].store, note) {
        var k :| Allows(run[w - 1], run[w], k, note);
        assert AllowedAt(run, w - 1, k, note);
      } else {
        forall t, k | t < w && AllowedAt(run, t, k, note) ensures t < w - 1 {}
      }
    } else {
      var t, k :| t < w - 1 && a < k && AllowedAt(run, t, k, note);
      assert AllowedAt(run, t, k, note);
    }
  }

  /** The step that appended row `j`. */
  lemma {:induction false} AppendedAt(run: seq<World>, w: nat, j: nat) returns (t: nat)
    requires IsRun(run) && w < |run| && j < |run[w].store.events|
    ensures t < w && |run[t].store.events| <= j < |run[t + 1].store.events|
    ensures run[t + 1].store.events[j] == run[w].store.events[j]
  {
    LogGrows(run, w - 1, w);
    if j < |run[w - 1].store.events| {
      t := AppendedAt(run, w - 1, j);
    } else {
      t := w - 1;
    }
  }

  lemma {:induction false} LatestBefore(events: seq<Event>, note: NoteId, i: nat) returns (a: nat)
    requires i < |events| && events[i].kind == Authorized && events[i].note == note
    ensures i <= a && LatestSigned(events, note, a)
  {
    var last := |events| - 1;
    if events[last].kind == Authorized && events[last].note == note {
      a := last;
    } else {
      a := LatestBefore(events[..last], note, i);
    }
  }

  /** Between any two authorizations of one burn the log holds a row that allows the second, and step
      `t` of the run appended it: an identified expiry, an operator's release, or the limit rejection
      of a first send. */
  lemma HistoryJustifiesSigning(run: seq<World>, w: nat, i: nat, j: nat) returns (t: nat, k: nat)
    requires IsRun(run) && w < |run| && i < j < |run[w].store.events|
    requires var events := run[w].store.events;
      events[i].kind == Authorized && events[j].kind == Authorized && events[i].note == events[j].note
    ensures t < w && i < k < j && AllowedAt(run, t, k, run[w].store.events[i].note)
    ensures run[t + 1].store.events[k] == run[w].store.events[k]
  {
    var note := run[w].store.events[i].note;
    var v := AppendedAt(run, w, j);
    RunAccounts(run, v, note);
    LogGrows(run, v, w);
    assert Signs(run[v], run[v + 1], note);
    var a := LatestBefore(run[v].store.events, note, i);
    LiveUntilAllowed(run, v, note, a);
    t, k :| t < v && a < k && AllowedAt(run, t, k, note);
    AppendedBy(run, t, v, k, note);
    AppendedBy(run, t, w, k, note);
  }
}
