/** The store as the attester changes it: each transaction updates rows, checks how many it changed,
    and rolls back when a check fails (crates/xusdc-light-attester/src/store.rs). */
module Store {
  import opened Basics
  import opened Submission
  import opened StoreSpec
  import opened StoreInvariant
  import opened StoreReads
  import opened Discovery

  class AttesterStore {
    const anchor: nat
    var burns: map<NoteId, Burn>
    var subs: map<NoteId, Submission>
    var events: seq<Event>
    var checkpoint: Option<nat>

    function View(): State reads this {
      State(anchor, burns, subs, events, checkpoint)
    }

    constructor (block: nat)
      ensures View() == State(block, map[], map[], [], None)
    {
      anchor, burns, subs, events, checkpoint := block, map[], map[], [], None;
    }

    method Rollback(begun: State)
      requires begun.anchor == anchor
      modifies this
      ensures View() == begun
    {
      burns, subs, events, checkpoint := begun.burns, begun.subs, begun.events, begun.checkpoint;
    }

    // ---- History ---------------------------------------------------------------------------------

    /** Appends one row, if the store knows the burn. */
    method AppendEvent(note: NoteId, kind: EventKind, word: Option<string>) returns (recorded: bool)
      modifies this`events
      ensures recorded <==> RecordEvent(old(View()), note, kind, word).Ok?
      ensures View() == if recorded then RecordEvent(old(View()), note, kind, word).value else old(View())
    {
      recorded := note in burns;
      if recorded { events := events + [EventRow(View(), note, kind, word)]; }
    }

    /** The largest sequence number of the note's history. */
    method LatestSeq(note: NoteId) returns (seqNo: Option<nat>)
      ensures seqNo == Revision(events, note)
    {
      seqNo := None;
      for i := 0 to |events|
        invariant seqNo == Revision(events[..i], note)
      {
        assert events[..i + 1][..i] == events[..i];
        if events[i].note == note { seqNo := Some(i + 1); }
      }
      assert events[..|events|] == events;
    }

    /** Looks for the latest outcome by sequence number: the largest one of an outcome, if it is above
        the largest one of an authorization. */
    method LatestOutcomeRepeats(outcome: Submission, word: Option<string>) returns (repeats: bool)
      ensures repeats == RepeatsLatestOutcome(events, outcome, word)
    {
      var authorizedAt, outcomeAt := 0, 0;
      for i := 0 to |events|
        invariant 0 <= authorizedAt <= i && 0 <= outcomeAt <= i
        invariant SumOf(events[..i], outcome.note).outcome ==
          if outcomeAt > authorizedAt then Some(events[outcomeAt - 1]) else None
      {
        OutcomeAfter(events, i, outcome.note);
        if events[i].note == outcome.note && events[i].kind == Authorized { authorizedAt := i + 1; }
        if events[i].note == outcome.note && events[i].kind == Outcome { outcomeAt := i + 1; }
      }
      assert events[..|events|] == events;
      if outcomeAt <= authorizedAt { return false; }
      repeats := SaysTheSame(events[outcomeAt - 1], outcome, word);
    }

    // ---- Submissions -----------------------------------------------------------------------------

    method SaveSubmission(record: Submission) returns (r: Result<(), StoreError>)
      modifies this
      ensures Commits(StoreSpec.SaveSubmission(old(View()), record), old(View()), r, View())
    {
      if !ValidSubmission(record) { return Err(InvalidStore); }
      var begun := View();
      var note := record.note;
      if note in subs && !(subs[note].status == Expired && subs[note].id.Some?) { return Err(Conflicting); }
      subs := subs[note := NewSubmission(note, record.request)];
      var recorded := AppendEvent(note, Authorized, None);
      if !recorded {
        Rollback(begun);
        return Err(Conflicting);
      }
      r := Ok(());
    }

    method UpdateSubmissionOutcome(outcome: Submission) returns (r: Result<(), StoreError>)
      modifies this
      ensures Commits(UpdateOutcome(old(View()), outcome), old(View()), r, View())
    {
      if !ValidOutcome(outcome) { return Err(InvalidStore); }
      var begun := View();
      var note := outcome.note;
      if note !in subs { return Err(Conflicting); }
      subs := subs[note := outcome.(request := subs[note].request)];
      var word := StatusWord(outcome.response);
      var repeats := LatestOutcomeRepeats(outcome, word);
      if !repeats {
        var recorded := AppendEvent(note, Outcome, word);
        if !recorded {
          Rollback(begun);
          return Err(Conflicting);
        }
      }
      if EndsLimitWait(outcome.status) && note in burns {
        burns := burns[note := burns[note].(retryAt := None)];
      }
      r := Ok(());
    }

    // ---- Circle's withdrawal limit ---------------------------------------------------------------

    method AdvanceLimitRetry(note: NoteId, retryAt: nat) returns (r: Result<(), StoreError>)
      modifies this
      ensures Commits(StoreSpec.AdvanceLimitRetry(old(View()), note, retryAt), old(View()), r, View())
    {
      if !(note in burns && burns[note].retryAt.Some?) { return Err(Conflicting); }
      burns := burns[note := burns[note].(retryAt := Some(retryAt))];
      r := Ok(());
    }

    method RecordLimitRejection(note: NoteId, retryAt: nat, response: Body, submission: Option<(Submission, Attempt)>)
      returns (r: Result<(), StoreError>)
      modifies this
      ensures Commits(StoreSpec.RecordLimitRejection(old(View()), note, retryAt, response, submission), old(View()), r, View())
    {
      var begun := View();
      if !(note in burns && burns[note].consumed.Some? && burns[note].hold.None?) { return Err(Conflicting); }
      burns := burns[note := burns[note].(retryAt := Some(retryAt))];
      if submission.Some? {
        var (saved, attempt) := submission.value;
        if saved.note != note || !HoldsExactly(begun, saved) {
          Rollback(begun);
          return Err(Conflicting);
        }
        match attempt
        case First => subs := subs - {note};
        case Recovery =>
          subs := subs[note := subs[note].(http := Some(400), response := Some(response),
                                           error := Some("Circle withdrawal limit"))];
      }
      events := events + [LimitEvent(note, response)];
      r := Ok(());
    }

    /** The waiting burn every later burn queues behind. */
    method FirstLimitWait() returns (wait: Option<NoteId>)
      ensures wait.Some? ==> IsFirstWait(View(), wait.value)
      ensures wait.None? ==> forall n :: !Waits(View(), n)
    {
      var waiting := set n | n in burns && burns[n].retryAt.Some?;
      assert forall n :: Waits(View(), n) <==> n in waiting;
      if waiting == {} { return None; }
      ghost var least := EarliestOf(View(), waiting);
      var first :| first in waiting && forall n :: n in waiting && n != first ==> Before(View(), first, n);
      wait := Some(first);
    }

    // ---- Holds -----------------------------------------------------------------------------------

    method HoldBurn(note: NoteId, reason: BurnHold, answer: Option<Reply>) returns (r: Result<(), StoreError>)
      modifies this
      ensures Commits(StoreSpec.HoldBurn(old(View()), note, reason, answer), old(View()), r, View())
    {
      if note !in burns { return Err(Conflicting); }
      burns := burns[note := burns[note].(hold := Some(reason), retryAt := None)];
      events := events + [BurnHeldEvent(note, reason, answer)];
      r := Ok(());
    }

    /** Releases one note's hold, inside the caller's transaction. */
    method ReleaseHold(note: NoteId, notAccepted: bool) returns (r: Result<(nat, nat), ReleaseError>)
      modifies this
      ensures Releases(StoreSpec.ReleaseHold(old(View()), note, notAccepted), old(View()), r, View())
    {
      if note in burns && burns[note].hold.Some? {
        var _ := AppendEvent(note, BurnReleased, None);
        burns := burns[note := burns[note].(hold := None)];
        return Ok((1, 0));
      }
      if WithdrawalHeldIn(View(), note) {
        if !notAccepted { return Err(CircleCheck); }
        var recorded := AppendEvent(note, OperatorRelease, None);
        if !recorded { return Err(ReleaseError.Store(Conflicting)); }
        subs := subs - {note};
        return Ok((0, 1));
      }
      r := Err(NotHeld(note));
    }

    /** The offline command: every named hold, each once and in note order, or none. */
    method ReleaseHolds(notes: seq<NoteId>) returns (r: Result<(nat, nat), ReleaseError>)
      modifies this
      ensures Releases(StoreSpec.ReleaseHolds(old(View()), Sorted(set n | n in notes)), old(View()), r, View())
    {
      var sorted := Ascending(set n | n in notes);
      r := ReleaseEach(sorted);
    }

    method ReleaseEach(notes: seq<NoteId>) returns (r: Result<(nat, nat), ReleaseError>)
      modifies this
      ensures Releases(StoreSpec.ReleaseHolds(old(View()), notes), old(View()), r, View())
    {
      var begun := View();
      ghost var whole := StoreSpec.ReleaseHolds(begun, notes);
      var released, withdrawals := 0, 0;
      assert notes[0..] == notes;
      for i := 0 to |notes|
        invariant whole == Continued(StoreSpec.ReleaseHolds(View(), notes[i..]), released, withdrawals)
      {
        assert notes[i..][1..] == notes[i + 1..];
        ReleasesOne(View(), notes[i..], released, withdrawals);
        var one := ReleaseHold(notes[i], true);
        if one.Err? {
          Rollback(begun);
          return Err(one.error);
        }
        released, withdrawals := released + one.value.0, withdrawals + one.value.1;
      }
      r := Ok((released, withdrawals));
    }

    /** Releases the hold an operator listed, if its revision has not moved. */
    method ReleaseChecked(selection: Selection) returns (r: Result<(nat, nat), ReleaseError>)
      modifies this
      ensures Releases(StoreSpec.ReleaseChecked(old(View()), selection), old(View()), r, View())
    {
      var note := selection.note;
      if selection.expected <= 0 { return Err(InvalidSelection); }
      var revision := LatestSeq(note);
      if revision.None? {
        if BurnHeldIn(View(), note) || (note in subs && subs[note].status == Held) {
          return Err(ReleaseError.Store(InvalidStore));
        }
        return Err(NotHeld(note));
      }
      if revision.value != selection.expected { return Err(HoldChanged); }
      r := ReleaseHold(note, selection.notAccepted);
    }

    /** Up to one more than a page of holds after the cursor, in note order. */
    method HoldsPage(after: Option<NoteId>) returns (r: Result<seq<HoldEntry>, StoreError>)
      ensures var page := Limited(Rows(View(), After(Sorted(HeldNotes(View())), after)), HOLDS_PAGE + 1);
        r == if forall i :: 0 <= i < |page| ==> page[i].revision.Some? then Ok(page) else Err(InvalidStore)
    {
      var listed := Ascending((set n | n in burns && burns[n].hold.Some?) + (set n | n in subs && subs[n].status == Held));
      var page := FirstRows(After(listed, after), HOLDS_PAGE + 1);
      for i := 0 to |page|
        invariant forall k :: 0 <= k < i ==> page[k].revision.Some?
      {
        if page[i].revision.None? { return Err(InvalidStore); }
      }
      r := Ok(page);
    }

    /** The first rows of the notes, up to a limit. */
    method FirstRows(selected: seq<NoteId>, limit: nat) returns (rows: seq<HoldEntry>)
      ensures rows == Limited(Rows(View(), selected), limit)
    {
      rows := [];
      var i := 0;
      while i < |selected| && |rows| < limit
        invariant 0 <= i <= |selected| && rows == Rows(View(), selected[..i])
      {
        assert selected[..i + 1] == selected[..i] + [selected[i]];
        RowsSplit(View(), selected[..i], [selected[i]]);
        rows := rows + RowsOf(View(), selected[i]);
        i := i + 1;
      }
      assert selected == selected[..i] + selected[i..];
      RowsSplit(View(), selected[..i], selected[i..]);
      rows := Limited(rows, limit);
    }

    // ---- Listings --------------------------------------------------------------------------------

    /** The saved submissions with one status, in note order; an invalid row refuses the store. */
    method SubmissionsWith(status: Status) returns (r: Result<seq<Submission>, StoreError>)
      ensures var notes := Sorted(WithStatus(View(), status));
        && (r.Ok? <==> forall n :: n in notes ==> LoadsRow(View(), n))
        && (r.Ok? ==> |r.value| == |notes| && forall i :: 0 <= i < |notes| ==> notes[i] in subs && r.value[i] == subs[notes[i]])
    {
      var listed := Ascending(set n | n in subs && subs[n].status == status);
      var records: seq<Submission> := [];
      for i := 0 to |listed|
        invariant |records| == i && forall k :: 0 <= k < i ==> listed[k] in subs && records[k] == subs[listed[k]]
        invariant forall k :: 0 <= k < i ==> LoadsRow(View(), listed[k])
      {
        assert listed[i] in listed;
        if !LoadsRow(View(), listed[i]) { return Err(InvalidStore); }
        records := records + [subs[listed[i]]];
      }
      r := Ok(records);
    }

    /** The withdrawable burns at a safe depth, in withdrawal order. */
    method BurnsReady(proofLag: nat, depth: nat) returns (ready: seq<NoteId>)
      ensures forall n :: n in ready <==> StoreSpec.Ready(View(), proofLag, depth, n)
      ensures forall i, j :: 0 <= i < j < |ready| ==> Before(View(), ready[i], ready[j])
    {
      ready := [];
      if checkpoint.None? || checkpoint.value < depth { return; }
      var last := if proofLag < checkpoint.value - depth then proofLag else checkpoint.value - depth;
      var rest := set n | n in burns && Withdrawable(View(), n) && burns[n].consumed.value <= last;
      ghost var all := rest;
      assert forall n :: n in all <==> StoreSpec.Ready(View(), proofLag, depth, n);
      while rest != {}
        invariant rest <= burns.Keys && (forall n :: n in all <==> n in rest || n in ready)
        invariant forall i, j :: 0 <= i < j < |ready| ==> Before(View(), ready[i], ready[j])
        invariant forall i, n :: 0 <= i < |ready| && n in rest ==> Before(View(), ready[i], n)
        decreases rest
      {
        ghost var least := EarliestOf(View(), rest);
        var first :| first in rest && forall n :: n in rest && n != first ==> Before(View(), first, n);
        ready := ready + [first];
        rest := rest - {first};
      }
    }

    /** The saved, unconsumed note with this nullifier. */
    method CandidateByNullifier(nullifier: Nullifier) returns (found: Option<NoteId>)
      ensures found.Some? ==> IsCandidate(burns, nullifier, found.value)
      ensures found.None? ==> forall id :: !IsCandidate(burns, nullifier, id)
    {
      if exists id :: id in burns && IsCandidate(burns, nullifier, id) {
        var id :| id in burns && IsCandidate(burns, nullifier, id);
        found := Some(id);
      } else {
        found := None;
      }
    }

    // ---- Discovery -------------------------------------------------------------------------------

    /** One authenticated block's candidates, burns and checkpoint, all or none. */
    method SaveScanProgress(candidates: seq<Note>, found: seq<Discovered>, num: nat) returns (r: Result<(), StoreError>)
      modifies this
      ensures Commits(SaveScan(old(View()), candidates, found, num), old(View()), r, View())
    {
      if !InOrder(found, num) { return Err(Conflicting); }
      var begun := View();
      for i := 0 to |candidates|
        invariant InsertAll(begun.burns, candidates[..i], num) == Ok(burns) && View() == begun.(burns := burns)
      {
        assert candidates[..i + 1][..i] == candidates[..i];
        var note := candidates[i];
        if Clashes(burns, note) {
          InsertStaysErr(begun.burns, candidates, num, i + 1);
          Rollback(begun);
          return Err(Conflicting);
        }
        burns := burns[note.id := Burn(note.nullifier, num, None, None, None)];
      }
      assert candidates[..|candidates|] == candidates;
      ghost var inserted := burns;
      for i := 0 to |found|
        invariant PromoteAll(inserted, found[..i]) == Ok(burns) && View() == begun.(burns := burns)
      {
        assert found[..i + 1][..i] == found[..i];
        var burn := found[i];
        if burn.id in burns && burns[burn.id].consumed.None? {
          burns := burns[burn.id := burns[burn.id].(consumed := Some(burn.consumed))];
        } else if Clashes(burns, Note(burn.id, burn.nullifier, true)) {
          PromoteStaysErr(inserted, found, i + 1);
          Rollback(begun);
          return Err(Conflicting);
        } else {
          burns := burns[burn.id := Burn(burn.nullifier, burn.created, Some(burn.consumed), None, None)];
        }
      }
      assert found[..|found|] == found;
      checkpoint := Some(num);
      r := Ok(());
    }
  }

  /** A transaction commits what its specification says, or leaves the store as it was. */
  predicate Commits(spec: Result<State, StoreError>, before: State, r: Result<(), StoreError>, after: State) {
    match spec
    case Ok(state) => r.Ok? && after == state
    case Err(error) => r == Err(error) && after == before
  }

  predicate Releases(spec: Result<Released, ReleaseError>, before: State, r: Result<(nat, nat), ReleaseError>, after: State) {
    match spec
    case Ok(released) => r == Ok((released.burns, released.withdrawals)) && after == released.state
    case Err(error) => r == Err(error) && after == before
  }

  /** The rest of a release, with what was released before it. */
  function Continued(rest: Result<Released, ReleaseError>, burns: nat, withdrawals: nat): Result<Released, ReleaseError> {
    if rest.Err? then rest
    else Ok(Released(rest.value.state, burns + rest.value.burns, withdrawals + rest.value.withdrawals))
  }

  function Limited<T>(rows: seq<T>, limit: nat): seq<T> {
    if |rows| > limit then rows[..limit] else rows
  }

  /** Loading a submission checks its row, and that its burn was consumed. */
  predicate LoadsRow(s: State, note: NoteId) {
    note in s.subs && ValidSubmission(s.subs[note]) && note in s.burns && s.burns[note].consumed.Some?
  }

  predicate SaysTheSame(latest: Event, outcome: Submission, word: Option<string>) {
    && latest.status == Some(outcome.status) && latest.id == outcome.id && latest.http == outcome.http
    && latest.error == outcome.error && latest.word == word
  }

  lemma OutcomeAfter(events: seq<Event>, i: nat, note: NoteId)
    requires i < |events|
    ensures SumOf(events[..i + 1], note).outcome ==
      if events[i].note != note then SumOf(events[..i], note).outcome
      else if events[i].kind == Authorized then None
      else if events[i].kind == Outcome then Some(events[i])
      else SumOf(events[..i], note).outcome
  {
    assert events[..i + 1] == events[..i] + [events[i]];
    SumAppend(events[..i], events[i], note);
  }

  lemma ReleasesOne(s: State, notes: seq<NoteId>, burns: nat, withdrawals: nat)
    requires |notes| > 0
    ensures var one := StoreSpec.ReleaseHold(s, notes[0], true);
      Continued(StoreSpec.ReleaseHolds(s, notes), burns, withdrawals) ==
        if one.Err? then Err(one.error)
        else Continued(StoreSpec.ReleaseHolds(one.value.state, notes[1..]), burns + one.value.burns, withdrawals + one.value.withdrawals)
  {}

  /** The members of a set, in ascending order. */
  method Ascending(members: set<NoteId>) returns (list: seq<NoteId>)
    ensures list == Sorted(members)
  {
    list := [];
    var rest := members;
    while rest != {}
      invariant forall n :: n in members <==> n in rest || n in list
      invariant forall i, j :: 0 <= i < j < |list| ==> list[i] < list[j]
      invariant forall i, n :: 0 <= i < |list| && n in rest ==> list[i] < n
      decreases rest
    {
      ghost var some := HasLeast(rest);
      var least :| least in rest && forall n :: n in rest ==> least <= n;
      list := list + [least];
      rest := rest - {least};
    }
    AscendingUnique(list, Sorted(members), members);
  }

  lemma {:induction false} RowsSplit(s: State, a: seq<NoteId>, b: seq<NoteId>)
    ensures Rows(s, a + b) == Rows(s, a) + Rows(s, b)
  {
    if |a| == 0 {
      assert a + b == b;
    } else {
      assert (a + b)[1..] == a[1..] + b;
      RowsSplit(s, a[1..], b);
    }
  }

  lemma {:induction false} InsertStaysErr(burns: map<NoteId, Burn>, candidates: seq<Note>, num: nat, i: nat)
    requires i <= |candidates| && InsertAll(burns, candidates[..i], num) == Err(Conflicting)
    ensures InsertAll(burns, candidates, num) == Err(Conflicting)
    decreases |candidates|
  {
    if i < |candidates| {
      var init := candidates[..|candidates| - 1];
      assert init[..i] == candidates[..i];
      InsertStaysErr(burns, init, num, i);
    } else {
      assert candidates[..i] == candidates;
    }
  }

  lemma {:induction false} PromoteStaysErr(burns: map<NoteId, Burn>, found: seq<Discovered>, i: nat)
    requires i <= |found| && PromoteAll(burns, found[..i]) == Err(Conflicting)
    ensures PromoteAll(burns, found) == Err(Conflicting)
    decreases |found|
  {
    if i < |found| {
      var init := found[..|found| - 1];
      assert init[..i] == found[..i];
      PromoteStaysErr(burns, init, i);
    } else {
      assert found[..i] == found;
    }
  }
}
