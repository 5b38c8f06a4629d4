/** What every store transaction keeps: each note's rows agree with its replayed history. */
module StoreInvariant {
  import opened Basics
  import opened Submission
  import opened StoreSpec

  function SumOf(events: seq<Event>, note: NoteId): Summary {
    Replay(History(events, note))
  }

  function SubOf(s: State, note: NoteId): Option<Submission> {
    if note in s.subs then Some(s.subs[note]) else None
  }

  /** One note's submission row agrees with its burn row and its history. */
  predicate RowKept(note: NoteId, burn: Burn, sub: Submission, sum: Summary) {
    && sub.note == note
    && ValidSubmission(sub)
    && burn.consumed.Some?
    && (sub.status == Held ==> sub.id.None?)
    && (burn.hold.Some? ==> sub.status == Expired)
    && (burn.retryAt.Some? ==> sub.status == Submitting || sub.status == Expired)
    && sum.authorized && !sum.released
    && (sum.outcome.None? ==> sub.status == Submitting && sub.id.None?)
    && (sum.outcome.Some? ==>
          && sum.outcome.value.status == Some(sub.status)
          && sum.outcome.value.id == sub.id
          && sum.outcome.value.hold == sub.hold)
  }

  /** One note's burn row, submission row and history agree. */
  predicate Kept(note: NoteId, burn: Burn, sub: Option<Submission>, sum: Summary) {
    && (burn.consumed.Some? ==> burn.created < burn.consumed.value)
    && burn.hold == sum.burnHold
    && (burn.hold.Some? ==> burn.consumed.Some? && burn.retryAt.None?)
    && (burn.retryAt.Some? ==> burn.consumed.Some?)
    && (sub.Some? ==> RowKept(note, burn, sub.value, sum))
    && (sub.None? && sum.outcome.Some? && sum.outcome.value.status == Some(Held) ==> sum.released)
  }

  predicate NoteKept(s: State, note: NoteId)
    requires note in s.burns
  {
    Kept(note, s.burns[note], SubOf(s, note), SumOf(s.events, note))
  }

  predicate WellKept(s: State) {
    && (forall n :: n in s.subs ==> n in s.burns)
    && (forall i :: 0 <= i < |s.events| ==> s.events[i].note in s.burns)
    && (forall n {:trigger NoteKept(s, n)} :: n in s.burns ==> NoteKept(s, n))
    && (s.checkpoint.Some? ==> s.anchor <= s.checkpoint.value)
  }

  // ---- History grows at its end ------------------------------------------------------------------

  lemma SumAppend(events: seq<Event>, event: Event, note: NoteId)
    ensures History(events + [event], note)
         == if event.note == note then History(events, note) + [event] else History(events, note)
    ensures SumOf(events + [event], note)
         == if event.note == note then Replayed(SumOf(events, note), event) else SumOf(events, note)
  {
    assert (events + [event])[..|events|] == events;
    var h := History(events, note);
    assert (h + [event])[..|h|] == h;
  }

  /** `s'` differs from `s` only in the rows of one note, and in at most one history row of it. */
  predicate OnlyNote(s: State, s': State, note: NoteId) {
    && note in s.burns && s'.burns.Keys == s.burns.Keys
    && s'.burns - {note} == s.burns - {note}
    && s'.subs - {note} == s.subs - {note}
    && s'.anchor == s.anchor && s'.checkpoint == s.checkpoint
    && (s'.events == s.events || LogsOne(s, s', note))
  }

  predicate LogsOne(s: State, s': State, note: NoteId) {
    |s'.events| == |s.events| + 1 && s'.events[..|s.events|] == s.events && s'.events[|s.events|].note == note
  }

  /** The events after appending, as a sum. */
  lemma OneMore(s: State, s': State, note: NoteId)
    requires LogsOne(s, s', note)
    ensures s'.events == s.events + [s'.events[|s.events|]]
  {}

  lemma OtherNoteKept(s: State, s': State, note: NoteId, n: NoteId)
    requires OnlyNote(s, s', note) && n in s.burns && n != note && NoteKept(s, n)
    ensures NoteKept(s', n)
  {
    assert s'.burns[n] == s.burns[n] by {
      assert n in s.burns - {note};
      assert (s'.burns - {note})[n] == (s.burns - {note})[n];
    }
    assert SubOf(s', n) == SubOf(s, n) by {
      assert (n in s'.subs - {note}) == (n in s.subs - {note});
      if n in s.subs { assert (s'.subs - {note})[n] == (s.subs - {note})[n]; }
    }
    if s'.events != s.events {
      OneMore(s, s', note);
      SumAppend(s.events, s'.events[|s.events|], n);
    }
  }

  /** A change confined to one note keeps the store, if that note is kept. */
  lemma KeptByOne(s: State, s': State, note: NoteId)
    requires WellKept(s) && OnlyNote(s, s', note) && NoteKept(s', note)
    ensures WellKept(s')
  {
    forall n | n in s'.burns ensures NoteKept(s', n) {
      if n != note { OtherNoteKept(s, s', note, n); }
    }
    forall n | n in s'.subs ensures n in s'.burns {
      if n != note { assert n in s'.subs - {note}; assert n in s.subs - {note}; }
    }
    forall i | 0 <= i < |s'.events| ensures s'.events[i].note in s'.burns {
      if i < |s.events| { assert s'.events[i] == s'.events[..|s.events|][i]; }
    }
  }

  // ---- Each transaction keeps the store ----------------------------------------------------------

  /** The value-level step of an authorization on one note's rows and history. */
  lemma SavedKept(note: NoteId, burn: Burn, row: Option<Submission>, request: Request, sum: Summary, e: Event)
    requires Kept(note, burn, row, sum) && burn.consumed.Some? && burn.hold.None? && ValidRequest(note, request)
    requires (row.Some? ==> row.value.status == Expired) && e.kind == Authorized
    ensures Kept(note, burn, Some(NewSubmission(note, request)), Replayed(sum, e))
  {}

  lemma SaveKeepsNote(s: State, note: NoteId, request: Request)
    requires note in s.burns && NoteKept(s, note) && Withdrawable(s, note) && ValidRequest(note, request)
    ensures SaveSubmission(s, NewSubmission(note, request)).Ok?
    ensures var s' := SaveSubmission(s, NewSubmission(note, request)).value;
      && NoteKept(s', note) && OnlyNote(s, s', note) && LogsOne(s, s', note)
      && s'.subs == s.subs[note := NewSubmission(note, request)]
      && s'.burns == s.burns
      && s'.events[|s.events|].kind == Authorized
  {
    var stored := s.(subs := s.subs[note := NewSubmission(note, request)]);
    var e := EventRow(stored, note, Authorized, None);
    assert SaveSubmission(s, NewSubmission(note, request)) == Ok(stored.(events := s.events + [e]));
    SumAppend(s.events, e, note);
    SavedKept(note, s.burns[note], SubOf(s, note), request, SumOf(s.events, note), e);
  }

  lemma SaveKeeps(s: State, note: NoteId, request: Request)
    requires WellKept(s) && Withdrawable(s, note) && ValidRequest(note, request)
    ensures SaveSubmission(s, NewSubmission(note, request)).Ok?
    ensures var s' := SaveSubmission(s, NewSubmission(note, request)).value;
      && WellKept(s') && OnlyNote(s, s', note) && LogsOne(s, s', note)
      && s'.subs == s.subs[note := NewSubmission(note, request)]
      && s'.burns == s.burns
      && s'.events[|s.events|].kind == Authorized
  {
    SaveKeepsNote(s, note, request);
    KeptByOne(s, SaveSubmission(s, NewSubmission(note, request)).value, note);
  }

  /** In any store, a request is saved exactly when it is valid, its burn is known, and what it would
      replace is an expired withdrawal with an ID; nothing but that row and one log row changes. */
  lemma SavesOnlyOverExpired(s: State, record: Submission)
    ensures SaveSubmission(s, record).Ok? <==>
      && ValidSubmission(record) && record.note in s.burns
      && (record.note in s.subs ==> s.subs[record.note].status == Expired && s.subs[record.note].id.Some?)
    ensures SaveSubmission(s, record).Ok? ==>
      var s' := SaveSubmission(s, record).value;
      && OnlyNote(s, s', record.note) && LogsOne(s, s', record.note)
      && SubOf(s', record.note) == Some(NewSubmission(record.note, record.request))
      && s'.events[|s.events|].kind == Authorized && s'.events[|s.events|].request == Some(record.request)
  {}

  /** The rows an answered request may leave behind. */
  predicate Successor(row: Submission, outcome: Submission) {
    && outcome.note == row.note
    && outcome.request == row.request
    && (row.status == Submitting || row.status == Submitted)
    && ValidOutcome(outcome)
    && (outcome.status == Held ==> outcome.id.None?)
    && (outcome.status == Submitting ==> row.status == Submitting)
  }

  /** The value-level step of an outcome on one note's rows and history. */
  lemma OutcomeKept(note: NoteId, burn: Burn, row: Submission, outcome: Submission, sum: Summary, e: Event)
    requires Kept(note, burn, Some(row), sum) && Successor(row, outcome)
    requires e.kind == Outcome && e.status == Some(outcome.status) && e.id == outcome.id && e.hold == outcome.hold
    ensures var burn' := if EndsLimitWait(outcome.status) then burn.(retryAt := None) else burn;
      && Kept(note, burn', Some(outcome), Replayed(sum, e))
      && ((sum.outcome.Some? && sum.outcome.value.status == Some(outcome.status) && sum.outcome.value.id == outcome.id)
          ==> Kept(note, burn', Some(outcome), sum))
  {}

  lemma UpdateKeepsNote(s: State, outcome: Submission)
    requires outcome.note in s.subs && outcome.note in s.burns && NoteKept(s, outcome.note)
    requires Successor(s.subs[outcome.note], outcome)
    ensures UpdateOutcome(s, outcome).Ok?
    ensures var s' := UpdateOutcome(s, outcome).value;
      && NoteKept(s', outcome.note) && OnlyNote(s, s', outcome.note)
      && s'.subs == s.subs[outcome.note := outcome]
      && s'.burns == (if EndsLimitWait(outcome.status) then ClearWait(s, outcome.note) else s).burns
      && (s'.events != s.events ==> s'.events[|s.events|].kind == Outcome)
  {
    var note := outcome.note;
    var updated := s.(subs := s.subs[note := outcome]);
    var word := StatusWord(outcome.response);
    var e := EventRow(updated, note, Outcome, word);
    var s' := UpdateOutcome(s, outcome).value;
    OutcomeKept(note, s.burns[note], s.subs[note], outcome, SumOf(s.events, note), e);
    if !RepeatsLatestOutcome(s.events, outcome, word) {
      assert s'.events == s.events + [e];
      SumAppend(s.events, e, note);
    }
  }

  lemma UpdateKeeps(s: State, outcome: Submission)
    requires WellKept(s) && outcome.note in s.subs && Successor(s.subs[outcome.note], outcome)
    ensures UpdateOutcome(s, outcome).Ok?
    ensures var s' := UpdateOutcome(s, outcome).value;
      && WellKept(s') && OnlyNote(s, s', outcome.note)
      && s'.subs == s.subs[outcome.note := outcome]
      && s'.burns == (if EndsLimitWait(outcome.status) then ClearWait(s, outcome.note) else s).burns
      && (s'.events != s.events ==> s'.events[|s.events|].kind == Outcome)
  {
    UpdateKeepsNote(s, outcome);
    KeptByOne(s, UpdateOutcome(s, outcome).value, outcome.note);
  }

  /** However outcomes repeat, the latest one logged since the authorization says what was just saved:
      a change of status, ID, HTTP status, error or Circle's word is always logged. */
  lemma LatestOutcomeIsCurrent(s: State, outcome: Submission)
    requires UpdateOutcome(s, outcome).Ok?
    ensures var latest := SumOf(UpdateOutcome(s, outcome).value.events, outcome.note).outcome;
      && latest.Some?
      && latest.value.status == Some(outcome.status) && latest.value.id == outcome.id
      && latest.value.http == outcome.http && latest.value.error == outcome.error
      && latest.value.word == StatusWord(outcome.response)
  {
    var note, word := outcome.note, StatusWord(outcome.response);
    if !RepeatsLatestOutcome(s.events, outcome, word) {
      var updated := s.(subs := s.subs[note := outcome.(request := s.subs[note].request)]);
      SumAppend(s.events, EventRow(updated, note, Outcome, word), note);
    }
  }

  lemma RetryKeeps(s: State, note: NoteId, retryAt: nat)
    requires WellKept(s) && Waits(s, note)
    ensures AdvanceLimitRetry(s, note, retryAt).Ok?
    ensures var s' := AdvanceLimitRetry(s, note, retryAt).value; WellKept(s') && OnlyNote(s, s', note)
  {
    assert NoteKept(s, note);
    var s' := AdvanceLimitRetry(s, note, retryAt).value;
    assert NoteKept(s', note);
    KeptByOne(s, s', note);
  }

  /** When a limit rejection answers a saved request, the store still holds exactly that request. */
  predicate LimitApplies(s: State, note: NoteId, submission: Option<(Submission, Attempt)>) {
    if submission.None? then Withdrawable(s, note)
    else
      && submission.value.0.note == note
      && HoldsExactly(s, submission.value.0)
  }

  /** The value-level step of a limit rejection on one note's rows and history. */
  lemma LimitKept(note: NoteId, burn: Burn, row: Option<Submission>, row': Option<Submission>, sum: Summary, e: Event, retryAt: nat)
    requires Kept(note, burn, row, sum) && burn.consumed.Some? && burn.hold.None? && e.kind == WithdrawalLimit
    requires row.Some? ==> row.value.status == Submitting || row.value.status == Expired
    requires || row' == row
             || (row.Some? && row'.None? && row.value.status == Submitting)
             || (row.Some? && row'.Some? && row'.value == row.value.(http := row'.value.http, response := row'.value.response, error := row'.value.error))
    requires sum.outcome.Some? && sum.outcome.value.status == Some(Held) ==> row.None?
    ensures Kept(note, burn.(retryAt := Some(retryAt)), row', Replayed(sum, e))
  {}

  /** The submission row a limit rejection leaves. */
  function RowAfterLimit(row: Option<Submission>, response: Body, submission: Option<(Submission, Attempt)>): Option<Submission> {
    if submission.None? || row.None? then row
    else if submission.value.1 == First then None
    else Some(row.value.(http := Some(400), response := Some(response), error := Some("Circle withdrawal limit")))
  }

  lemma LimitWrites(s: State, note: NoteId, retryAt: nat, response: Body, submission: Option<(Submission, Attempt)>)
    requires note in s.burns && s.burns[note].consumed.Some? && s.burns[note].hold.None?
    requires submission.Some? ==> submission.value.0.note == note && HoldsExactly(s, submission.value.0)
    ensures RecordLimitRejection(s, note, retryAt, response, submission).Ok?
    ensures var s' := RecordLimitRejection(s, note, retryAt, response, submission).value;
      && s'.burns == s.burns[note := s.burns[note].(retryAt := Some(retryAt))]
      && s'.events == s.events + [LimitEvent(note, response)]
      && SubOf(s', note) == RowAfterLimit(SubOf(s, note), response, submission)
      && OnlyNote(s, s', note) && LogsOne(s, s', note)
  {}

  lemma LimitKeepsNote(s: State, note: NoteId, retryAt: nat, response: Body, submission: Option<(Submission, Attempt)>)
    requires note in s.burns && NoteKept(s, note) && LimitApplies(s, note, submission)
    ensures RecordLimitRejection(s, note, retryAt, response, submission).Ok?
    ensures var s' := RecordLimitRejection(s, note, retryAt, response, submission).value;
      && NoteKept(s', note) && OnlyNote(s, s', note) && LogsOne(s, s', note)
      && s'.burns == s.burns[note := s.burns[note].(retryAt := Some(retryAt))]
      && s'.events[|s.events|].kind == WithdrawalLimit
  {
    LimitWrites(s, note, retryAt, response, submission);
    var s' := RecordLimitRejection(s, note, retryAt, response, submission).value;
    var e := LimitEvent(note, response);
    SumAppend(s.events, e, note);
    LimitKept(note, s.burns[note], SubOf(s, note), SubOf(s', note), SumOf(s.events, note), e, retryAt);
  }

  lemma LimitKeeps(s: State, note: NoteId, retryAt: nat, response: Body, submission: Option<(Submission, Attempt)>)
    requires WellKept(s) && LimitApplies(s, note, submission)
    ensures RecordLimitRejection(s, note, retryAt, response, submission).Ok?
    ensures var s' := RecordLimitRejection(s, note, retryAt, response, submission).value;
      && WellKept(s') && OnlyNote(s, s', note) && LogsOne(s, s', note)
      && s'.burns == s.burns[note := s.burns[note].(retryAt := Some(retryAt))]
      && s'.events[|s.events|].kind == WithdrawalLimit
  {
    assert note in s.burns;
    LimitKeepsNote(s, note, retryAt, response, submission);
    KeptByOne(s, RecordLimitRejection(s, note, retryAt, response, submission).value, note);
  }

  lemma HoldKeeps(s: State, note: NoteId, reason: BurnHold, answer: Option<Reply>)
    requires WellKept(s) && Withdrawable(s, note)
    ensures HoldBurn(s, note, reason, answer).Ok?
    ensures var s' := HoldBurn(s, note, reason, answer).value;
      && WellKept(s') && OnlyNote(s, s', note) && LogsOne(s, s', note)
      && s'.events[|s.events|].kind == BurnHeld
  {
    var e := BurnHeldEvent(note, reason, answer);
    var s' := HoldBurn(s, note, reason, answer).value;
    assert NoteKept(s', note) && OnlyNote(s, s', note) by {
      assert NoteKept(s, note);
      SumAppend(s.events, e, note);
    }
    KeptByOne(s, s', note);
  }

  lemma ReleaseKeepsNote(s: State, note: NoteId, notAccepted: bool)
    requires note in s.burns && NoteKept(s, note) && ReleaseHold(s, note, notAccepted).Ok?
    ensures var r := ReleaseHold(s, note, notAccepted).value;
      && NoteKept(r.state, note) && OnlyNote(s, r.state, note) && LogsOne(s, r.state, note)
      && r.state.events[|s.events|].kind == (if BurnHeldIn(s, note) then BurnReleased else OperatorRelease)
  {
    var r := ReleaseHold(s, note, notAccepted).value;
    var e := EventRow(s, note, if BurnHeldIn(s, note) then BurnReleased else OperatorRelease, None);
    assert r.state.events == s.events + [e];
    SumAppend(s.events, e, note);
  }

  /** A release changes only the released note: its burn loses its hold, or its held request goes. */
  lemma ReleaseKeeps(s: State, note: NoteId, notAccepted: bool)
    requires WellKept(s) && ReleaseHold(s, note, notAccepted).Ok?
    ensures var r := ReleaseHold(s, note, notAccepted).value;
      && WellKept(r.state) && OnlyNote(s, r.state, note) && LogsOne(s, r.state, note)
      && r.state.events[|s.events|].kind == (if BurnHeldIn(s, note) then BurnReleased else OperatorRelease)
  {
    assert note in s.burns;
    ReleaseKeepsNote(s, note, notAccepted);
    KeptByOne(s, ReleaseHold(s, note, notAccepted).value.state, note);
  }

  // ---- What the invariant gives ------------------------------------------------------------------

  /** Every well-kept store passes its own startup and load checks. */
  lemma KeptStoreReopens(s: State)
    requires WellKept(s)
    ensures Reopens(s)
    ensures forall n :: BurnHeldIn(s, n) && n in s.subs ==> s.subs[n].status == Expired
  {
    forall n | n in s.burns
      ensures NoteKept(s, n)
    {}
    forall n | n in s.subs
      ensures s.subs[n].note == n && ValidSubmission(s.subs[n]) && s.burns[n].consumed.Some?
    {
      assert NoteKept(s, n);
    }
  }

  datatype Hold = NoHold | OfBurn(burn: BurnHold) | OfWithdrawal(withdrawal: HoldReason)

  /** A note's hold, as its rows show it. */
  function HoldOf(s: State, note: NoteId): Hold {
    if note in s.burns && s.burns[note].hold.Some? then OfBurn(s.burns[note].hold.value)
    else if note in s.subs && s.subs[note].status == Held && s.subs[note].hold.Some? then
      OfWithdrawal(s.subs[note].hold.value)
    else NoHold
  }

  /** A note's hold, as its history alone shows it. */
  function HoldInHistory(sum: Summary): Hold {
    if sum.burnHold.Some? then OfBurn(sum.burnHold.value)
    else if sum.outcome.Some? && !sum.released && sum.outcome.value.status == Some(Held)
            && sum.outcome.value.hold.Some? then
      OfWithdrawal(sum.outcome.value.hold.value)
    else NoHold
  }

  lemma {:induction false} NoHistoryOfUnknown(events: seq<Event>, note: NoteId)
    requires forall i :: 0 <= i < |events| ==> events[i].note != note
    ensures History(events, note) == []
  {
    if |events| > 0 { NoHistoryOfUnknown(events[..|events| - 1], note); }
  }

  /** The hold is a function of the note's history, although repeated outcomes write no row. */
  lemma HoldIsInHistory(s: State, note: NoteId)
    requires WellKept(s)
    ensures HoldOf(s, note) == HoldInHistory(SumOf(s.events, note))
  {
    if note in s.burns {
      assert NoteKept(s, note);
    } else {
      NoHistoryOfUnknown(s.events, note);
    }
  }

  /** The latest row's number fixes the whole history of a note in a log that only grows. */
  lemma {:induction false} RevisionFixesHistory(events: seq<Event>, later: seq<Event>, note: NoteId)
    requires events <= later && Revision(events, note) == Revision(later, note)
    ensures History(events, note) == History(later, note)
    decreases |later|
  {
    if |later| > |events| {
      if later[|later| - 1].note != note {
        RevisionFixesHistory(events, later[..|later| - 1], note);
      }
    } else {
      assert events == later;
    }
  }

  lemma {:induction false} RevisionOfHistory(events: seq<Event>, note: NoteId)
    ensures Revision(events, note).None? <==> History(events, note) == []
  {
    if |events| > 0 { RevisionOfHistory(events[..|events| - 1], note); }
  }

  /** Every hold is releasable at its current revision, given the non-acceptance claim for a
      withdrawal, and the release removes that hold and counts it once. */
  lemma HoldIsReleasable(s: State, note: NoteId, notAccepted: bool)
    requires WellKept(s) && HoldOf(s, note) != NoHold
    ensures Revision(s.events, note).Some?
    ensures var r := ReleaseChecked(s, Selection(note, Revision(s.events, note).value, notAccepted));
      match HoldOf(s, note)
      case OfBurn(_) => r.Ok? && r.value.burns == 1 && HoldOf(r.value.state, note) == NoHold
      case OfWithdrawal(_) =>
        if notAccepted then
          r.Ok? && r.value.withdrawals == 1 && HoldOf(r.value.state, note) == NoHold && note !in r.value.state.subs
        else r == Err(CircleCheck)
  {
    HoldIsInHistory(s, note);
    RevisionOfHistory(s.events, note);
    assert note in s.burns && NoteKept(s, note);
    ReleasableNote(s, note, notAccepted);
  }

  lemma ReleasableNote(s: State, note: NoteId, notAccepted: bool)
    requires note in s.burns && NoteKept(s, note) && HoldOf(s, note) != NoHold
    ensures var r := ReleaseHold(s, note, notAccepted);
      match HoldOf(s, note)
      case OfBurn(_) => r.Ok? && r.value.burns == 1 && HoldOf(r.value.state, note) == NoHold
      case OfWithdrawal(_) =>
        if notAccepted then
          r.Ok? && r.value.withdrawals == 1 && HoldOf(r.value.state, note) == NoHold && note !in r.value.state.subs
        else r == Err(CircleCheck)
  {
    if note in s.subs && s.subs[note].hold.Some? {
      match s.subs[note].hold.value case HttpRejected => {}
    }
  }
}
