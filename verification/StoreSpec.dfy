/** The attester's durable store as a value, and each of its transactions as a function from the
    store before to the store after (crates/xusdc-light-attester/src/store.rs).

    A transaction that fails leaves the store as it was, so it is an `Err` without a state. */
module StoreSpec {
  import opened Basics
  import opened Submission

  type Nullifier = nat

  datatype BurnHold = PrepareRejected | TooSmallToForward

  /** A burn row. `consumed` is absent while the faucet has not spent the note; `retryAt` is present
      while the burn waits for Circle's withdrawal limit, in Unix seconds. */
  datatype Burn = Burn(
    nullifier: Nullifier, created: nat, consumed: Option<nat>, hold: Option<BurnHold>, retryAt: Option<nat>)

  datatype EventKind =
    | Authorized | Outcome | BurnHeld | BurnReleased | OperatorRelease | WithdrawalLimit

  /** One history row: the burn as it stood when the row was written. */
  datatype Event = Event(
    note: NoteId,
    kind: EventKind,
    status: Option<Status>,
    id: Option<string>,
    request: Option<Request>,
    hash: Option<Hash>,
    http: Option<HttpStatus>,
    response: Option<Body>,
    error: Option<string>,
    hold: Option<HoldReason>,
    burnHold: Option<BurnHold>,
    word: Option<string>)

  /** The tables. Row `i` of `events` has sequence number `i + 1`; `checkpoint` is the number of the
      last authenticated block. */
  datatype State = State(
    anchor: nat,
    burns: map<NoteId, Burn>,
    subs: map<NoteId, Submission>,
    events: seq<Event>,
    checkpoint: Option<nat>)

  datatype StoreError = InvalidStore | Conflicting

  // ---- History -----------------------------------------------------------------------------------

  /** The history of one note, oldest row first. */
  function History(events: seq<Event>, note: NoteId): seq<Event> {
    if |events| == 0 then []
    else
      var last := events[|events| - 1];
      var before := History(events[..|events| - 1], note);
      if last.note == note then before + [last] else before
  }

  /** The sequence number of the note's latest history row. */
  function Revision(events: seq<Event>, note: NoteId): (seqNo: Option<nat>)
    ensures seqNo.Some? ==> 1 <= seqNo.value <= |events| && events[seqNo.value - 1].note == note
  {
    if |events| == 0 then None
    else if events[|events| - 1].note == note then Some(|events|)
    else Revision(events[..|events| - 1], note)
  }

  /** What a note's history says so far. `outcome` and `released` start over at each authorization. */
  datatype Summary = Summary(
    authorized: bool,          // some request was signed
    outcome: Option<Event>,    // the latest outcome since the authorization
    released: bool,            // an operator released the request since the authorization
    burnHold: Option<BurnHold> // the burn's hold
  )

  function Replay(history: seq<Event>): Summary {
    if |history| == 0 then Summary(false, None, false, None)
    else Replayed(Replay(history[..|history| - 1]), history[|history| - 1])
  }

  function Replayed(sum: Summary, event: Event): Summary {
    match event.kind
    case Authorized => Summary(true, None, false, sum.burnHold)
    case Outcome => sum.(outcome := Some(event))
    case BurnHeld => sum.(burnHold := event.burnHold)
    case BurnReleased => sum.(burnHold := None)
    case OperatorRelease => sum.(released := true)
    case WithdrawalLimit => sum
  }

  /** A history row as `record_event` writes it: the burn's hold and its submission as they stand,
      the request itself only on an authorization. */
  function EventRow(s: State, note: NoteId, kind: EventKind, word: Option<string>): Event
    requires note in s.burns
  {
    var burnHold := s.burns[note].hold;
    if note in s.subs then
      var sub := s.subs[note];
      Event(note, kind, Some(sub.status), sub.id, if kind == Authorized then Some(sub.request) else None,
            Some(sub.request.hash), sub.http, sub.response, sub.error, sub.hold, burnHold, word)
    else
      Event(note, kind, None, None, None, None, None, None, None, None, burnHold, word)
  }

  /** History belongs to a burn the store knows. */
  function RecordEvent(s: State, note: NoteId, kind: EventKind, word: Option<string>): Result<State, StoreError> {
    if note !in s.burns then Err(Conflicting)
    else Ok(s.(events := s.events + [EventRow(s, note, kind, word)]))
  }

  /** The status Circle's own reply reports. */
  function StatusWord(response: Option<Body>): Option<string> {
    if response.Some? then response.value.statusWord else None
  }

  /** Whether the latest outcome since the authorization already says what `outcome` says. */
  predicate RepeatsLatestOutcome(events: seq<Event>, outcome: Submission, word: Option<string>) {
    var latest := Replay(History(events, outcome.note)).outcome;
    && latest.Some?
    && latest.value.status == Some(outcome.status)
    && latest.value.id == outcome.id
    && latest.value.http == outcome.http
    && latest.value.error == outcome.error
    && latest.value.word == word
  }

  // ---- Row checks --------------------------------------------------------------------------------

  predicate ValidOutcome(sub: Submission) {
    && (sub.status == Held <==> sub.hold.Some?)
    && (sub.id.Some? ==> IsWellFormedId(sub.id.value))
    && (sub.status in {Submitted, Finalized, Expired, Failed} ==> sub.id.Some?)
  }

  predicate ValidRequest(note: NoteId, request: Request) {
    && request.endpoint.scheme == "https"
    && request.endpoint.host.Some?
    && request.endpoint.path == "/v1/withdraw"
    && request.names == Some(note)
  }

  predicate ValidSubmission(sub: Submission) {
    ValidRequest(sub.note, sub.request) && ValidOutcome(sub)
  }

  // ---- Submissions -------------------------------------------------------------------------------

  /** Saves a signed request before it is sent. It can replace only an expired withdrawal. */
  function SaveSubmission(s: State, record: Submission): Result<State, StoreError> {
    var note := record.note;
    if !ValidSubmission(record) then Err(InvalidStore)
    else if note in s.subs && !(s.subs[note].status == Expired && s.subs[note].id.Some?) then Err(Conflicting)
    else RecordEvent(s.(subs := s.subs[note := NewSubmission(note, record.request)]), note, Authorized, None)
  }

  predicate EndsLimitWait(status: Status) {
    status in {Submitted, Finalized, Failed, Held}
  }

  function ClearWait(s: State, note: NoteId): State {
    if note in s.burns then s.(burns := s.burns[note := s.burns[note].(retryAt := None)]) else s
  }

  /** Saves the latest reply on the note's row, whose signed request stays; a repeated outcome
      writes no history. */
  function UpdateOutcome(s: State, outcome: Submission): Result<State, StoreError> {
    var note := outcome.note;
    if !ValidOutcome(outcome) then Err(InvalidStore)
    else if note !in s.subs then Err(Conflicting)
    else
      var updated := s.(subs := s.subs[note := outcome.(request := s.subs[note].request)]);
      var word := StatusWord(outcome.response);
      var recorded := if RepeatsLatestOutcome(s.events, outcome, word) then Ok(updated)
                      else RecordEvent(updated, note, Outcome, word);
      if recorded.Err? then recorded
      else if EndsLimitWait(outcome.status) then Ok(ClearWait(recorded.value, note))
      else recorded
  }

  // ---- Circle's withdrawal limit -----------------------------------------------------------------

  function AdvanceLimitRetry(s: State, note: NoteId, retryAt: nat): Result<State, StoreError> {
    if note in s.burns && s.burns[note].retryAt.Some?
    then Ok(s.(burns := s.burns[note := s.burns[note].(retryAt := Some(retryAt))]))
    else Err(Conflicting)
  }

  function LimitEvent(note: NoteId, response: Body): Event {
    Event(note, WithdrawalLimit, None, None, None, None, Some(400), Some(response), None, None, None, None)
  }

  /** The submission row a limit rejection answers, if the store still holds exactly it. */
  predicate HoldsExactly(s: State, saved: Submission) {
    && saved.note in s.subs
    && s.subs[saved.note].status == Submitting
    && s.subs[saved.note].id.None?
    && s.subs[saved.note].request == saved.request
  }

  /** Circle's limit rejection: the burn waits until `retryAt`. A rejected first send deletes its
      request; a rejected resend keeps it, since an earlier send may have been accepted. */
  function RecordLimitRejection(
    s: State, note: NoteId, retryAt: nat, response: Body, submission: Option<(Submission, Attempt)>)
    : Result<State, StoreError>
  {
    if note !in s.burns || s.burns[note].consumed.None? || s.burns[note].hold.Some? then Err(Conflicting)
    else
      var waiting := s.(burns := s.burns[note := s.burns[note].(retryAt := Some(retryAt))]);
      if submission.None? then Ok(waiting.(events := s.events + [LimitEvent(note, response)]))
      else
        var (saved, attempt) := submission.value;
        if saved.note != note || !HoldsExactly(s, saved) then Err(Conflicting)
        else
          var subs := match attempt
            case First => s.subs - {note}
            case Recovery =>
              s.subs[note := s.subs[note].(http := Some(400), response := Some(response),
                                           error := Some("Circle withdrawal limit"))];
          Ok(waiting.(subs := subs, events := s.events + [LimitEvent(note, response)]))
  }

  // ---- Holds -------------------------------------------------------------------------------------

  function BurnHeldEvent(note: NoteId, reason: BurnHold, answer: Option<Reply>): Event {
    Event(note, BurnHeld, None, None, None, None,
          if answer.Some? then Some(answer.value.http) else None,
          if answer.Some? then Some(answer.value.body) else None,
          None, None, Some(reason), None)
  }

  function HoldBurn(s: State, note: NoteId, reason: BurnHold, answer: Option<Reply>): Result<State, StoreError> {
    if note !in s.burns then Err(Conflicting)
    else Ok(s.(burns := s.burns[note := s.burns[note].(hold := Some(reason), retryAt := None)],
               events := s.events + [BurnHeldEvent(note, reason, answer)]))
  }

  datatype ReleaseError = InvalidSelection | HoldChanged | NotHeld(note: NoteId) | CircleCheck | Store(error: StoreError)

  /** The store after a release, and how many burns and withdrawals it released. */
  datatype Released = Released(state: State, burns: nat, withdrawals: nat)

  predicate WithdrawalHeldIn(s: State, note: NoteId) {
    && note in s.subs && s.subs[note].status == Held
    && s.subs[note].hold == Some(HttpRejected) && s.subs[note].id.None?
  }

  predicate BurnHeldIn(s: State, note: NoteId) {
    note in s.burns && s.burns[note].hold.Some?
  }

  function ReleaseHold(s: State, note: NoteId, notAccepted: bool): Result<Released, ReleaseError> {
    if BurnHeldIn(s, note) then
      var recorded := s.(events := s.events + [EventRow(s, note, BurnReleased, None)]);
      Ok(Released(recorded.(burns := s.burns[note := s.burns[note].(hold := None)]), 1, 0))
    else if WithdrawalHeldIn(s, note) then
      if !notAccepted then Err(CircleCheck)
      else
        var recorded := RecordEvent(s, note, OperatorRelease, None);
        if recorded.Err? then Err(Store(recorded.error))
        else Ok(Released(recorded.value.(subs := s.subs - {note}), 0, 1))
    else Err(NotHeld(note))
  }

  datatype Selection = Selection(note: NoteId, expected: int, notAccepted: bool)

  /** Releases the hold an operator listed, if the note's latest history row is still the listed one. */
  function ReleaseChecked(s: State, selection: Selection): Result<Released, ReleaseError> {
    if selection.expected <= 0 then Err(InvalidSelection)
    else
      var revision := Revision(s.events, selection.note);
      if revision.None? then
        if BurnHeldIn(s, selection.note)
           || (selection.note in s.subs && s.subs[selection.note].status == Held)
        then Err(Store(InvalidStore)) else Err(NotHeld(selection.note))
      else if revision.value != selection.expected then Err(HoldChanged)
      else ReleaseHold(s, selection.note, selection.notAccepted)
  }

  /** The offline command: all the named holds or none, each withdrawal named counting as checked
      with Circle. */
  function ReleaseHolds(s: State, notes: seq<NoteId>): Result<Released, ReleaseError>
    decreases |notes|
  {
    if |notes| == 0 then Ok(Released(s, 0, 0))
    else
      var first := ReleaseHold(s, notes[0], true);
      if first.Err? then first
      else
        var rest := ReleaseHolds(first.value.state, notes[1..]);
        if rest.Err? then rest
        else Ok(Released(rest.value.state, first.value.burns + rest.value.burns,
                         first.value.withdrawals + rest.value.withdrawals))
  }

  // ---- Reads -------------------------------------------------------------------------------------

  predicate Waits(s: State, note: NoteId) {
    note in s.burns && s.burns[note].retryAt.Some?
  }

  /** Withdrawal order: creation block, then note ID. */
  predicate Before(s: State, a: NoteId, b: NoteId) {
    && a in s.burns && b in s.burns
    && (s.burns[a].created < s.burns[b].created || (s.burns[a].created == s.burns[b].created && a < b))
  }

  /** Of any burns, one comes first. */
  lemma {:induction false} EarliestOf(s: State, notes: set<NoteId>) returns (first: NoteId)
    requires notes != {} && notes <= s.burns.Keys
    ensures first in notes && forall n :: n in notes && n != first ==> Before(s, first, n)
    decreases |notes|
  {
    var some :| some in notes;
    first := some;
    if notes != {some} {
      var rest := notes - {some};
      assert notes == rest + {some};
      var other := EarliestOf(s, rest);
      if Before(s, other, some) { first := other; }
    }
  }

  ghost predicate IsFirstWait(s: State, note: NoteId) {
    Waits(s, note) && forall other :: Waits(s, other) && other != note ==> Before(s, note, other)
  }

  predicate Withdrawable(s: State, note: NoteId) {
    && note in s.burns && s.burns[note].consumed.Some? && s.burns[note].hold.None?
    && (note in s.subs ==> s.subs[note].status == Expired)
  }

  /** The ready burns: withdrawable, and consumed no later than both the node's proof-lag block and
      the depth-safe block below the verified checkpoint. */
  predicate Ready(s: State, proofLag: nat, depth: nat, note: NoteId) {
    && Withdrawable(s, note)
    && s.checkpoint.Some?
    && s.checkpoint.value >= depth
    && s.burns[note].consumed.value <= proofLag
    && s.burns[note].consumed.value <= s.checkpoint.value - depth
  }

  // ---- Startup and load checks -------------------------------------------------------------------

  /** What opening an existing store and loading its rows checks. */
  ghost predicate Reopens(s: State) {
    && (forall n :: Waits(s, n) ==>
          && s.burns[n].consumed.Some?
          && s.burns[n].hold.None?
          && (n in s.subs ==> s.subs[n].status in {Submitting, Expired}))
    && (forall n :: n in s.subs && s.subs[n].id.Some? ==> IsWellFormedId(s.subs[n].id.value))
    && (s.checkpoint.Some? ==> s.anchor <= s.checkpoint.value)
    && (forall n :: n in s.burns && s.burns[n].consumed.Some? ==> s.burns[n].created < s.burns[n].consumed.value)
    && (forall n :: n in s.subs ==>
          && s.subs[n].note == n
          && ValidSubmission(s.subs[n])
          && n in s.burns && s.burns[n].consumed.Some?)
  }
}
