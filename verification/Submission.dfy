/** A saved withdrawal request and how Circle's answers change it
    (crates/xusdc-light-attester/src/submission.rs). */
module Submission {
  import opened Basics

  type NoteId = nat
  type Hash = nat
  type HttpStatus = n: nat | 100 <= n < 1000 witness 200

  datatype Status = Submitting | Submitted | Finalized | Expired | Failed | Held

  datatype HoldReason = HttpRejected

  /** Whether a POST is a request's first send or a resend after an unknown outcome. */
  datatype Attempt = First | Recovery

  datatype Endpoint = Endpoint(scheme: string, host: Option<string>, path: string)

  /** A signed request: where it goes, its bytes, the burn note its bytes name, and the packed
      transfer hash that names the authorization at Circle. */
  datatype Request = Request(endpoint: Endpoint, body: string, names: Option<NoteId>, hash: Hash)

  /** One withdrawal as Circle reports it. Text that the code only compares after parsing is kept
      as what it parses to: the note it names, and the hashes. */
  datatype Withdrawal = Withdrawal(
    id: string, names: Option<NoteId>, status: string, hashes: seq<Option<Hash>>, failure: Option<string>)

  /** `burn` is absent, or the note its text names, if any. */
  datatype Conflict = Conflict(id: Option<string>, burn: Option<Option<NoteId>>)

  /** A reply body, as the views the code decodes from it. A view that does not decode is `None`. */
  datatype Body = Body(
    message: Option<string>,
    conflict: Option<Conflict>,
    list: Option<seq<Withdrawal>>,
    single: Option<Withdrawal>,
    statusWord: Option<string>)

  datatype Reply = Reply(http: HttpStatus, body: Body)

  /** What a request produced: Circle's reply, or an error that says nothing about acceptance. */
  datatype Answer = Got(reply: Reply) | Lost(error: string)

  datatype Submission = Submission(
    note: NoteId,
    request: Request,
    status: Status,
    id: Option<string>,
    hold: Option<HoldReason>,
    http: Option<HttpStatus>,
    response: Option<Body>,
    error: Option<string>)

  datatype Failure =
    | WrongBurn | MalformedId | ConflictWithoutId
    | WithdrawalHeld | RateLimited | UnexpectedStatus
    | ExtraWithdrawals | InvalidResponse | WrongWithdrawal
    | WithdrawalFailed | UnknownStatus

  /** The request a saved submission sends next. */
  datatype Call = Post(request: Request) | Get(id: string)

  function CallOf(saved: Submission): Call {
    if saved.id.Some? then Get(saved.id.value) else Post(saved.request)
  }

  function NewSubmission(note: NoteId, request: Request): Submission {
    Submission(note, request, Submitting, None, None, None, None, None)
  }

  predicate IsHexDigit(c: char) {
    '0' <= c <= '9' || 'a' <= c <= 'f' || 'A' <= c <= 'F'
  }

  /** Circle's withdrawal IDs are hyphenated UUIDs: 8-4-4-4-12 hex digits. */
  predicate IsWellFormedId(id: string) {
    |id| == 36 &&
    forall i :: 0 <= i < 36 ==>
      if i == 8 || i == 13 || i == 18 || i == 23 then id[i] == '-' else IsHexDigit(id[i])
  }

  predicate IsBlank(text: string) {
    forall i :: 0 <= i < |text| ==> text[i] in " \t\r\n"
  }

  /** The answer's evidence, kept on the submission before it is interpreted. */
  function Receive(saved: Submission, answer: Answer): Submission {
    match answer
    case Got(reply) => saved.(http := Some(reply.http), response := Some(reply.body), error := None)
    case Lost(error) => saved.(http := None, response := None, error := Some(error))
  }

  /** Takes Circle's withdrawal ID from a 409 reply, or fails with the reason saved. */
  function ReadConflict(saved: Submission): (Submission, Option<Failure>) {
    var conflict := if saved.response.Some? then saved.response.value.conflict else None;
    if conflict.Some? && conflict.value.burn.Some? && conflict.value.burn.value != Some(saved.note) then
      (saved.(error := Some("conflict names another burn note")), Some(WrongBurn))
    else if conflict.Some? && conflict.value.id.Some? && !IsBlank(conflict.value.id.value) then
      if !IsWellFormedId(conflict.value.id.value) then
        (saved.(error := Some("conflict names a malformed withdrawal ID")), Some(MalformedId))
      else
        (saved.(id := conflict.value.id), None)
    else
      (saved.(error := Some("conflict has no withdrawal ID yet")), Some(ConflictWithoutId))
  }

  /** The one withdrawal a reply must carry, if it carries it. */
  function Reported(body: Body, lookup: bool): Option<Withdrawal> {
    if lookup then body.single
    else if body.list.Some? && |body.list.value| == 1 then Some(body.list.value[0])
    else None
  }

  /** Whether the reported withdrawal is the saved one: its ID is usable and unchanged, and it names
      the burn and exactly the saved authorization. */
  predicate Identifies(saved: Submission, withdrawal: Withdrawal) {
    && IsWellFormedId(withdrawal.id)
    && withdrawal.names == Some(saved.note)
    && withdrawal.hashes == [Some(saved.request.hash)]
    && (saved.id.Some? ==> saved.id.value == withdrawal.id)
  }

  /** Records Circle's reply on the submission, and the failure it amounts to, if any. */
  function ReadResponse(saved: Submission, reply: Reply): (Submission, Option<Failure>) {
    var lookup := saved.id.Some?;
    if reply.http != (if lookup then 200 else 201) then
      if !lookup && reply.http == 400 then
        (saved.(status := Held, hold := Some(HttpRejected),
                error := Some("HTTP response needs operator review")),
         Some(WithdrawalHeld))
      else
        (saved.(error := Some("Circle returned an unexpected HTTP status")),
         Some(if reply.http == 429 then RateLimited else UnexpectedStatus))
    else if !lookup && reply.body.list.Some? && |reply.body.list.value| > 1 then
      (saved.(error := Some("response contains extra withdrawals")), Some(ExtraWithdrawals))
    else
      var reported := Reported(reply.body, lookup);
      if reported.None? then
        (saved.(error := Some("Circle returned an incomplete or malformed response")),
         Some(InvalidResponse))
      else if !Identifies(saved, reported.value) then
        (saved.(error := Some("response does not identify the saved withdrawal")),
         Some(WrongWithdrawal))
      else
        var named := saved.(id := Some(reported.value.id));
        match reported.value.status
        case "created" | "verified" | "confirmed" => (named.(status := Submitted), None)
        case "finalized" => (named.(status := Finalized), None)
        case "expired" => (named.(status := Expired), None)
        case "failed" =>
          (named.(status := Failed, error := reported.value.failure), Some(WithdrawalFailed))
        case _ =>
          (named.(error := Some("Circle returned an unknown withdrawal status")), Some(UnknownStatus))
  }

  // ---- What a reply decides ----------------------------------------------------------------------

  /** Circle's words and the status each one stands for. */
  const WORDS: map<string, Status> := map[
    "created" := Submitted, "verified" := Submitted, "confirmed" := Submitted,
    "finalized" := Finalized, "expired" := Expired, "failed" := Failed]

  /** The reply reports exactly the saved withdrawal, in the form its request calls for. */
  predicate Answers(saved: Submission, reply: Reply) {
    && reply.http == (if saved.id.Some? then 200 else 201)
    && Reported(reply.body, saved.id.Some?).Some?
    && Identifies(saved, Reported(reply.body, saved.id.Some?).value)
  }

  /** A reply moves the status only as Circle's word for exactly this withdrawal says, or to held when
      a POST is refused; every other reply leaves status, ID and request as they were. */
  lemma ReplyDecides(saved: Submission, reply: Reply)
    ensures var (read, failure) := ReadResponse(saved, reply);
      && read.note == saved.note && read.request == saved.request
      && (if Answers(saved, reply) then
            var reported := Reported(reply.body, saved.id.Some?).value;
            && read.id == Some(reported.id)
            && read.status == (if reported.status in WORDS then WORDS[reported.status] else saved.status)
            && (failure.None? <==> reported.status in WORDS && reported.status != "failed")
          else
            && failure.Some? && read.id == saved.id
            && (if saved.id.None? && reply.http == 400 then read.status == Held && read.hold == Some(HttpRejected)
                else read.status == saved.status && read.hold == saved.hold))
  {}

  /** A conflict gives the submission an ID exactly when it names this burn, or none, and its ID is
      well formed; nothing else of the submission's state changes. */
  lemma ConflictDecides(saved: Submission)
    ensures var (read, failure) := ReadConflict(saved);
      var conflict := if saved.response.Some? then saved.response.value.conflict else None;
      && read == saved.(id := read.id, error := read.error)
      && (failure.None? <==>
            && conflict.Some? && (conflict.value.burn.Some? ==> conflict.value.burn.value == Some(saved.note))
            && conflict.value.id.Some? && IsWellFormedId(conflict.value.id.value))
      && read.id == (if failure.None? then conflict.value.id else saved.id)
  {
    var conflict := if saved.response.Some? then saved.response.value.conflict else None;
    if conflict.Some? && conflict.value.id.Some? && IsWellFormedId(conflict.value.id.value) {
      assert conflict.value.id.value[8] == '-';
    }
  }
}
