/** A saved submission as the attester changes it while it reads an answer
    (crates/xusdc-light-attester/src/submission.rs). */
module SavedSubmission {
  import opened Basics
  import opened Spec = Submission

  class Saved {
    const note: NoteId
    const request: Request
    var status: Status
    var id: Option<string>
    var hold: Option<HoldReason>
    var http: Option<HttpStatus>
    var response: Option<Body>
    var error: Option<string>

    function Value(): Spec.Submission reads this {
      Spec.Submission(note, request, status, id, hold, http, response, error)
    }

    constructor (row: Spec.Submission)
      ensures Value() == row
    {
      note, request, status, id := row.note, row.request, row.status, row.id;
      hold, http, response, error := row.hold, row.http, row.response, row.error;
    }

    /** Keeps the answer's evidence. A lost answer says nothing about acceptance. */
    method Receive(answer: Answer)
      modifies this
      ensures Value() == Spec.Receive(old(Value()), answer)
    {
      match answer
      case Lost(text) =>
        http, response, error := None, None, Some(text);
      case Got(reply) =>
        http, response, error := Some(reply.http), Some(reply.body), None;
    }

    method Hold(reason: HoldReason, message: string)
      modifies this
      ensures Value() == old(Value()).(status := Held, hold := Some(reason), error := Some(message))
    {
      status, hold, error := Held, Some(reason), Some(message);
    }

    /** Takes Circle's withdrawal ID from a 409 reply. */
    method ReadConflict() returns (failure: Option<Failure>)
      modifies this
      ensures (Value(), failure) == Spec.ReadConflict(old(Value()))
    {
      if response.Some? && response.value.conflict.Some? {
        var conflict := response.value.conflict.value;
        if conflict.burn.Some? && conflict.burn.value != Some(note) {
          error := Some("conflict names another burn note");
          return Some(WrongBurn);
        }
        if conflict.id.Some? && !IsBlank(conflict.id.value) {
          if !IsWellFormedId(conflict.id.value) {
            error := Some("conflict names a malformed withdrawal ID");
            return Some(MalformedId);
          }
          id := conflict.id;
          return None;
        }
      }
      error := Some("conflict has no withdrawal ID yet");
      failure := Some(ConflictWithoutId);
    }

    /** Records Circle's reply, and returns the failure it amounts to, if any. */
    method ReadResponse(reply: Reply) returns (failure: Option<Failure>)
      modifies this
      ensures (Value(), failure) == Spec.ReadResponse(old(Value()), reply)
    {
      var lookup := id.Some?;
      if reply.http != (if lookup then 200 else 201) {
        if !lookup && reply.http == 400 {
          Hold(HttpRejected, "HTTP response needs operator review");
          return Some(WithdrawalHeld);
        }
        error := Some("Circle returned an unexpected HTTP status");
        return Some(if reply.http == 429 then RateLimited else UnexpectedStatus);
      }
      var withdrawal: Option<Withdrawal> := None;
      if lookup {
        withdrawal := reply.body.single;
      } else if reply.body.list.Some? {
        if |reply.body.list.value| > 1 {
          error := Some("response contains extra withdrawals");
          return Some(ExtraWithdrawals);
        }
        if |reply.body.list.value| == 1 { withdrawal := Some(reply.body.list.value[0]); }
      }
      if withdrawal.None? {
        error := Some("Circle returned an incomplete or malformed response");
        return Some(InvalidResponse);
      }
      if !Identifies(Value(), withdrawal.value) {
        error := Some("response does not identify the saved withdrawal");
        return Some(WrongWithdrawal);
      }
      id := Some(withdrawal.value.id);
      failure := TakeStatus(withdrawal.value);
    }

    /** Takes the status Circle's word stands for. */
    method TakeStatus(withdrawal: Withdrawal) returns (failure: Option<Failure>)
      modifies this
      ensures var word := withdrawal.status;
        if word == "failed" then
          Value() == old(Value()).(status := Failed, error := withdrawal.failure) && failure == Some(WithdrawalFailed)
        else if word in WORDS then Value() == old(Value()).(status := WORDS[word]) && failure.None?
        else
          && Value() == old(Value()).(error := Some("Circle returned an unknown withdrawal status"))
          && failure == Some(UnknownStatus)
    {
      var word := withdrawal.status;
      if word == "failed" {
        status, error := Failed, withdrawal.failure;
        return Some(WithdrawalFailed);
      }
      if word !in WORDS {
        error := Some("Circle returned an unknown withdrawal status");
        return Some(UnknownStatus);
      }
      status := WORDS[word];
      failure := None;
    }
  }
}
