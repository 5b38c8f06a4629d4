/** The gate before the signers: which requests it passes for a burn
    (crates/xusdc-light-attester/src/verify.rs and attester.rs). */
module Signing {
  import opened Basics
  import opened Submission
  import opened Packing
  import Gate

  /** The gate's settings, and each burn note's own terms. */
  datatype Signer = Signer(cfg: Gate.GateConfig, codec: Gate.Codec, burnOf: NoteId -> Gate.Burn)

  /** The signed request for a verified withdrawal: it names the verified note, and its authorization is
      the verified transfer hash. */
  function RequestOf(verified: Gate.Verified, endpoint: Endpoint, body: string): Request {
    Request(endpoint, body, Some(ValueOf(verified.note)), ValueOf(verified.specHash))
  }

  ghost predicate PassedWith(signer: Signer, note: NoteId, request: Request, response: seq<Gate.Batch>) {
    var verdict := Gate.Verify(signer.cfg, signer.codec, signer.burnOf(note), response);
    verdict.Ok? && request == RequestOf(verdict.value, request.endpoint, request.body)
  }

  /** The gate passed some response of Circle's for this burn, and the request is the one for it. */
  ghost predicate Passed(signer: Signer, note: NoteId, request: Request) {
    exists response :: PassedWith(signer, note, request, response)
  }

  ghost function PassedBy(signer: Signer): (NoteId, Request) -> bool {
    (note: NoteId, request: Request) => Passed(signer, note, request)
  }

  /** Checks a prepared response against the burn; what passes may be signed. */
  method CheckedByGate(signer: Signer, note: NoteId, response: seq<Gate.Batch>, endpoint: Endpoint, body: string)
    returns (r: Result<Request, Gate.VerifyError>)
    ensures r.Ok? ==> PassedBy(signer)(note, r.value)
    ensures r.Err? ==> Gate.Verify(signer.cfg, signer.codec, signer.burnOf(note), response) == Err(r.error)
  {
    var verdict := Gate.Verify(signer.cfg, signer.codec, signer.burnOf(note), response);
    if verdict.Err? { return Err(verdict.error); }
    r := Ok(RequestOf(verdict.value, endpoint, body));
    assert PassedWith(signer, note, r.value, response);
  }
}
