/** The gate composed with the machine: everything ever signed, sent, accepted or paid in any run was
    passed by the gate for that burn, and so delivers it. */
module SigningTheorems {
  import opened Basics
  import opened Submission
  import opened StoreSpec
  import opened StoreInvariant
  import opened Discovery
  import opened Machine
  import opened MachineInvariant
  import opened MachineSteps
  import opened MachineAnswers
  import opened RunTheorems
  import opened DepthTheorems
  import opened Signing
  import Packing
  import Gate
  import GateTheorems

  // ---- What is signed ----------------------------------------------------------------------------

  /** Row `k` of the log is the authorization of this transfer of the burn. */
  predicate SignedAt(events: seq<Event>, k: int, note: NoteId, hash: Hash) {
    && 0 <= k < |events| && events[k].kind == Authorized && events[k].note == note
    && events[k].request.Some? && events[k].request.value.hash == hash
  }

  ghost predicate Logged(events: seq<Event>, note: NoteId, hash: Hash) {
    exists k :: SignedAt(events, k, note, hash)
  }

  lemma StaysLogged(events: seq<Event>, later: seq<Event>, note: NoteId, hash: Hash)
    requires events <= later && Logged(events, note, hash)
    ensures Logged(later, note, hash)
  {
    var k :| SignedAt(events, k, note, hash);
    assert SignedAt(later, k, note, hash);
  }

  /** An authorization row carries the bytes that were signed, which name the burn and passed the gate. */
  predicate RowPassed(passed: (NoteId, Request) -> bool, e: Event) {
    && e.request.Some? && ValidRequest(e.note, e.request.value) && e.hash == Some(e.request.value.hash)
    && passed(e.note, e.request.value)
  }

  /** Every authorization passed the gate, and only logged ones are stored, in flight or at Circle. */
  ghost predicate AllPassed(w: World) {
    && (forall k :: 0 <= k < |w.store.events| && w.store.events[k].kind == Authorized ==> RowPassed(w.passed, w.store.events[k]))
    && (forall n :: n in w.store.subs ==> Logged(w.store.events, n, w.store.subs[n].request.hash))
    && (forall c :: c in w.circle.flight ==> Logged(w.store.events, w.circle.flight[c].note, w.circle.flight[c].hash))
    && (forall auth :: auth in w.circle.fate ==> Logged(w.store.events, auth.note, auth.hash))
  }

  lemma PreparedRow(w: World, result: Prepared, k: nat)
    requires Enabled(w, Prepare(result))
    requires |w.store.events| <= k < |FinishPrepare(w, result).store.events|
    requires FinishPrepare(w, result).store.events[k].kind == Authorized
    ensures RowPassed(w.passed, FinishPrepare(w, result).store.events[k])
  {}

  lemma LogStaysPassed(w: World, step: Step)
    requires Inv(w) && Enabled(w, step) && AllPassed(w)
    ensures var events := Apply(w, step).store.events;
      forall k :: 0 <= k < |events| && events[k].kind == Authorized ==> RowPassed(w.passed, events[k])
  {
    StepLog(w, step);
    var events := Apply(w, step).store.events;
    forall k | 0 <= k < |events| && events[k].kind == Authorized ensures RowPassed(w.passed, events[k]) {
      if k < |w.store.events| {
        assert events[k] == w.store.events[k];
      } else {
        SignsOnlyPrepared(w, step, k);
        PreparedRow(w, step.result, k);
      }
    }
  }

  // ---- What is stored ----------------------------------------------------------------------------

  /** A stored request is an earlier one, or the one just logged. */
  ghost predicate RequestsFrom(s: State, s': State) {
    forall n :: n in s'.subs ==>
      || (n in s.subs && s'.subs[n].request == s.subs[n].request)
      || SignedAt(s'.events, |s.events|, n, s'.subs[n].request.hash)
  }

  lemma {:induction false} OfflineRequests(s: State, notes: seq<NoteId>)
    requires ReleaseHolds(s, notes).Ok?
    ensures forall n :: n in ReleaseHolds(s, notes).value.state.subs ==>
      n in s.subs && ReleaseHolds(s, notes).value.state.subs[n] == s.subs[n]
    decreases |notes|
  {
    if |notes| > 0 { OfflineRequests(ReleaseHold(s, notes[0], true).value.state, notes[1..]); }
  }

  lemma UpdateRequests(s: State, outcome: Submission)
    ensures UpdateOutcome(s, outcome).Ok? ==> RequestsFrom(s, UpdateOutcome(s, outcome).value)
  {}

  lemma LimitRequests(s: State, note: NoteId, at: nat, response: Body, submission: Option<(Submission, Attempt)>)
    ensures var r := RecordLimitRejection(s, note, at, response, submission); r.Ok? ==> RequestsFrom(s, r.value)
  {}

  lemma SettleRequests(cfg: Config, now: nat, s: State, saved: Submission, attempt: Attempt, answer: Answer)
    ensures var r := Settle(cfg, now, s, saved, attempt, answer); r.Settled? ==> RequestsFrom(s, r.store)
  {
    var got := Receive(saved, answer);
    UpdateRequests(s, got);
    if answer.Got? {
      UpdateRequests(s, ReadConflict(got).0);
      UpdateRequests(s, ReadResponse(got, answer.reply).0);
      if IsLimitRejection(cfg, answer.reply) {
        var at := RetryAt(cfg.limit.value.interval, now);
        if at.Some? { LimitRequests(s, saved.note, at.value, answer.reply.body, Some((got, attempt))); }
      }
    }
  }

  lemma PrepareRequests(w: World, result: Prepared)
    requires Enabled(w, Prepare(result))
    ensures RequestsFrom(w.store, FinishPrepare(w, result).store)
  {}

  lemma ProcessRequests(w: World, step: Step)
    requires Enabled(w, step) && (step.SaveNext? || step.Release? || step.Begin?)
    ensures RequestsFrom(w.store, Apply(w, step).store)
  {}

  lemma StepRequests(w: World, step: Step)
    requires Inv(w) && Enabled(w, step)
    ensures RequestsFrom(w.store, Apply(w, step).store)
  {
    if WritesNothing(step) {
      StoreUntouched(w, step);
    } else if step.ReleaseOffline? {
      OfflineRequests(w.store, step.notes);
    } else if step.Answered? {
      SettleRequests(w.cfg, w.now, w.store, w.pc.saved, w.pc.attempt, step.answer);
    } else if step.Prepare? {
      PrepareRequests(w, step.result);
    } else {
      ProcessRequests(w, step);
    }
  }

  lemma RowsStayLogged(w: World, step: Step)
    requires Inv(w) && Enabled(w, step) && AllPassed(w)
    ensures var s' := Apply(w, step).store; forall n :: n in s'.subs ==> Logged(s'.events, n, s'.subs[n].request.hash)
  {
    StepLog(w, step);
    StepRequests(w, step);
    var s' := Apply(w, step).store;
    forall n | n in s'.subs ensures Logged(s'.events, n, s'.subs[n].request.hash) {
      if !SignedAt(s'.events, |w.store.events|, n, s'.subs[n].request.hash) {
        StaysLogged(w.store.events, s'.events, n, s'.subs[n].request.hash);
      }
    }
  }

  // ---- What Circle has ---------------------------------------------------------------------------

  /** Circle gets only the stored request that is sent, and accepts only what it got. */
  lemma CircleGets(w: World, step: Step)
    requires Inv(w) && Enabled(w, step)
    ensures var circle' := Apply(w, step).circle;
      && (forall c :: c in circle'.flight ==>
            || (c in w.circle.flight && circle'.flight[c] == w.circle.flight[c])
            || (circle'.flight[c].note in w.store.subs && w.store.subs[circle'.flight[c].note].request.hash == circle'.flight[c].hash))
      && (forall auth :: auth in circle'.fate ==>
            auth in w.circle.fate || exists c :: c in w.circle.flight && w.circle.flight[c] == auth)
  {}

  lemma CircleStaysLogged(w: World, step: Step)
    requires Inv(w) && Enabled(w, step) && AllPassed(w)
    ensures var w' := Apply(w, step);
      && (forall c :: c in w'.circle.flight ==> Logged(w'.store.events, w'.circle.flight[c].note, w'.circle.flight[c].hash))
      && (forall auth :: auth in w'.circle.fate ==> Logged(w'.store.events, auth.note, auth.hash))
  {
    var w' := Apply(w, step);
    StepLog(w, step);
    CircleGets(w, step);
    forall c | c in w'.circle.flight ensures Logged(w'.store.events, w'.circle.flight[c].note, w'.circle.flight[c].hash) {
      StaysLogged(w.store.events, w'.store.events, w'.circle.flight[c].note, w'.circle.flight[c].hash);
    }
    forall auth | auth in w'.circle.fate ensures Logged(w'.store.events, auth.note, auth.hash) {
      StaysLogged(w.store.events, w'.store.events, auth.note, auth.hash);
    }
  }

  // ---- Runs --------------------------------------------------------------------------------------

  lemma StepKeepsGate(w: World, step: Step)
    requires Enabled(w, step)
    ensures Apply(w, step).passed == w.passed
  {}

  lemma {:induction false} RunStaysPassed(run: seq<World>, i: nat)
    requires IsRun(run) && i < |run|
    ensures AllPassed(run[i]) && run[i].passed == run[0].passed
  {
    if i > 0 {
      RunStaysPassed(run, i - 1);
      RunKeeps(run, i - 1);
      var step := StepTaken(run, i - 1);
      StepKeepsGate(run[i - 1], step);
      LogStaysPassed(run[i - 1], step);
      RowsStayLogged(run[i - 1], step);
      CircleStaysLogged(run[i - 1], step);
    }
  }

  /** The gate passed this response for the burn, whose note it is, and the hash is its transfer's. */
  predicate VerifiedAs(signer: Signer, note: NoteId, hash: Hash, response: seq<Gate.Batch>) {
    var verdict := Gate.Verify(signer.cfg, signer.codec, signer.burnOf(note), response);
    && verdict.Ok? && Packing.ValueOf(verdict.value.specHash) == hash
    && Packing.ValueOf(signer.burnOf(note).note) == note
  }

  /** The gate passed a response of Circle's with this transfer hash for this burn, and it delivers the
      burn. */
  ghost predicate VerifiedFor(signer: Signer, note: NoteId, hash: Hash, response: seq<Gate.Batch>) {
    && VerifiedAs(signer, note, hash, response)
    && GateTheorems.DeliversTheBurn(signer.cfg, signer.codec, signer.burnOf(note), response)
  }

  lemma PassedAs(signer: Signer, note: NoteId, request: Request, response: seq<Gate.Batch>)
    requires ValidRequest(note, request) && PassedWith(signer, note, request, response)
    ensures VerifiedAs(signer, note, request.hash, response)
  {
    var _, _, _ := GateTheorems.VerifiedMeans(signer.cfg, signer.codec, signer.burnOf(note), response);
  }

  lemma PassedDelivers(signer: Signer, note: NoteId, request: Request, response: seq<Gate.Batch>)
    requires GateTheorems.CallsDiffer(signer.codec) && PassedWith(signer, note, request, response)
    ensures GateTheorems.DeliversTheBurn(signer.cfg, signer.codec, signer.burnOf(note), response)
  {
    GateTheorems.VerifiedDelivers(signer.cfg, signer.codec, signer.burnOf(note), response);
  }

  lemma PassedIsVerified(signer: Signer, note: NoteId, request: Request) returns (response: seq<Gate.Batch>)
    requires GateTheorems.CallsDiffer(signer.codec) && ValidRequest(note, request) && PassedBy(signer)(note, request)
    ensures VerifiedFor(signer, note, request.hash, response)
  {
    assert Passed(signer, note, request);
    response :| PassedWith(signer, note, request, response);
    PassedAs(signer, note, request, response);
    PassedDelivers(signer, note, request, response);
  }

  /** Every authorization ever logged is of a request the gate passed for that burn, so it delivers the
      burn: payout plus fee is its amount, and what arrives arrives where the burn asked. */
  lemma SignedIsVerified(run: seq<World>, i: nat, k: nat, signer: Signer) returns (response: seq<Gate.Batch>)
    requires IsRun(run) && i < |run| && run[0].passed == PassedBy(signer) && GateTheorems.CallsDiffer(signer.codec)
    requires k < |run[i].store.events| && run[i].store.events[k].kind == Authorized
    ensures run[i].store.events[k].request.Some?
    ensures VerifiedFor(signer, run[i].store.events[k].note, run[i].store.events[k].request.value.hash, response)
  {
    RunStaysPassed(run, i);
    var e := run[i].store.events[k];
    assert RowPassed(run[i].passed, e);
    response := PassedIsVerified(signer, e.note, e.request.value);
  }

  /** Whatever Circle has accepted, and so whatever it pays, is a transfer the gate passed for that burn
      and the log authorized. */
  lemma AcceptedIsVerified(run: seq<World>, i: nat, auth: Auth, signer: Signer) returns (k: nat, response: seq<Gate.Batch>)
    requires IsRun(run) && i < |run| && run[0].passed == PassedBy(signer) && GateTheorems.CallsDiffer(signer.codec)
    requires auth in run[i].circle.fate
    ensures SignedAt(run[i].store.events, k, auth.note, auth.hash)
    ensures VerifiedFor(signer, auth.note, auth.hash, response)
  {
    RunStaysPassed(run, i);
    assert Logged(run[i].store.events, auth.note, auth.hash);
    k :| SignedAt(run[i].store.events, k, auth.note, auth.hash);
    response := SignedIsVerified(run, i, k, signer);
  }
}
