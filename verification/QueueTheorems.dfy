/** The limit queue's order and pace, and the stability of withdrawal IDs, over every run. */
module QueueTheorems {
  import opened Basics
  import opened Submission
  import opened StoreSpec
  import opened StoreInvariant
  import opened Discovery
  import opened Machine
  import opened MachineInvariant
  import opened MachineSteps
  import opened MachineAnswers
  import opened RunTheorems

  // ---- Order -------------------------------------------------------------------------------------

  /** While a burn waits for the limit, whatever is prepared or posted without a known ID is that burn
      or one before it in withdrawal order. */
  lemma NothingOvertakesAWaiter(run: seq<World>, i: nat, waiter: NoteId)
    requires IsRun(run) && i < |run| && Waits(run[i].store, waiter)
    ensures run[i].pc.Preparing? ==> run[i].pc.note == waiter || Before(run[i].store, run[i].pc.note, waiter)
    ensures (run[i].pc.Sending? || run[i].pc.Awaiting?) && run[i].pc.saved.id.None? ==>
      run[i].pc.saved.note == waiter || Before(run[i].store, run[i].pc.saved.note, waiter)
  {
    RunKeeps(run, i);
  }

  /** Stopping the submit loop at the first refused burn skips nothing the queue would allow: every
      later burn of the listing is refused too, whatever the time. */
  lemma RefusalCoversTheRest(cfg: Config, s: State, now: nat, later: nat, ready: seq<NoteId>, i: nat, j: nat)
    requires InWithdrawalOrder(s, ready) && i < j < |ready|
    requires LimitAllows(cfg, s, now, ready[i]).Blocked?
    ensures LimitAllows(cfg, s, later, ready[j]).Blocked?
  {
    FirstWaitExists(s);
    assert Before(s, ready[i], ready[j]);
  }

  // ---- Pace --------------------------------------------------------------------------------------

  /** The step the run takes from world `i` lets burn `note` try: it is prepared, or its request is
      posted without a known ID. */
  ghost predicate Tries(run: seq<World>, i: nat, note: NoteId) {
    && i + 1 < |run|
    && Enabled(run[i], Begin) && run[i + 1] == Apply(run[i], Begin)
    && NoteOf(run[i].pc.queue[0]) == note && !IsLookup(run[i].pc.queue[0])
  }

  /** A step moves a burn's latest attempt only to the present. */
  lemma StepKeepsTried(w: World, step: Step, note: NoteId)
    requires Enabled(w, step) && note in w.tried
    ensures var w' := Apply(w, step);
      && w'.cfg == w.cfg && note in w'.tried
      && (w'.tried[note] == w.tried[note] || w'.tried[note] == w.now)
  {}

  lemma {:induction false} TriedSince(run: seq<World>, i: nat, j: nat, note: NoteId)
    requires IsRun(run) && Tries(run, i, note) && i < j < |run|
    ensures note in run[j].tried && run[i].now <= run[j].tried[note] && run[j].cfg == run[i].cfg
  {
    if i + 1 < j {
      TriedSince(run, i, j - 1, note);
      var step := StepTaken(run, j - 1);
      StepKeepsTried(run[j - 1], step, note);
      ClockGrows(run, i, j - 1);
    }
  }

  lemma {:induction false} ClockGrows(run: seq<World>, i: nat, j: nat)
    requires IsRun(run) && i <= j < |run|
    ensures run[i].now <= run[j].now
  {
    if i < j {
      ClockGrows(run, i, j - 1);
      var step := StepTaken(run, j - 1);
    }
  }

  /** Two attempts of one burn, the second while it waits, are at least the retry interval apart,
      whatever crashes and restarts lie between them. */
  lemma AttemptsAreSpaced(run: seq<World>, i: nat, j: nat, note: NoteId)
    requires IsRun(run) && i < j && Tries(run, i, note) && Tries(run, j, note)
    requires Waits(run[j].store, note)
    ensures run[j].cfg.limit.Some?
    ensures run[i].now + run[j].cfg.limit.value.interval <= run[j].now
  {
    RunKeeps(run, j);
    TriedSince(run, i, j, note);
    AllowedIsAhead(run[j].cfg, run[j].store, run[j].now, note);
  }

  // ---- Withdrawal IDs ----------------------------------------------------------------------------

  lemma HeldHasNoId(s: State, note: NoteId)
    requires WellKept(s) && note in s.subs
    ensures s.subs[note].status == Held ==> s.subs[note].id.None?
  {
    assert NoteKept(s, note);
  }

  lemma {:induction false} OfflineKeepsIds(s: State, notes: seq<NoteId>, note: NoteId)
    requires WellKept(s) && ReleaseHolds(s, notes).Ok? && note in s.subs && s.subs[note].id.Some?
    ensures var s' := ReleaseHolds(s, notes).value.state; note in s'.subs && s'.subs[note] == s.subs[note]
    decreases |notes|
  {
    if |notes| > 0 {
      ReleaseKeeps(s, notes[0], true);
      OfflineKeepsIds(ReleaseHold(s, notes[0], true).value.state, notes[1..], note);
    }
  }

  /** The row keeps its request and its ID. */
  predicate SameId(s: State, s': State, note: NoteId) {
    && note in s.subs && note in s'.subs
    && s'.subs[note].request == s.subs[note].request && s'.subs[note].id == s.subs[note].id
  }

  lemma UpdateKeepsId(s: State, outcome: Submission, note: NoteId)
    requires WellKept(s) && outcome.note in s.subs && Successor(s.subs[outcome.note], outcome)
    requires s.subs[outcome.note].id.Some? ==> outcome.id == s.subs[outcome.note].id
    requires note in s.subs && s.subs[note].id.Some?
    ensures UpdateOutcome(s, outcome).Ok? && SameId(s, UpdateOutcome(s, outcome).value, note)
  {
    UpdateKeeps(s, outcome);
  }

  lemma SettleKeepsIds(cfg: Config, now: nat, s: State, saved: Submission, attempt: Attempt, answer: Answer, note: NoteId)
    requires WellKept(s) && RowIs(s, saved) && note in s.subs && s.subs[note].id.Some?
    ensures var r := Settle(cfg, now, s, saved, attempt, answer);
      r.Settled? ==> SameId(s, r.store, note)
  {
    var got := Receive(saved, answer);
    RowIsLive(s, saved);
    if answer.Lost? {
      UpdateKeepsId(s, got, note);
    } else if saved.id.Some? || !(IsLimitRejection(cfg, answer.reply) || answer.reply.http == 409) {
      ResponseIsSuccessor(saved, answer.reply);
      UpdateKeepsId(s, ReadResponse(got, answer.reply).0, note);
    } else if !IsLimitRejection(cfg, answer.reply) {
      ConflictIsSuccessor(saved, answer.reply);
      UpdateKeepsId(s, ReadConflict(got).0, note);
    }
  }

  /** A new authorization of this burn over its expired one is logged. */
  predicate SignsOver(s: State, s': State, note: NoteId) {
    && note in s.subs && s.subs[note].status == Expired
    && |s'.events| == |s.events| + 1
    && s'.events[|s.events|].kind == Authorized && s'.events[|s.events|].note == note
  }

  lemma PrepareKeepsIds(w: World, result: Prepared, note: NoteId)
    requires Enabled(w, Prepare(result)) && Withdrawable(w.store, w.pc.note)
    requires note in w.store.subs && w.store.subs[note].id.Some?
    ensures var s' := FinishPrepare(w, result).store;
      SameId(w.store, s', note) || SignsOver(w.store, s', note)
  {
    match result
    case TryLater => {}
    case Limited(_) => {}
    case HoldIt(_, _) => {}
    case Signed(request) => if note != w.pc.note {}
  }

  /** One step keeps a submission's ID, unless it signs a new request over an expired one. */
  lemma StepKeepsId(w: World, step: Step, note: NoteId)
    requires Inv(w) && Enabled(w, step) && note in w.store.subs && w.store.subs[note].id.Some?
    ensures var s' := Apply(w, step).store; SameId(w.store, s', note) || SignsOver(w.store, s', note)
  {
    if WritesNothing(step) {
      StoreUntouched(w, step);
    } else {
      match step
      case SaveNext(_) => {}
      case Release(selection) => ReleaseKeepsId(w.store, selection, note);
      case ReleaseOffline(notes) => OfflineKeepsIds(w.store, notes, note);
      case Begin => BeginKeepsIds(w);
      case Prepare(result) => PrepareKeepsIds(w, result, note);
      case Answered(answer) => SettleKeepsIds(w.cfg, w.now, w.store, w.pc.saved, w.pc.attempt, answer, note);
    }
  }

  lemma BeginKeepsIds(w: World)
    requires Enabled(w, Begin)
    ensures Apply(w, Begin).store.subs == w.store.subs
  {}

  lemma ReleaseKeepsId(s: State, selection: Selection, note: NoteId)
    requires ReleaseChecked(s, selection).Ok? && note in s.subs && s.subs[note].id.Some?
    ensures SameId(s, ReleaseChecked(s, selection).value.state, note)
  {}

  /** The log between two worlds holds no new authorization of this burn. */
  ghost predicate NotSignedAgain(before: seq<Event>, after: seq<Event>, note: NoteId) {
    forall k :: |before| <= k < |after| ==> !(after[k].kind == Authorized && after[k].note == note)
  }

  lemma StillNotSigned(before: seq<Event>, middle: seq<Event>, after: seq<Event>, note: NoteId)
    requires middle <= after && NotSignedAgain(before, after, note)
    ensures NotSignedAgain(before, middle, note)
  {
    assert forall k :: 0 <= k < |middle| ==> middle[k] == after[k];
  }

  lemma {:induction false} SameIdAlong(run: seq<World>, i: nat, j: nat, note: NoteId)
    requires IsRun(run) && i <= j < |run|
    requires note in run[i].store.subs && run[i].store.subs[note].id.Some?
    requires NotSignedAgain(run[i].store.events, run[j].store.events, note)
    ensures SameId(run[i].store, run[j].store, note)
  {
    if i < j {
      LogGrows(run, i, j - 1);
      LogGrows(run, j - 1, j);
      StillNotSigned(run[i].store.events, run[j - 1].store.events, run[j].store.events, note);
      SameIdAlong(run, i, j - 1, note);
      RunKeeps(run, j - 1);
      var step := StepTaken(run, j - 1);
      StepKeepsId(run[j - 1], step, note);
    }
  }

  /** Once an ID is saved for an authorization, it stays with it until a new authorization is logged:
      the row keeps its request and ID, is never held or released, and every call made for it looks
      that ID up. */
  lemma IdIsStable(run: seq<World>, i: nat, j: nat, note: NoteId)
    requires IsRun(run) && i <= j < |run|
    requires note in run[i].store.subs && run[i].store.subs[note].id.Some?
    requires NotSignedAgain(run[i].store.events, run[j].store.events, note)
    ensures SameId(run[i].store, run[j].store, note)
    ensures run[j].store.subs[note].status != Held
    ensures ReleaseHold(run[j].store, note, true).Ok? ==> SameId(run[i].store, ReleaseHold(run[j].store, note, true).value.state, note)
    ensures (run[j].pc.Sending? || run[j].pc.Awaiting?) && run[j].pc.saved.note == note ==>
      CallOf(run[j].pc.saved) == Get(run[i].store.subs[note].id.value)
  {
    SameIdAlong(run, i, j, note);
    RunKeeps(run, j);
    HeldHasNoId(run[j].store, note);
  }
}
