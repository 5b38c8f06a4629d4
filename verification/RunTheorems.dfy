/** What holds of every run of the attester: crashes between any two transactions, lost replies,
    conflicts, limit rejections and operator releases included. */
module RunTheorems {
  import opened Basics
  import opened Submission
  import opened StoreSpec
  import opened StoreInvariant
  import opened Discovery
  import opened Machine
  import opened MachineInvariant
  import opened MachineSteps
  import opened MachineAnswers
  import opened StoreReads

  // ---- No double payout --------------------------------------------------------------------------

  /** At any moment at most one authorization of a burn is accepted and not expired, or can still be
      accepted. */
  lemma AtMostOneOpen(run: seq<World>, i: nat, a: Auth, b: Auth)
    requires IsRun(run) && i < |run|
    requires Open(run[i].circle, a) && Open(run[i].circle, b) && a.note == b.note
    ensures a == b
  {
    RunKeeps(run, i);
  }

  lemma StepKeepsPaid(w: World, step: Step, auth: Auth)
    requires Enabled(w, step) && auth in w.circle.fate && w.circle.fate[auth] == PaidOut
    ensures var circle' := Apply(w, step).circle; auth in circle'.fate && circle'.fate[auth] == PaidOut
  {}

  lemma {:induction false} PaidStaysPaid(run: seq<World>, i: nat, j: nat, auth: Auth)
    requires IsRun(run) && i <= j < |run|
    requires auth in run[i].circle.fate && run[i].circle.fate[auth] == PaidOut
    ensures auth in run[j].circle.fate && run[j].circle.fate[auth] == PaidOut
  {
    if i < j {
      PaidStaysPaid(run, i, j - 1, auth);
      var step := StepTaken(run, j - 1);
      StepKeepsPaid(run[j - 1], step, auth);
    }
  }

  /** No burn is ever paid twice: over the whole run, the authorizations paid for one burn are one. */
  lemma PaidOnce(run: seq<World>, i: nat, j: nat, a: Auth, b: Auth)
    requires IsRun(run) && i < |run| && j < |run| && a.note == b.note
    requires a in run[i].circle.fate && run[i].circle.fate[a] == PaidOut
    requires b in run[j].circle.fate && run[j].circle.fate[b] == PaidOut
    ensures a == b
  {
    var k := if i <= j then j else i;
    PaidStaysPaid(run, i, k, a);
    PaidStaysPaid(run, j, k, b);
    AtMostOneOpen(run, k, a, b);
  }

  // ---- Snapshot freshness ------------------------------------------------------------------------

  /** Whatever the process still works from is what the store holds: each remaining submission of the
      snapshot, and the one being sent, equals its row; each remaining burn is still withdrawable. */
  lemma SnapshotsAreCurrent(run: seq<World>, i: nat)
    requires IsRun(run) && i < |run|
    ensures !run[i].pc.Idle? ==> QueueCurrent(run[i].store, run[i].pc.queue)
    ensures run[i].pc.Preparing? ==> Withdrawable(run[i].store, run[i].pc.note)
    ensures run[i].pc.Sending? || run[i].pc.Awaiting? ==> RowIs(run[i].store, run[i].pc.saved)
  {
    RunKeeps(run, i);
  }

  predicate OutOfRange(w: World) {
    w.cfg.limit.Some? && RetryAt(w.cfg.limit.value.interval, w.now).None?
  }

  /** The limit queue stops a cycle, rather than refuse a burn, only when the next retry is out of range:
      the burn is known, a waiting one has its policy, and moving its retry succeeds. */
  lemma LimitStopsOutOfRange(w: World, note: NoteId)
    requires Inv(w) && note in w.store.burns && LimitAllows(w.cfg, w.store, w.now, note).Stopped?
    ensures OutOfRange(w)
  {
    FirstWaitExists(w.store);
  }

  lemma BlockSaves(w: World, block: Block)
    requires Inv(w) && block.num == w.store.anchor + |w.chain|
    ensures SaveBlock(w.store, block).Ok? <==> Acceptable(w.store.burns, block)
  {
    CreatedBelow(w.store, w.chain);
    SavesBlock(w.store, block);
  }

  lemma PrepareSaves(w: World, result: Prepared)
    requires Inv(w) && Enabled(w, Prepare(result)) && !OutOfRange(w)
    requires result.Signed? ==> ValidRequest(w.pc.note, result.request)
    ensures Apply(w, Prepare(result)).pc != Idle
  {
    match result
    case TryLater => {}
    case Limited(reply) =>
      LimitKeeps(w.store, w.pc.note, RetryAt(w.cfg.limit.value.interval, w.now).value, reply.body, None);
    case HoldIt(reason, given) => HoldKeeps(w.store, w.pc.note, reason, given);
    case Signed(request) => SaveKeeps(w.store, w.pc.note, request);
  }

  /** So no row-count check of a cycle's writes fires: an answer, a prepared burn and a due waiter's next
      retry are saved unless a retry deadline is out of range or a request does not name its burn; and a
      block is, unless its notes or nullifiers clash with saved ones. */
  lemma NoWriteConflicts(run: seq<World>, i: nat, answer: Answer, result: Prepared, block: Block)
    requires IsRun(run) && i < |run|
    ensures var w := run[i];
      && (Enabled(w, Answered(answer)) && !OutOfRange(w) ==>
            Settle(w.cfg, w.now, w.store, w.pc.saved, w.pc.attempt, answer).Settled?)
      && (Enabled(w, Prepare(result)) && !OutOfRange(w) && (result.Signed? ==> ValidRequest(w.pc.note, result.request)) ==>
            Apply(w, Prepare(result)).pc != Idle)
      && (w.pc.Working? && |w.pc.queue| > 0 && !OutOfRange(w) ==>
            !LimitAllows(w.cfg, w.store, w.now, NoteOf(w.pc.queue[0])).Stopped?)
      && (block.num == w.store.anchor + |w.chain| ==>
            (SaveBlock(w.store, block).Ok? <==> Acceptable(w.store.burns, block)))
  {
    var w := run[i];
    RunKeeps(run, i);
    if Enabled(w, Answered(answer)) { AnswerSettles(w, answer); }
    if Enabled(w, Prepare(result)) && !OutOfRange(w) && (result.Signed? ==> ValidRequest(w.pc.note, result.request)) {
      PrepareSaves(w, result);
    }
    if w.pc.Working? && |w.pc.queue| > 0 && LimitAllows(w.cfg, w.store, w.now, NoteOf(w.pc.queue[0])).Stopped? {
      assert ItemCurrent(w.store, w.pc.queue[0]);
      LimitStopsOutOfRange(w, NoteOf(w.pc.queue[0]));
    }
    if block.num == w.store.anchor + |w.chain| { BlockSaves(w, block); }
  }

  // ---- Discovery and reopening -------------------------------------------------------------------

  /** After any mix of partial scans, failures and restarts, the burns table is the one the saved
      blocks determine. */
  lemma TableReflectsChain(run: seq<World>, i: nat)
    requires IsRun(run) && i < |run|
    ensures Reflects(run[i].store, run[i].chain)
  {
    RunKeeps(run, i);
  }

  /** At every transaction boundary the store passes its own startup and load checks. */
  lemma EveryStoreReopens(run: seq<World>, i: nat)
    requires IsRun(run) && i < |run|
    ensures Reopens(run[i].store)
    ensures forall n :: BurnHeldIn(run[i].store, n) && n in run[i].store.subs ==> run[i].store.subs[n].status == Expired
  {
    RunKeeps(run, i);
    KeptStoreReopens(run[i].store);
  }

  /** In every reachable store, the progress counts partition the consumed burns, and following the
      pages of the hold listing yields every hold exactly once, in note order. */
  lemma ReadsAreExact(run: seq<World>, i: nat)
    requires IsRun(run) && i < |run|
    ensures var s, p := run[i].store, ProgressOf(run[i].store);
      && |ConsumedBurns(s)| == p.burnsHeld + p.withdrawalsHeld + p.withdrawalsFailed + |WithStatus(s, Finalized)| + p.burnsUnfinished
      && AllPages(s, Sorted(HeldNotes(s)), None) == Entries(s, Sorted(HeldNotes(s)))
  {
    RunKeeps(run, i);
    ProgressPartitions(run[i].store);
    PagingIsLossless(run[i].store);
  }

  // ---- The history only grows --------------------------------------------------------------------

  /** A new authorization is logged alone. */
  ghost predicate GrowsTo(events: seq<Event>, later: seq<Event>) {
    && events <= later
    && forall k :: |events| <= k < |later| && later[k].kind == Authorized ==> k == |events| && |later| == k + 1
  }

  lemma {:induction false} OfflineLog(s: State, notes: seq<NoteId>)
    requires WellKept(s) && ReleaseHolds(s, notes).Ok?
    ensures GrowsTo(s.events, ReleaseHolds(s, notes).value.state.events)
    ensures forall k :: |s.events| <= k < |ReleaseHolds(s, notes).value.state.events| ==>
      ReleaseHolds(s, notes).value.state.events[k].kind != Authorized
    decreases |notes|
  {
    if |notes| > 0 {
      ReleaseKeeps(s, notes[0], true);
      OfflineLog(ReleaseHold(s, notes[0], true).value.state, notes[1..]);
    }
  }

  /** The log gains at most one row, which is no authorization. */
  predicate LogsQuietly(events: seq<Event>, later: seq<Event>) {
    || later == events
    || (|later| == |events| + 1 && later[..|events|] == events && later[|events|].kind != Authorized)
  }

  lemma UpdateLog(s: State, outcome: Submission)
    ensures UpdateOutcome(s, outcome).Ok? ==> LogsQuietly(s.events, UpdateOutcome(s, outcome).value.events)
  {}

  lemma LimitLog(s: State, note: NoteId, at: nat, response: Body, submission: Option<(Submission, Attempt)>)
    ensures var r := RecordLimitRejection(s, note, at, response, submission);
      r.Ok? ==> LogsQuietly(s.events, r.value.events)
  {}

  /** Settling an answer logs no authorization. */
  lemma SettleLog(cfg: Config, now: nat, s: State, saved: Submission, attempt: Attempt, answer: Answer)
    ensures var r := Settle(cfg, now, s, saved, attempt, answer);
      r.Settled? ==> LogsQuietly(s.events, r.store.events)
  {
    var got := Receive(saved, answer);
    UpdateLog(s, got);
    if answer.Got? {
      UpdateLog(s, ReadConflict(got).0);
      UpdateLog(s, ReadResponse(got, answer.reply).0);
      if IsLimitRejection(cfg, answer.reply) {
        var at := RetryAt(cfg.limit.value.interval, now);
        if at.Some? { LimitLog(s, saved.note, at.value, answer.reply.body, Some((got, attempt))); }
      }
    }
  }

  lemma AnswerLog(w: World, answer: Answer)
    requires Enabled(w, Answered(answer))
    ensures LogsQuietly(w.store.events, Apply(w, Answered(answer)).store.events)
  {
    SettleLog(w.cfg, w.now, w.store, w.pc.saved, w.pc.attempt, answer);
  }

  lemma QuietGrows(events: seq<Event>, later: seq<Event>)
    requires LogsQuietly(events, later)
    ensures GrowsTo(events, later)
  {}

  lemma PrepareLog(w: World, result: Prepared)
    requires Inv(w) && Enabled(w, Prepare(result))
    ensures GrowsTo(w.store.events, Apply(w, Prepare(result)).store.events)
  {
    var s, note := w.store, w.pc.note;
    assert NoteKept(s, note);
    match result
    case TryLater => {}
    case Limited(reply) =>
      var at := RetryAt(w.cfg.limit.value.interval, w.now);
      if at.Some? { LimitKeeps(s, note, at.value, reply.body, None); }
    case HoldIt(reason, answer) => HoldKeeps(s, note, reason, answer);
    case Signed(request) =>
      if ValidRequest(note, request) { SaveKeeps(s, note, request); }
  }

  /** Steps that write nothing to the store. */
  predicate WritesNothing(step: Step) {
    || step.StartCycle? || step.Skip? || step.EndCycle? || step.Send? || step.Leave? || step.Crash?
    || step.Accept? || step.Drop? || step.Progress? || step.Tick?
  }

  lemma StoreUntouched(w: World, step: Step)
    requires Enabled(w, step) && WritesNothing(step)
    ensures Apply(w, step).store == w.store
  {}

  lemma BeginLog(w: World)
    requires Enabled(w, Begin)
    ensures Apply(w, Begin).store.events == w.store.events
  {}

  lemma StepLog(w: World, step: Step)
    requires Inv(w) && Enabled(w, step)
    ensures GrowsTo(w.store.events, Apply(w, step).store.events)
  {
    if WritesNothing(step) {
      StoreUntouched(w, step);
    } else {
      match step
      case SaveNext(_) => {}
      case Release(selection) => ReleaseKeeps(w.store, selection.note, selection.notAccepted);
      case ReleaseOffline(notes) => OfflineLog(w.store, notes);
      case Begin => BeginLog(w);
      case Prepare(result) => PrepareLog(w, result);
      case Answered(answer) =>
        AnswerLog(w, answer);
        QuietGrows(w.store.events, Apply(w, step).store.events);
    }
  }

  lemma {:induction false} LogGrows(run: seq<World>, i: nat, j: nat)
    requires IsRun(run) && i <= j < |run|
    ensures run[i].store.events <= run[j].store.events
  {
    if i < j {
      LogGrows(run, i, j - 1);
      RunKeeps(run, j - 1);
      var step := StepTaken(run, j - 1);
      StepLog(run[j - 1], step);
    }
  }

  // ---- A revision identifies its hold ------------------------------------------------------------

  /** If a note's latest history row is the same at two moments, so is its hold, kind and reason. */
  lemma RevisionIdentifiesHold(run: seq<World>, i: nat, j: nat, note: NoteId)
    requires IsRun(run) && i <= j < |run|
    requires Revision(run[i].store.events, note) == Revision(run[j].store.events, note)
    ensures HoldOf(run[i].store, note) == HoldOf(run[j].store, note)
  {
    RunKeeps(run, i);
    RunKeeps(run, j);
    LogGrows(run, i, j);
    RevisionFixesHistory(run[i].store.events, run[j].store.events, note);
    HoldIsInHistory(run[i].store, note);
    HoldIsInHistory(run[j].store, note);
  }

  /** A checked release releases exactly the hold that was listed, if it releases anything; and a
      listed hold whose revision has not moved is releasable. */
  lemma CheckedReleaseIsListed(run: seq<World>, i: nat, j: nat, note: NoteId, notAccepted: bool)
    requires IsRun(run) && i <= j < |run| && HoldOf(run[i].store, note) != NoHold
    ensures Revision(run[i].store.events, note).Some?
    ensures var listed := Revision(run[i].store.events, note).value;
      var r := ReleaseChecked(run[j].store, Selection(note, listed, notAccepted));
      && (r.Ok? ==> HoldOf(run[j].store, note) == HoldOf(run[i].store, note))
      && (Revision(run[j].store.events, note) == Some(listed) ==>
            (r.Ok? <==> (HoldOf(run[i].store, note).OfBurn? || notAccepted)))
      && (Revision(run[j].store.events, note) != Some(listed) ==> r == Err(HoldChanged))
  {
    RunKeeps(run, i);
    RunKeeps(run, j);
    HoldIsReleasable(run[i].store, note, notAccepted);
    var listed := Revision(run[i].store.events, note).value;
    LogGrows(run, i, j);
    if Revision(run[j].store.events, note) == Some(listed) {
      RevisionIdentifiesHold(run, i, j, note);
      HoldIsReleasable(run[j].store, note, notAccepted);
    } else {
      RevisionStays(run[i].store.events, run[j].store.events, note);
    }
  }

  lemma {:induction false} RevisionStays(events: seq<Event>, later: seq<Event>, note: NoteId)
    requires events <= later && Revision(events, note).Some?
    ensures Revision(later, note).Some?
    decreases |later|
  {
    if |later| > |events| { RevisionStays(events, later[..|later| - 1], note); } else { assert events == later; }
  }
}
