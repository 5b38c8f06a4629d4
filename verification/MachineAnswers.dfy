/** Answers keep the invariant: what an answer may do to a saved submission, and to the store. */
module MachineAnswers {
  import opened Basics
  import opened Submission
  import opened StoreSpec
  import opened StoreInvariant
  import opened Discovery
  import opened Machine
  import opened MachineInvariant
  import opened MachineSteps

  // ---- The submission ----------------------------------------------------------------------------

  predicate Live(row: Submission) {
    ValidSubmission(row) && (row.status == Submitting || row.status == Submitted)
  }

  /** A reply read on a live submission gives one of its legal successors: the same signed request,
      the same ID once it has one, and held only without an ID. */
  lemma ResponseIsSuccessor(row: Submission, reply: Reply)
    requires Live(row)
    ensures var read := ReadResponse(Receive(row, Got(reply)), reply).0;
      Successor(row, read) && (row.id.Some? ==> read.id == row.id)
  {
    var got := Receive(row, Got(reply));
    var reported := Reported(reply.body, got.id.Some?);
    if reported.Some? && Identifies(got, reported.value) {
      assert IsWellFormedId(reported.value.id);
    }
  }

  /** A conflict without a withdrawal ID changes no status; one with an ID names the submission. */
  lemma ConflictIsSuccessor(row: Submission, reply: Reply)
    requires Live(row) && row.id.None?
    ensures var (read, failure) := ReadConflict(Receive(row, Got(reply)));
      && Successor(row, read) && read.status == Submitting
      && (failure.None? <==> read.id.Some?)
  {}

  /** A submission becomes expired only when Circle names exactly its authorization as expired. */
  lemma ExpiredIsLapsed(circle: Circle, row: Submission, reply: Reply)
    requires Live(row) && TruthfulBody(circle, reply.body)
    ensures ReadResponse(Receive(row, Got(reply)), reply).0.status == Expired ==>
      AuthOf(row) in circle.fate && circle.fate[AuthOf(row)] == Lapsed
  {
    var got := Receive(row, Got(reply));
    if ReadResponse(got, reply).0.status == Expired {
      var reported := Reported(reply.body, row.id.Some?).value;
      assert Identifies(got, reported);
      assert Truthful(circle, reported);
    }
  }

  // ---- The outcome of a request ------------------------------------------------------------------

  /** The parts of the invariant an item's answer must re-establish. */
  ghost predicate Between(w: World, s': State, circle': Circle) {
    && WellKept(s') && Reflects(s', w.chain) && Spaced(w.(store := s'))
    && w.pc.Awaiting? && QueueCurrent(s', w.pc.queue)
    && OpenIsSaved(s', circle') && CopiesNumbered(circle')
  }

  lemma OutcomeStep(w: World, outcome: Submission)
    requires Inv(w) && w.pc.Awaiting? && Successor(w.pc.saved, outcome)
    requires outcome.status == Expired ==>
      AuthOf(w.pc.saved) in w.circle.fate && w.circle.fate[AuthOf(w.pc.saved)] == Lapsed
    ensures var r := UpdateOutcome(w.store, outcome);
      && r.Ok? && Between(w, r.value, w.circle)
      && r.value.subs == w.store.subs[outcome.note := outcome]
  {
    var s, note := w.store, w.pc.saved.note;
    UpdateKeeps(s, outcome);
    var s' := UpdateOutcome(s, outcome).value;
    assert note in s.burns;
    ReflectsOnly(s, s', w.chain, note);
    QueueStays(s, s', note, w.pc.queue);
    SpacedStays(w, s', note);
    OpenStays(s, s', w.circle, note);
  }

  /** A rejected copy leaves flight; nothing else about Circle changes. */
  lemma RejectedStays(w: World, s': State)
    requires w.pc.Awaiting? && Between(w, s', w.circle)
    ensures Between(w, s', w.circle.(flight := w.circle.flight - {w.pc.copy}))
  {
    DropShrinks(w.circle, Idle, w.pc.copy);
    ShrinksKeepsSaved(s', w.circle, w.circle.(flight := w.circle.flight - {w.pc.copy}));
  }

  /** A rejected first send leaves nothing of its burn open, so its request can be deleted. */
  lemma FirstRejectedIsClosed(w: World)
    requires w.pc.Awaiting? && w.pc.attempt == First && w.pc.saved.id.None?
    requires RowIs(w.store, w.pc.saved)
    requires OpenIsSaved(w.store, w.circle) && FirstIsAlone(w.pc, w.circle) && w.pc.copy in w.circle.flight
    ensures var circle' := w.circle.(flight := w.circle.flight - {w.pc.copy});
      && OpenIsSaved(w.store, circle')
      && forall auth :: Open(circle', auth) ==> auth.note != w.pc.saved.note
  {
    var circle' := w.circle.(flight := w.circle.flight - {w.pc.copy});
    DropShrinks(w.circle, w.pc, w.pc.copy);
    ShrinksKeepsSaved(w.store, w.circle, circle');
    var mine := AuthOf(w.pc.saved);
    assert !Open(circle', mine);
    forall auth | Open(circle', auth) && auth.note == w.pc.saved.note ensures auth == mine {}
  }

  lemma LimitStep(w: World, reply: Reply, at: nat)
    requires Inv(w) && w.pc.Awaiting? && w.pc.saved.id.None? && w.pc.copy in w.circle.flight
    requires w.cfg.limit.Some? && RetryAt(w.cfg.limit.value.interval, w.now) == Some(at)
    ensures var got := Receive(w.pc.saved, Got(reply));
      var r := RecordLimitRejection(w.store, got.note, at, reply.body, Some((got, w.pc.attempt)));
      && r.Ok? && Between(w, r.value, w.circle.(flight := w.circle.flight - {w.pc.copy}))
  {
    var s, saved := w.store, w.pc.saved;
    var got := Receive(saved, Got(reply));
    var circle' := w.circle.(flight := w.circle.flight - {w.pc.copy});
    assert saved.note in s.burns && NoteKept(s, saved.note);
    LimitKeeps(s, saved.note, at, reply.body, Some((got, w.pc.attempt)));
    var s' := RecordLimitRejection(s, saved.note, at, reply.body, Some((got, w.pc.attempt))).value;
    ReflectsOnly(s, s', w.chain, saved.note);
    QueueStays(s, s', saved.note, w.pc.queue);
    SpacedFromNow(w, s', saved.note, at);
    if w.pc.attempt == First {
      FirstRejectedIsClosed(w);
    } else {
      DropShrinks(w.circle, w.pc, w.pc.copy);
      ShrinksKeepsSaved(s, w.circle, circle');
    }
    OpenStays(s, s', circle', saved.note);
  }

  /** Settling succeeded, with what the invariant needs of its result. */
  ghost predicate WellSettled(w: World, settled: Settled, circle': Circle) {
    && settled.Settled? && Between(w, settled.store, circle')
    && (settled.again.Some? ==>
          && RowIs(settled.store, settled.again.value) && settled.again.value.id.Some?
          && settled.again.value.note == w.pc.saved.note)
  }

  function CircleAfter(w: World, answer: Answer): Circle
    requires w.pc.Awaiting?
  {
    if w.pc.saved.id.None? && answer.Got? && answer.reply.http == 400
    then w.circle.(flight := w.circle.flight - {w.pc.copy}) else w.circle
  }

  lemma LimitSettles(w: World, reply: Reply)
    requires Inv(w) && Enabled(w, Answered(Got(reply))) && w.pc.saved.id.None? && IsLimitRejection(w.cfg, reply)
    ensures var r := Settle(w.cfg, w.now, w.store, w.pc.saved, w.pc.attempt, Got(reply));
      if RetryAt(w.cfg.limit.value.interval, w.now).None? then r.Ended? else WellSettled(w, r, CircleAfter(w, Got(reply)))
  {
    var at := RetryAt(w.cfg.limit.value.interval, w.now);
    if at.Some? { LimitStep(w, reply, at.value); }
  }

  lemma ConflictSettles(w: World, reply: Reply)
    requires Inv(w) && Enabled(w, Answered(Got(reply))) && w.pc.saved.id.None? && reply.http == 409
    ensures WellSettled(w, Settle(w.cfg, w.now, w.store, w.pc.saved, w.pc.attempt, Got(reply)), CircleAfter(w, Got(reply)))
  {
    RowIsLive(w.store, w.pc.saved);
    ConflictIsSuccessor(w.pc.saved, reply);
    OutcomeStep(w, ReadConflict(Receive(w.pc.saved, Got(reply))).0);
  }

  lemma ResponseSettles(w: World, reply: Reply)
    requires Inv(w) && Enabled(w, Answered(Got(reply)))
    requires w.pc.saved.id.None? ==> reply.http != 409 && !IsLimitRejection(w.cfg, reply)
    ensures WellSettled(w, Settle(w.cfg, w.now, w.store, w.pc.saved, w.pc.attempt, Got(reply)), CircleAfter(w, Got(reply)))
  {
    RowIsLive(w.store, w.pc.saved);
    ResponseIsSuccessor(w.pc.saved, reply);
    ExpiredIsLapsed(w.circle, w.pc.saved, reply);
    var read := ReadResponse(Receive(w.pc.saved, Got(reply)), reply).0;
    OutcomeStep(w, read);
    if CircleAfter(w, Got(reply)) != w.circle { RejectedStays(w, UpdateOutcome(w.store, read).value); }
  }

  lemma LossSettles(w: World, error: string)
    requires Inv(w) && w.pc.Awaiting?
    ensures WellSettled(w, Settle(w.cfg, w.now, w.store, w.pc.saved, w.pc.attempt, Lost(error)), w.circle)
  {
    RowIsLive(w.store, w.pc.saved);
    OutcomeStep(w, Receive(w.pc.saved, Lost(error)));
  }

  lemma RowIsLive(s: State, saved: Submission)
    requires WellKept(s) && RowIs(s, saved)
    ensures Live(saved) && saved.note in s.burns
  {
    assert NoteKept(s, saved.note);
  }

  /** Settling an answer succeeds unless the retry deadline leaves the store's range. */
  lemma AnswerSettles(w: World, answer: Answer)
    requires Inv(w) && Enabled(w, Answered(answer))
    ensures var r := Settle(w.cfg, w.now, w.store, w.pc.saved, w.pc.attempt, answer);
      if r.Ended? then w.cfg.limit.Some? && RetryAt(w.cfg.limit.value.interval, w.now).None?
      else WellSettled(w, r, CircleAfter(w, answer))
  {
    match answer
    case Lost(error) => LossSettles(w, error);
    case Got(reply) =>
      if w.pc.saved.id.None? && IsLimitRejection(w.cfg, reply) {
        LimitSettles(w, reply);
      } else if w.pc.saved.id.None? && reply.http == 409 {
        ConflictSettles(w, reply);
      } else {
        ResponseSettles(w, reply);
      }
  }

  lemma AnswerKeeps(w: World, answer: Answer)
    requires Inv(w) && Enabled(w, Answered(answer))
    ensures Inv(Apply(w, Answered(answer)))
  {
    AnswerSettles(w, answer);
    DropShrinks(w.circle, Idle, w.pc.copy);
    ShrinksKeepsSaved(w.store, w.circle, w.circle.(flight := w.circle.flight - {w.pc.copy}));
  }

  /** Steps of the world outside, and steps that only move the process along. */
  predicate IsPassing(step: Step) {
    step.Skip? || step.EndCycle? || step.Leave? || step.Crash? || step.Tick?
  }

  lemma PassingKeeps(w: World, step: Step)
    requires Inv(w) && Enabled(w, step) && IsPassing(step)
    ensures Inv(Apply(w, step))
  {
    if step.Skip? { QueueTail(w.store, w.pc.queue); }
  }

  /** Every step keeps the invariant. */
  lemma StepKeeps(w: World, step: Step)
    requires Inv(w) && Enabled(w, step)
    ensures Inv(Apply(w, step))
  {
    if IsPassing(step) {
      PassingKeeps(w, step);
    } else if step.Accept? || step.Drop? || step.Progress? {
      CircleKeeps(w, step);
    } else {
      match step
      case SaveNext(block) => SaveNextKeeps(w, block);
      case StartCycle(proofLag, recover, ready, poll) => StartKeeps(w, proofLag, recover, ready, poll);
      case Release(selection) => ReleaseStep(w, selection.note, selection.notAccepted);
      case ReleaseOffline(notes) => OfflineKeeps(w, notes);
      case Begin => BeginKeeps(w);
      case Prepare(result) => PrepareKeeps(w, result);
      case Send => SendKeeps(w);
      case Answered(answer) => AnswerKeeps(w, answer);
    }
  }

  lemma StepTaken(run: seq<World>, i: nat) returns (step: Step)
    requires IsRun(run) && i + 1 < |run|
    ensures Enabled(run[i], step) && run[i + 1] == Apply(run[i], step)
  {
    assert StepAt(run, i);
    step :| Enabled(run[i], step) && run[i + 1] == Apply(run[i], step);
  }

  lemma {:induction false} RunKeeps(run: seq<World>, i: nat)
    requires IsRun(run) && i < |run|
    ensures Inv(run[i])
  {
    if i == 0 {
      InitInv(run[0]);
    } else {
      RunKeeps(run, i - 1);
      var step := StepTaken(run, i - 1);
      StepKeeps(run[i - 1], step);
    }
  }
}
