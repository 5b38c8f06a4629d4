/** Nothing is signed before its burn is final: every authorization is of a burn consumed at the
    configured depth below the verified checkpoint, over every run. */
module DepthTheorems {
  import opened Basics
  import opened Submission
  import opened StoreSpec
  import opened StoreInvariant
  import opened Discovery
  import opened Machine
  import opened MachineInvariant
  import opened MachineSteps
  import opened MachineAnswers
  import opened RunTheorems

  /** The burn was consumed at least the configured depth below the checkpoint. */
  predicate Deep(depth: nat, s: State, note: NoteId) {
    && note in s.burns && s.burns[note].consumed.Some?
    && s.checkpoint.Some? && s.burns[note].consumed.value + depth <= s.checkpoint.value
  }

  predicate DeepWork(depth: nat, s: State, queue: seq<Item>) {
    forall i :: 0 <= i < |queue| && queue[i].Fresh? ==> Deep(depth, s, queue[i].note)
  }

  predicate DeepLog(depth: nat, s: State) {
    forall k :: 0 <= k < |s.events| && s.events[k].kind == Authorized ==> Deep(depth, s, s.events[k].note)
  }

  /** What is left to withdraw, what is being prepared and what was ever signed is deep. */
  predicate AllDeep(w: World) {
    && DeepLog(w.cfg.depth, w.store)
    && (!w.pc.Idle? ==> DeepWork(w.cfg.depth, w.store, w.pc.queue))
    && (w.pc.Preparing? ==> Deep(w.cfg.depth, w.store, w.pc.note))
  }

  // ---- Depth only grows --------------------------------------------------------------------------

  lemma {:induction false} OfflineStaysDeep(depth: nat, s: State, notes: seq<NoteId>, note: NoteId)
    requires ReleaseHolds(s, notes).Ok? && Deep(depth, s, note)
    ensures Deep(depth, ReleaseHolds(s, notes).value.state, note)
    decreases |notes|
  {
    if |notes| > 0 { OfflineStaysDeep(depth, ReleaseHold(s, notes[0], true).value.state, notes[1..], note); }
  }

  lemma SavedStaysDeep(w: World, block: Block, note: NoteId)
    requires Inv(w) && Enabled(w, SaveNext(block)) && Deep(w.cfg.depth, w.store, note)
    ensures Deep(w.cfg.depth, Apply(w, SaveNext(block)).store, note)
  {
    CreatedBelow(w.store, w.chain);
    SavesBlock(w.store, block);
  }

  lemma UpdateStaysDeep(depth: nat, s: State, outcome: Submission, note: NoteId)
    requires Deep(depth, s, note)
    ensures UpdateOutcome(s, outcome).Ok? ==> Deep(depth, UpdateOutcome(s, outcome).value, note)
  {}

  lemma LimitStaysDeep(depth: nat, s: State, n: NoteId, at: nat, response: Body, submission: Option<(Submission, Attempt)>, note: NoteId)
    requires Deep(depth, s, note)
    ensures var r := RecordLimitRejection(s, n, at, response, submission); r.Ok? ==> Deep(depth, r.value, note)
  {}

  lemma SettledStaysDeep(depth: nat, cfg: Config, now: nat, s: State, saved: Submission, attempt: Attempt, answer: Answer, note: NoteId)
    requires Deep(depth, s, note)
    ensures var r := Settle(cfg, now, s, saved, attempt, answer); r.Settled? ==> Deep(depth, r.store, note)
  {
    var got := Receive(saved, answer);
    UpdateStaysDeep(depth, s, got, note);
    if answer.Got? {
      UpdateStaysDeep(depth, s, ReadConflict(got).0, note);
      UpdateStaysDeep(depth, s, ReadResponse(got, answer.reply).0, note);
      if IsLimitRejection(cfg, answer.reply) {
        var at := RetryAt(cfg.limit.value.interval, now);
        if at.Some? { LimitStaysDeep(depth, s, saved.note, at.value, answer.reply.body, Some((got, attempt)), note); }
      }
    }
  }

  lemma ProcessStaysDeep(w: World, step: Step, note: NoteId)
    requires Enabled(w, step) && (step.Release? || step.Begin? || step.Prepare?) && Deep(w.cfg.depth, w.store, note)
    ensures Deep(w.cfg.depth, Apply(w, step).store, note)
  {}

  lemma StepStaysDeep(w: World, step: Step, note: NoteId)
    requires Inv(w) && Enabled(w, step) && Deep(w.cfg.depth, w.store, note)
    ensures Deep(w.cfg.depth, Apply(w, step).store, note)
  {
    if WritesNothing(step) {
      StoreUntouched(w, step);
    } else if step.Release? || step.Begin? || step.Prepare? {
      ProcessStaysDeep(w, step, note);
    } else {
      match step
      case SaveNext(block) => SavedStaysDeep(w, block, note);
      case ReleaseOffline(notes) => OfflineStaysDeep(w.cfg.depth, w.store, notes, note);
      case Answered(answer) =>
        SettledStaysDeep(w.cfg.depth, w.cfg, w.now, w.store, w.pc.saved, w.pc.attempt, answer, note);
    }
  }

  // ---- Only a prepared burn is signed ------------------------------------------------------------

  lemma PreparedSigns(w: World, result: Prepared, k: nat)
    requires Enabled(w, Prepare(result))
    ensures var events := FinishPrepare(w, result).store.events;
      && |w.store.events| <= |events|
      && (|w.store.events| <= k < |events| && events[k].kind == Authorized ==> events[k].note == w.pc.note)
  {}

  lemma SignsOnlyPrepared(w: World, step: Step, k: nat)
    requires Inv(w) && Enabled(w, step) && |w.store.events| <= k < |Apply(w, step).store.events|
    requires Apply(w, step).store.events[k].kind == Authorized
    ensures step.Prepare? && Apply(w, step).store.events[k].note == w.pc.note
  {
    StepLog(w, step);
    match step
    case Release(selection) => ReleaseKeeps(w.store, selection.note, selection.notAccepted);
    case ReleaseOffline(notes) => OfflineLog(w.store, notes);
    case Begin => BeginLog(w);
    case Prepare(result) => PreparedSigns(w, result, k);
    case Answered(answer) => AnswerLog(w, answer);
    case _ => {}
  }

  lemma LogStaysDeep(w: World, step: Step)
    requires Inv(w) && Enabled(w, step) && AllDeep(w)
    ensures DeepLog(w.cfg.depth, Apply(w, step).store)
  {
    StepLog(w, step);
    var s' := Apply(w, step).store;
    forall k | 0 <= k < |s'.events| && s'.events[k].kind == Authorized ensures Deep(w.cfg.depth, s', s'.events[k].note) {
      if k >= |w.store.events| { SignsOnlyPrepared(w, step, k); } else { assert s'.events[k] == w.store.events[k]; }
      StepStaysDeep(w, step, s'.events[k].note);
    }
  }

  /** The queue of the next world is the rest of this one's, or a fresh snapshot. */
  lemma QueueStaysDeep(w: World, step: Step)
    requires Inv(w) && Enabled(w, step) && AllDeep(w)
    ensures var w' := Apply(w, step);
      && (!w'.pc.Idle? ==> DeepWork(w.cfg.depth, w'.store, w'.pc.queue))
      && (w'.pc.Preparing? ==> Deep(w.cfg.depth, w'.store, w'.pc.note))
  {
    var w' := Apply(w, step);
    if step.StartCycle? {
      forall i | 0 <= i < |w'.pc.queue| && w'.pc.queue[i].Fresh? ensures Deep(w.cfg.depth, w.store, w'.pc.queue[i].note) {
        assert w'.pc.queue[i].note in step.ready;
      }
    } else {
      if step.Begin? && w.pc.queue[0].Fresh? { StepStaysDeep(w, step, w.pc.queue[0].note); }
      if !w'.pc.Idle? { RestStaysDeep(w, step); }
    }
  }

  lemma RestStaysDeep(w: World, step: Step)
    requires Inv(w) && Enabled(w, step) && AllDeep(w) && !step.StartCycle? && !Apply(w, step).pc.Idle?
    ensures DeepWork(w.cfg.depth, Apply(w, step).store, Apply(w, step).pc.queue)
  {
    var w' := Apply(w, step);
    QueueShrinks(w, step);
    forall i | 0 <= i < |w'.pc.queue| && w'.pc.queue[i].Fresh? ensures Deep(w.cfg.depth, w'.store, w'.pc.queue[i].note) {
      assert Deep(w.cfg.depth, w.store, w'.pc.queue[i].note);
      StepStaysDeep(w, step, w'.pc.queue[i].note);
    }
  }

  lemma QueueShrinks(w: World, step: Step)
    requires Enabled(w, step) && !step.StartCycle? && !Apply(w, step).pc.Idle?
    ensures !w.pc.Idle?
    ensures Apply(w, step).pc.queue == w.pc.queue || (|w.pc.queue| > 0 && Apply(w, step).pc.queue == w.pc.queue[1..])
  {}

  lemma {:induction false} RunStaysDeep(run: seq<World>, i: nat)
    requires IsRun(run) && i < |run|
    ensures AllDeep(run[i])
  {
    if i > 0 {
      RunStaysDeep(run, i - 1);
      RunKeeps(run, i - 1);
      var step := StepTaken(run, i - 1);
      LogStaysDeep(run[i - 1], step);
      QueueStaysDeep(run[i - 1], step);
      StepKeepsConfig(run[i - 1], step);
    }
  }

  lemma StepKeepsConfig(w: World, step: Step)
    requires Enabled(w, step)
    ensures Apply(w, step).cfg == w.cfg
  {}

  /** In every run, every burn that was ever authorized, or is being prepared, was consumed at least
      the configured depth below the verified checkpoint. */
  lemma SignedAtDepth(run: seq<World>, i: nat, k: nat)
    requires IsRun(run) && i < |run|
    ensures var w := run[i];
      && (w.pc.Preparing? ==> Deep(w.cfg.depth, w.store, w.pc.note))
      && (k < |w.store.events| && w.store.events[k].kind == Authorized ==> Deep(w.cfg.depth, w.store, w.store.events[k].note))
  {
    RunStaysDeep(run, i);
  }
}
