/** The attester's cycle as it runs, one store transaction and one Circle request at a time, proved to
    take only steps of the attester's state machine
    (crates/xusdc-light-attester/src/attester.rs and submission.rs). */
module Attester {
  import opened Basics
  import opened Submission
  import opened StoreSpec
  import opened StoreInvariant
  import opened StoreReads
  import opened Discovery
  import opened Machine
  import opened MachineInvariant
  import opened MachineAnswers
  import opened Store
  import SavedSubmission
  import Gate
  import Signing

  const ADMIN_COMMANDS_PER_CHECKPOINT: nat := 8

  /** How preparing a burn's withdrawal can fail before anything is signed. */
  datatype WithdrawError = PrepareStatus(reply: Reply) | RateLimitedPrepare | TooSmall | OtherFailure

  /** The hold that such a failure puts on its burn, and its evidence. */
  function BurnHoldFor(error: WithdrawError): (Option<BurnHold>, Option<Reply>) {
    match error
    case PrepareStatus(reply) => if reply.http == 400 then (Some(PrepareRejected), Some(reply)) else (None, None)
    case TooSmall => (Some(TooSmallToForward), None)
    case _ => (None, None)
  }

  datatype DiscoverEnd = Scanned(proofLag: nat) | ChainUnavailable | ChainDiverged | StoreFailure

  function Resumes(list: seq<Submission>): seq<Item> {
    seq(|list|, i requires 0 <= i < |list| => Resume(list[i]))
  }

  /** At world `k` of the run a cycle's work begins. */
  predicate StartsCycle(run: seq<World>, k: nat) {
    0 < k < |run| && run[k - 1].pc.Idle? && run[k].pc.Working?
  }

  /** Work begins only with a snapshot of the store as it stands. */
  lemma WorkBeginsWithASnapshot(run: seq<World>, k: nat)
    returns (proofLag: Option<nat>, recover: seq<NoteId>, ready: seq<NoteId>, poll: seq<NoteId>)
    requires IsRun(run) && StartsCycle(run, k)
    ensures var s := run[k - 1].store;
      && IsSnapshot(run[k].cfg, s, proofLag, recover, ready, poll) && run[k].store == s
      && run[k].pc == Working(ResumeAll(s, recover) + FreshAll(ready) + ResumeAll(s, poll))
  {
    var step := StepTaken(run, k - 1);
    proofLag, recover, ready, poll := step.proofLag, step.recover, step.ready, step.poll;
  }

  // ---- What happened in a stretch of a run -------------------------------------------------------

  /** World `t` waits for Circle's answer about this submission: a lookup when its ID is known. */
  predicate AskedAt(run: seq<World>, t: int, saved: Submission) {
    0 <= t < |run| && run[t].pc.Awaiting? && run[t].pc.saved == saved
  }

  /** At world `t` the limit queue refuses the next item, which is this burn's. */
  ghost predicate HeldBackAt(run: seq<World>, t: int, note: NoteId) {
    && 0 <= t < |run| && run[t].pc.Working? && |run[t].pc.queue| > 0
    && NoteOf(run[t].pc.queue[0]) == note && !IsLookup(run[t].pc.queue[0])
    && LimitAllows(run[t].cfg, run[t].store, run[t].now, note).Blocked?
  }

  predicate PreparedAt(run: seq<World>, t: int, note: NoteId) {
    0 <= t < |run| && run[t].pc.Preparing? && run[t].pc.note == note
  }

  ghost predicate HeldBack(run: seq<World>, from: nat, note: NoteId) {
    exists t :: from <= t && HeldBackAt(run, t, note)
  }

  ghost predicate Attempted(run: seq<World>, from: nat, note: NoteId) {
    exists t :: from <= t && PreparedAt(run, t, note)
  }

  ghost predicate Asked(run: seq<World>, from: nat, saved: Submission) {
    exists t :: from <= t && AskedAt(run, t, saved)
  }

  /** Since world `from`, Circle was asked about the submission, or, its ID being unknown, the limit queue
      refused it. */
  ghost predicate Tended(run: seq<World>, from: nat, saved: Submission) {
    Asked(run, from, saved) || (saved.id.None? && HeldBack(run, from, saved.note))
  }

  lemma StaysTended(run: seq<World>, later: seq<World>, from: nat, since: nat, saved: Submission)
    requires run <= later && from <= since && Tended(run, since, saved)
    ensures Tended(later, from, saved)
  {
    if Asked(run, since, saved) {
      var t :| since <= t && AskedAt(run, t, saved);
      assert AskedAt(later, t, saved);
    } else {
      StaysHeldBack(run, later, from, since, saved.note);
    }
  }

  lemma StaysAllTended(run: seq<World>, later: seq<World>, from: nat, list: seq<Submission>, limited: bool)
    requires run <= later && (!limited ==> forall k :: 0 <= k < |list| ==> Tended(run, from, list[k]))
    ensures !limited ==> forall k :: 0 <= k < |list| ==> Tended(later, from, list[k])
  {
    forall k | !limited && 0 <= k < |list| ensures Tended(later, from, list[k]) {
      StaysTended(run, later, from, from, list[k]);
    }
  }

  lemma StaysHeldBack(run: seq<World>, later: seq<World>, from: nat, since: nat, note: NoteId)
    requires run <= later && from <= since && HeldBack(run, since, note)
    ensures HeldBack(later, from, note)
  {
    var t :| since <= t && HeldBackAt(run, t, note);
    assert HeldBackAt(later, t, note);
  }

  lemma StaysAttempted(run: seq<World>, later: seq<World>, from: nat, since: nat, note: NoteId)
    requires run <= later && from <= since && Attempted(run, since, note)
    ensures Attempted(later, from, note)
  {
    var t :| since <= t && PreparedAt(run, t, note);
    assert PreparedAt(later, t, note);
  }

  lemma StaysAllAttempted(run: seq<World>, later: seq<World>, from: nat, notes: seq<NoteId>)
    requires run <= later && forall k :: 0 <= k < |notes| ==> Attempted(run, from, notes[k])
    ensures forall k :: 0 <= k < |notes| ==> Attempted(later, from, notes[k])
  {
    forall k | 0 <= k < |notes| ensures Attempted(later, from, notes[k]) {
      StaysAttempted(run, later, from, from, notes[k]);
    }
  }

  lemma ExtendsRun(run: seq<World>, step: Step)
    requires IsRun(run) && Enabled(run[|run| - 1], step)
    ensures IsRun(run + [Apply(run[|run| - 1], step)])
  {
    var longer := run + [Apply(run[|run| - 1], step)];
    forall i: nat ensures StepAt(longer, i) {
      if i + 1 < |run| {
        assert StepAt(run, i);
        assert Next(run[i], run[i + 1]);
        assert longer[i] == run[i] && longer[i + 1] == run[i + 1];
      } else if i + 1 == |run| {
        assert Next(longer[i], longer[i + 1]);
      }
    }
  }

  /** Crash safety: wherever a run is cut by a crash, what happened so far is a run. */
  lemma CrashAnywhere(run: seq<World>, n: nat)
    requires IsRun(run) && 0 < n <= |run|
    ensures IsRun(run[..n]) && IsRun(run[..n] + [run[n - 1].(pc := Idle)])
  {
    var cut := run[..n];
    forall i: nat ensures StepAt(cut, i) {
      assert StepAt(run, i);
      assert i + 1 < n ==> cut[i] == run[i] && cut[i + 1] == run[i + 1];
    }
    ExtendsRun(cut, Crash);
  }

  /** The burn that waits first is unique, so the store's answer is the machine's. */
  lemma FirstWaitIs(s: State, note: NoteId)
    requires IsFirstWait(s, note)
    ensures FirstWait(s) == Some(note)
  {
    var other := FirstWait(s).value;
    assert other != note ==> Before(s, note, other) && Before(s, other, note);
  }

  /** The process, with Circle and the clock beside it. `run` is everything that has happened; a crash
      may cut it anywhere, since a run cut short and ended by a crash is a run. */
  class Process {
    const cfg: Config
    const gate: Signing.Signer
    ghost const passed: (NoteId, Request) -> bool
    const store: AttesterStore
    var circle: Circle
    var clock: nat
    var rateLimited: bool
    ghost var run: seq<World>

    ghost function Now(): World
      requires |run| > 0
      reads this
    {
      run[|run| - 1]
    }

    /** The run's last world is the present one, but for the store. */
    ghost predicate Current() reads this {
      && IsRun(run) && Now().cfg == cfg && Now().passed == passed
      && Now().circle == circle && Now().now == clock
    }

    /** What the run may sign is what the gate passes. */
    ghost predicate GateKept() {
      passed == Signing.PassedBy(gate)
    }

    ghost predicate Valid() reads this, store {
      Current() && Now().store == store.View()
    }

    constructor (config: Config, signer: Signing.Signer, anchor: nat)
      ensures Valid() && GateKept() && fresh(store) && Now().pc.Idle?
    {
      cfg, gate, passed := config, signer, Signing.PassedBy(signer);
      store := new AttesterStore(anchor);
      circle := Circle(map[], map[], 0);
      clock, rateLimited := 0, false;
      run := [World(config, Signing.PassedBy(signer), State(anchor, map[], map[], [], None), Idle, Circle(map[], map[], 0), 0, [], map[])];
    }

    ghost method Take(step: Step)
      requires IsRun(run) && Enabled(Now(), step)
      modifies this`run
      ensures IsRun(run) && run == old(run) + [Apply(old(Now()), step)]
    {
      ExtendsRun(run, step);
      run := run + [Apply(Now(), step)];
    }

    // ---- The world outside -----------------------------------------------------------------------

    /** Time passes, and Circle decides what it likes about the requests it has. */
    method Elapse()
      requires Valid()
      modifies this`circle, this`clock, this`run
      ensures Valid() && old(run) < run && clock >= old(clock)
      ensures Now() == old(Now()).(circle := circle, now := clock)
    {
      var reading: nat := *;
      if reading > clock { clock := reading; }
      Take(Tick(clock));
      var rounds: nat := *;
      while rounds > 0
        invariant Valid() && old(run) < run && clock >= old(clock) && Now() == old(Now()).(circle := circle, now := clock)
      {
        CircleDecides();
        CircleProgresses();
        rounds := rounds - 1;
      }
    }

    method CircleDecides()
      requires Valid()
      modifies this`circle, this`run
      ensures Valid() && old(run) <= run && Now() == old(Now()).(circle := circle)
    {
      var copy: nat, accepts: bool := *, *;
      if copy in circle.flight && !accepts {
        circle := circle.(flight := circle.flight - {copy});
        Take(Drop(copy));
      } else if copy in circle.flight && circle.flight[copy] !in circle.fate {
        circle := circle.(fate := circle.fate[circle.flight[copy] := InProgress], flight := circle.flight - {copy});
        Take(Accept(copy));
      }
    }

    method CircleProgresses()
      requires Valid()
      modifies this`circle, this`run
      ensures Valid() && old(run) <= run && Now() == old(Now()).(circle := circle)
    {
      var auth: Auth, fate: Fate := *, *;
      if auth in circle.fate && circle.fate[auth] in {InProgress, Refused} {
        circle := circle.(fate := circle.fate[auth := fate]);
        Take(Machine.Progress(auth, fate));
      }
    }

    /** Handles the operator's queued commands, at most so many. A claim that is not true is outside
        this model. */
    method AdminCheckpoint()
      requires Valid() && (Now().pc.Idle? || Now().pc.Working?)
      modifies this`run, store
      ensures Valid() && old(run) <= run
      ensures Now() == old(Now()).(store := store.View()) && store.checkpoint == old(store.checkpoint)
    {
      var handled := 0;
      while handled < ADMIN_COMMANDS_PER_CHECKPOINT
        invariant Valid() && old(run) <= run
        invariant Now() == old(Now()).(store := store.View()) && store.checkpoint == old(store.checkpoint)
      {
        var queued: bool, selection: Selection := *, *;
        if !queued { break; }
        handled := handled + 1;
        if selection.notAccepted && !ClaimTrue(circle, store.View(), selection.note) { continue; }
        var released := store.ReleaseChecked(selection);
        if released.Ok? { Take(Release(selection)); }
      }
    }

    /** One page of the holds, and the cursor of the next page, if one follows. */
    method ListHolds(after: Option<NoteId>) returns (r: Result<Page, StoreError>)
      ensures r.Ok? ==> r.value == PageAfter(store.View(), Sorted(HeldNotes(store.View())), after)
      ensures WellKept(store.View()) ==> r.Ok?
    {
      var holds := store.HoldsPage(after);
      if WellKept(store.View()) { AllRevised(store.View(), Sorted(HeldNotes(store.View())), after); }
      if holds.Err? { return Err(holds.error); }
      if |holds.value| > HOLDS_PAGE {
        r := Ok(Page(holds.value[..HOLDS_PAGE], Some(holds.value[HOLDS_PAGE - 1].note)));
      } else {
        r := Ok(Page(holds.value, None));
      }
    }

    /** The offline command, run while the attester is not. When what it says about Circle is true, it is
        a step of the machine. */
    method ReleaseOffline(notes: seq<NoteId>) returns (r: Result<(nat, nat), ReleaseError>)
      requires Valid() && Now().pc.Idle?
      modifies this`run, store
      ensures Releases(StoreSpec.ReleaseHolds(old(store.View()), Sorted(set n | n in notes)), old(store.View()), r, store.View())
      ensures (forall n :: n in notes ==> ClaimTrue(circle, old(store.View()), n)) ==> Valid() && Now().pc.Idle?
      ensures old(run) <= run && Current()
    {
      ghost var claims := forall n :: n in notes ==> ClaimTrue(circle, store.View(), n);
      r := store.ReleaseHolds(notes);
      ghost var named := Sorted(set n | n in notes);
      assert forall i :: 0 <= i < |named| ==> named[i] in named;
      if claims && r.Ok? { Take(Machine.ReleaseOffline(named)); }
    }

    /** Sends a saved request, or looks its ID up, and waits for what comes back. */
    method SendSavedRequest(saved: Submission, ghost attempt: Attempt, ghost rest: seq<Item>)
      returns (answer: Answer, copy: nat)
      requires Valid() && Now().pc == Sending(saved, attempt, rest)
      modifies this
      ensures Valid() && old(run) < run && Now().pc == Awaiting(saved, attempt, copy, rest)
      ensures LegalAnswer(circle, saved, copy, answer) && store.View() == old(store.View())
      ensures old(rateLimited) ==> rateLimited
    {
      copy := circle.sent;
      var sent := if saved.id.Some? then circle
        else circle.(flight := circle.flight[copy := Auth(saved.note, saved.request.hash)]);
      circle := sent.(sent := copy + 1);
      Take(Send);
      Elapse();
      answer := *;
      if !LegalAnswer(circle, saved, copy, answer) { answer := Lost("the answer is lost"); }
      if answer.Got? && answer.reply.http == 429 { rateLimited := true; }
    }

    // ---- Saved submissions -----------------------------------------------------------------------

    /** Interprets the answer to a request and saves the outcome. */
    method RecordAnswer(saved: Submission, attempt: Attempt, answer: Answer) returns (stored: bool, again: Option<Submission>)
      modifies store
      ensures match Settle(cfg, clock, old(store.View()), saved, attempt, answer)
        case Ended => !stored && store.View() == old(store.View())
        case Settled(s, next) => stored && store.View() == s && again == next
    {
      var live := new SavedSubmission.Saved(saved);
      live.Receive(answer);
      var r: Result<(), StoreError>;
      again := None;
      if saved.id.None? && answer.Got? && IsLimitRejection(cfg, answer.reply) {
        var at := RetryAt(cfg.limit.value.interval, clock);
        if at.None? { return false, None; }
        r := store.RecordLimitRejection(saved.note, at.value, answer.reply.body, Some((live.Value(), attempt)));
      } else if saved.id.None? && answer.Got? && answer.reply.http == 409 {
        var failure := live.ReadConflict();
        r := store.UpdateSubmissionOutcome(live.Value());
        again := if failure.None? then Some(live.Value()) else None;
      } else {
        if answer.Got? { var _ := live.ReadResponse(answer.reply); }
        r := store.UpdateSubmissionOutcome(live.Value());
      }
      stored := r.Ok?;
    }

    /** Saves the answer to a request and takes the step it amounts to. */
    method SaveAnswer(saved: Submission, attempt: Attempt, ghost rest: seq<Item>, answer: Answer, copy: nat)
      returns (stored: bool, again: Option<Submission>)
      requires Valid() && Now().pc == Awaiting(saved, attempt, copy, rest) && LegalAnswer(circle, saved, copy, answer)
      modifies this`circle, this`run, store
      ensures Valid() && old(run) <= run
      ensures !stored ==> Now().pc.Idle?
      ensures stored && again.None? ==> Now().pc == Working(rest)
      ensures stored && again.Some? ==> Now().pc == Sending(again.value, attempt, rest)
      ensures stored && saved.id.Some? ==> again.None?
      ensures stored && again.Some? ==> again.value.id.Some?
    {
      stored, again := RecordAnswer(saved, attempt, answer);
      Take(Answered(answer));
      if saved.id.None? && answer.Got? && answer.reply.http == 400 {
        circle := circle.(flight := circle.flight - {copy});
      }
    }

    /** Sends the saved request, or checks it once Circle's ID is known, and saves the answer. A 409
        that gives the ID is followed by a check with it. */
    method AdvanceSubmission(saved: Submission, attempt: Attempt, ghost rest: seq<Item>) returns (stored: bool)
      requires Valid() && Now().pc == Sending(saved, attempt, rest)
      modifies this, store
      ensures Valid() && old(run) <= run && (old(rateLimited) ==> rateLimited)
      ensures !old(rateLimited) ==> Asked(run, |old(run)|, saved)
      ensures if stored then Now().pc == Working(rest) else Now().pc.Idle?
    {
      if rateLimited {
        Take(Leave);
        return true;
      }
      var answer, copy := SendSavedRequest(saved, attempt, rest);
      ghost var asked := |run| - 1;
      assert AskedAt(run, asked, saved);
      var again;
      stored, again := SaveAnswer(saved, attempt, rest, answer, copy);
      if stored && again.Some? {
        var named := again.value;
        answer, copy := SendSavedRequest(named, attempt, rest);
        stored, again := SaveAnswer(named, attempt, rest, answer, copy);
        assert stored ==> again.None?;
      }
      assert AskedAt(run, asked, saved);
    }

    /** Whether the limit queue lets the burn try now; `None` stops the cycle. */
    method AllowedByLimit(note: NoteId) returns (allowed: Option<bool>)
      requires Current()
      modifies store
      ensures match LimitAllows(cfg, old(store.View()), clock, note)
        case Allowed(s) => allowed == Some(true) && store.View() == s
        case Blocked => allowed == Some(false) && store.View() == old(store.View())
        case Stopped => allowed == None && store.View() == old(store.View())
    {
      var wait := store.FirstLimitWait();
      FirstWaitExists(store.View());
      if wait.None? { return Some(true); }
      FirstWaitIs(store.View(), wait.value);
      if wait.value != note {
        if note !in store.burns { return None; }
        return Some(Before(store.View(), note, wait.value));
      }
      if clock / NANOS < store.burns[note].retryAt.value { return Some(false); }
      if cfg.limit.None? { return None; }
      var at := RetryAt(cfg.limit.value.interval, clock);
      if at.None? { return None; }
      var r := store.AdvanceLimitRetry(note, at.value);
      allowed := if r.Ok? then Some(true) else None;
    }

    /** Leaves the rest of a listing for the next cycle. */
    ghost method SkipAll(items: seq<Item>, rest: seq<Item>)
      requires Valid() && Now().pc == Working(items + rest)
      modifies this`run
      ensures Valid() && old(run) <= run && Now().pc == Working(rest)
      decreases |items|
    {
      if |items| > 0 {
        assert (items + rest)[1..] == items[1..] + rest;
        Take(Skip);
        SkipAll(items[1..], rest);
      } else {
        assert items + rest == rest;
      }
    }

    /** Tries each saved request once, until Circle answers 429. Without one, Circle was asked about every
        listed submission but those without an ID that the limit queue refused. */
    method AdvanceSubmissions(list: seq<Submission>, ghost rest: seq<Item>) returns (stored: bool)
      requires Valid() && Now().pc == Working(Resumes(list) + rest)
      modifies this, store
      ensures Valid() && old(run) <= run && (old(rateLimited) ==> rateLimited)
      ensures if stored then Now().pc == Working(rest) else Now().pc.Idle?
      ensures stored && !rateLimited ==> forall i :: 0 <= i < |list| ==> Tended(run, |old(run)|, list[i])
    {
      for i := 0 to |list|
        invariant Valid() && old(run) <= run && Now().pc == Working(Resumes(list[i..]) + rest)
        invariant old(rateLimited) ==> rateLimited
        invariant !rateLimited ==> forall k :: 0 <= k < i ==> Tended(run, |old(run)|, list[k])
      {
        ghost var begun := run;
        AdminCheckpoint();
        if rateLimited {
          SkipAll(Resumes(list[i..]), rest);
          return true;
        }
        ghost var later := Resumes(list[i + 1..]) + rest;
        assert Now().pc.queue[0] == Resume(list[i]) && Now().pc.queue[1..] == later;
        ghost var since := |run|;
        stored := AdvanceOne(list[i], later);
        if !stored { return; }
        StaysAllTended(begun, run, |old(run)|, list[..i], rateLimited);
        if !rateLimited { StaysTended(run, run, |old(run)|, since, list[i]); }
      }
      assert Resumes(list[|list|..]) + rest == rest;
      stored := true;
    }

    /** Tries one saved request, if the limit queue does not hold it back. */
    method AdvanceOne(saved: Submission, ghost rest: seq<Item>) returns (stored: bool)
      requires Valid() && Now().pc.Working? && Now().pc.queue == [Resume(saved)] + rest
      modifies this, store
      ensures Valid() && old(run) <= run && (old(rateLimited) ==> rateLimited)
      ensures if stored then Now().pc == Working(rest) else Now().pc.Idle?
      ensures stored && !old(rateLimited) ==> Tended(run, |old(run)|, saved)
    {
      assert Now().pc.queue[1..] == rest;
      if saved.id.None? {
        Elapse();
        ghost var asking := |run| - 1;
        var allowed := AllowedByLimit(saved.note);
        if allowed.None? {
          Take(EndCycle);
          return false;
        }
        if !allowed.value {
          assert HeldBackAt(run, asking, saved.note);
          Take(Skip);
          assert HeldBackAt(run, asking, saved.note);
          return true;
        }
      }
      Take(Begin);
      stored := AdvanceSubmission(saved, Recovery, rest);
    }

    // ---- New withdrawals -------------------------------------------------------------------------

    /** Prepares, verifies, signs and submits one burn's withdrawal. Only what the gate passed for this
        burn is signed. */
    method AttemptWithdrawal(note: NoteId, ghost rest: seq<Item>) returns (stored: bool)
      requires Valid() && GateKept() && Now().pc == Preparing(note, rest)
      modifies this, store
      ensures Valid() && old(run) <= run
      ensures if stored then Now().pc == Working(rest) else Now().pc.Idle?
    {
      Elapse();
      var offered: bool, response: seq<Gate.Batch>, refusal: WithdrawError := *, *, *;
      var error := OtherFailure;
      if Gate.ForwardingMaxFee(gate.cfg, gate.burnOf(note).domain).Some? {
        if offered {
          var endpoint: Endpoint, body: string, signed: bool := *, *, *;
          var checked := Signing.CheckedByGate(gate, note, response, endpoint, body);
          if checked.Ok? && signed {
            stored := SubmitSigned(note, checked.value, rest);
            return;
          }
          if checked == Err(Gate.TooSmallToForward) { error := TooSmall; }
        } else if refusal.PrepareStatus? || refusal.RateLimitedPrepare? {
          error := refusal;
        }
      }
      if error.RateLimitedPrepare? { rateLimited := true; }
      stored := SettleFailure(note, error, rest);
    }

    /** A failure that calls for a wait or a hold leaves it in the store, and any other nothing. */
    method SettleFailure(note: NoteId, error: WithdrawError, ghost rest: seq<Item>) returns (stored: bool)
      requires Valid() && Now().pc == Preparing(note, rest)
      modifies this`run, store
      ensures Valid() && old(run) <= run
      ensures if stored then Now().pc == Working(rest) else Now().pc.Idle?
      ensures stored ==> var refused := error.PrepareStatus? && error.reply.http == 400;
        if refused && IsLimitRejection(cfg, error.reply) then Waits(store.View(), note)
        else if refused then HoldOf(store.View(), note) == OfBurn(PrepareRejected)
        else if error.TooSmall? then HoldOf(store.View(), note) == OfBurn(TooSmallToForward)
        else store.View() == old(store.View())
    {
      var r: Result<(), StoreError> := Ok(());
      if error.PrepareStatus? && IsLimitRejection(cfg, error.reply) {
        var at := RetryAt(cfg.limit.value.interval, clock);
        if at.Some? { r := store.RecordLimitRejection(note, at.value, error.reply.body, None); }
        Take(Prepare(Machine.Limited(error.reply)));
        return at.Some? && r.Ok?;
      }
      var (hold, evidence) := BurnHoldFor(error);
      if hold.None? {
        Take(Prepare(TryLater));
        return true;
      }
      r := store.HoldBurn(note, hold.value, evidence);
      Take(Prepare(HoldIt(hold.value, evidence)));
      stored := r.Ok?;
    }

    /** Saves the signed request before it is sent, then sends it for the first time. */
    method SubmitSigned(note: NoteId, request: Request, ghost rest: seq<Item>) returns (stored: bool)
      requires Valid() && Now().pc == Preparing(note, rest) && passed(note, request)
      modifies this, store
      ensures Valid() && old(run) <= run
      ensures if stored then Now().pc == Working(rest) else Now().pc.Idle?
    {
      var saved := NewSubmission(note, request);
      var r := store.SaveSubmission(saved);
      Take(Prepare(Signed(request)));
      if r.Err? { return false; }
      stored := AdvanceSubmission(saved, First, rest);
    }

    /** Withdraws the ready burns in order, until the limit queue refuses one or Circle answers 429. Without
        a 429, the first `n` were attempted and the next one, if any, was refused. */
    method SubmitWithdrawals(burns: seq<NoteId>, ghost rest: seq<Item>) returns (stored: bool, n: nat)
      requires Valid() && GateKept() && Now().pc == Working(FreshAll(burns) + rest)
      modifies this, store
      ensures Valid() && old(run) <= run && n <= |burns|
      ensures if stored then Now().pc == Working(rest) else Now().pc.Idle?
      ensures stored ==> forall i :: 0 <= i < n ==> Attempted(run, |old(run)|, burns[i])
      ensures stored && !rateLimited && n < |burns| ==> HeldBack(run, |old(run)|, burns[n])
    {
      n := 0;
      while n < |burns|
        invariant n <= |burns| && Valid() && old(run) <= run && Now().pc == Working(FreshAll(burns[n..]) + rest)
        invariant forall i :: 0 <= i < n ==> Attempted(run, |old(run)|, burns[i])
      {
        ghost var begun, since := run, |run|;
        ghost var later := FreshAll(burns[n + 1..]) + rest;
        assert FreshAll(burns[n..]) + rest == [Fresh(burns[n])] + later;
        var tried := false;
        stored, tried := WithdrawOne(burns[n], later);
        if !stored { return; }
        StaysAllAttempted(begun, run, |old(run)|, burns[..n]);
        if !tried {
          ghost var refused := run;
          SkipAll(FreshAll(burns[n..]), rest);
          StaysAllAttempted(refused, run, |old(run)|, burns[..n]);
          if !rateLimited { StaysHeldBack(refused, run, |old(run)|, since, burns[n]); }
          return;
        }
        StaysAttempted(run, run, |old(run)|, since, burns[n]);
        n := n + 1;
      }
      assert FreshAll(burns[|burns|..]) + rest == rest;
      stored := true;
    }

    /** Withdraws one burn, unless Circle is left alone or the limit queue refuses it. */
    method WithdrawOne(note: NoteId, ghost rest: seq<Item>) returns (stored: bool, tried: bool)
      requires Valid() && GateKept() && Now().pc == Working([Fresh(note)] + rest)
      modifies this, store
      ensures Valid() && old(run) <= run
      ensures !stored ==> Now().pc.Idle?
      ensures stored && !tried ==> Now().pc == Working([Fresh(note)] + rest)
      ensures stored && !tried && !rateLimited ==> HeldBack(run, |old(run)|, note)
      ensures stored && tried ==> Now().pc == Working(rest) && Attempted(run, |old(run)|, note)
    {
      AdminCheckpoint();
      if rateLimited { return true, false; }
      Elapse();
      assert ([Fresh(note)] + rest)[1..] == rest;
      var allowed := AllowedByLimit(note);
      if allowed.None? {
        Take(EndCycle);
        return false, false;
      }
      if !allowed.value {
        assert HeldBackAt(run, |run| - 1, note);
        return true, false;
      }
      Take(Begin);
      ghost var preparing := |run| - 1;
      assert PreparedAt(run, preparing, note);
      stored := AttemptWithdrawal(note, rest);
      assert PreparedAt(run, preparing, note);
      tried := true;
    }

    // ---- Discovery -------------------------------------------------------------------------------

    /** The block's new burn notes, and the saved notes its faucet transactions consume. */
    method FindBurnsInBlock(block: Block) returns (candidates: seq<Note>, found: seq<Discovered>)
      requires DistinctNullifiers(store.burns)
      ensures candidates == NewCandidates(store.burns, block.notes)
      ensures found == Consumed(store.burns, block.spends, block.num)
    {
      candidates := [];
      for i := 0 to |block.notes|
        invariant candidates == NewCandidates(store.burns, block.notes[..i])
      {
        var note := block.notes[i];
        assert block.notes[..i + 1][..i] == block.notes[..i];
        if note.burn && note.id !in store.burns { candidates := candidates + [note]; }
      }
      assert block.notes[..|block.notes|] == block.notes;
      found := [];
      for i := 0 to |block.spends|
        invariant found == Consumed(store.burns, block.spends[..i], block.num)
      {
        assert block.spends[..i + 1][..i] == block.spends[..i];
        var id := store.CandidateByNullifier(block.spends[i]);
        if id.Some? {
          var burn := store.burns[id.value];
          found := found + [Discovered(id.value, burn.nullifier, burn.created, block.num)];
        }
      }
      assert block.spends[..|block.spends|] == block.spends;
    }

    /** Records one authenticated block in a single transaction. */
    method SaveBlock(block: Block) returns (saved: bool)
      requires Valid() && Now().pc.Idle? && block.num == store.anchor + |Now().chain|
      modifies this`run, store
      ensures Valid() && old(run) <= run && Now().pc.Idle?
      ensures saved ==> Now().chain == old(Now().chain) + [block]
      ensures !saved ==> Now() == old(Now())
    {
      RunKeeps(run, |run| - 1);
      var candidates, found := FindBurnsInBlock(block);
      var r := store.SaveScanProgress(candidates, found, block.num);
      saved := r.Ok?;
      if saved { Take(SaveNext(block)); }
    }

    /** A new store starts from the pinned anchor: the first block scanned and the first checkpoint. */
    method Startup(block: Block) returns (saved: bool)
      requires Valid() && Now().pc.Idle? && block.num == store.anchor
      modifies this`run, store
      ensures Valid() && old(run) <= run && Now().pc.Idle?
      ensures saved ==> store.checkpoint.Some?
    {
      RunKeeps(run, |run| - 1);
      saved := store.checkpoint.Some?;
      if !saved {
        saved := SaveBlock(block);
        RunKeeps(run, |run| - 1);
      }
    }

    /** Authenticates the blocks since the checkpoint, each in its own transaction. When it succeeds,
        every block the node reported has been, except where the node is short of the anchor. */
    method DiscoverBurns() returns (end: DiscoverEnd, tip: nat)
      requires Valid() && Now().pc.Idle?
      modifies this, store
      ensures Valid() && old(run) <= run && Now().pc.Idle?
      ensures old(store.checkpoint).Some? ==> store.checkpoint.Some? && old(store.checkpoint).value <= store.checkpoint.value
      ensures end.Scanned? ==> store.checkpoint.Some? && tip <= store.checkpoint.value
      ensures end.Scanned? && tip < store.checkpoint.value ==> store.checkpoint == Some(store.anchor)
    {
      tip := 0;
      if store.checkpoint.None? { return StoreFailure, tip; }
      var answered: bool, height: nat, proofLag: nat := *, *, *;
      if height > 0 { tip := height; }
      if !answered { return ChainUnavailable, tip; }
      var verified := store.checkpoint.value;
      if tip < verified {
        return (if verified == store.anchor then Scanned(proofLag) else ChainDiverged), tip;
      }
      if tip == verified {
        var read: bool, same: bool := *, *;
        return (if !read then ChainUnavailable else if same then Scanned(proofLag) else ChainDiverged), tip;
      }
      for num := verified + 1 to tip + 1
        invariant Valid() && old(run) <= run && Now().pc.Idle? && store.checkpoint == Some(num - 1)
      {
        AdminCheckpoint();
        RunKeeps(run, |run| - 1);
        var read: bool, block: Block, authentic: bool := *, *, *;
        if !read { return ChainUnavailable, tip; }
        if block.num != num || !authentic { return ChainDiverged, tip; }
        var saved := SaveBlock(block);
        if !saved { return StoreFailure, tip; }
        RunKeeps(run, |run| - 1);
      }
      end := Scanned(proofLag);
    }

    // ---- The cycle -------------------------------------------------------------------------------

    /** One cycle: discover, snapshot, recover, submit, poll. Whatever happens in it is a run of the
        machine, so every theorem about runs holds of it. */
    method Cycle() returns (finished: bool)
      requires Valid() && GateKept() && Now().pc.Idle?
      modifies this, store
      ensures Valid() && old(run) <= run && Now().pc.Idle?
      ensures finished ==> exists k :: |old(run)| <= k < |run| && StartsCycle(run, k)
      ensures finished ==> |run| > 1 && run[|run| - 2].pc == Working([])
    {
      rateLimited := false;
      var discovered, _ := DiscoverBurns();
      if discovered.ChainDiverged? || discovered.StoreFailure? { return false; }
      var loaded, recover, ready, poll := TakeSnapshot(if discovered.Scanned? then Some(discovered.proofLag) else None);
      if !loaded { return false; }
      ghost var snapshotted := run;
      finished := WorkThrough(recover, ready, poll);
      assert run[..|snapshotted|] == snapshotted && StartsCycle(run, |snapshotted| - 1);
    }

    /** Loads the work of a cycle before anything changes its status; new burns only when discovery
        gave a height to bound them. */
    method TakeSnapshot(proofLag: Option<nat>)
      returns (loaded: bool, recover: seq<Submission>, ready: seq<NoteId>, poll: seq<Submission>)
      requires Valid() && Now().pc.Idle?
      modifies this`run
      ensures Valid() && old(run) <= run
      ensures !loaded ==> Now().pc.Idle?
      ensures loaded ==> Now().pc == Working(Resumes(recover) + FreshAll(ready) + Resumes(poll))
      ensures loaded ==> |run| == |old(run)| + 1 && StartsCycle(run, |run| - 1)
    {
      recover, ready, poll := [], [], [];
      var sending := store.SubmissionsWith(Submitting);
      var accepted := store.SubmissionsWith(Submitted);
      if sending.Err? || accepted.Err? { return false, [], [], []; }
      recover, poll := sending.value, accepted.value;
      if proofLag.Some? { ready := store.BurnsReady(proofLag.value, cfg.depth); }
      ghost var s := store.View();
      ghost var recoverNotes, pollNotes := Sorted(WithStatus(s, Submitting)), Sorted(WithStatus(s, Submitted));
      Snapshot(cfg, s, proofLag, recoverNotes, ready, pollNotes);
      Take(StartCycle(proofLag, recoverNotes, ready, pollNotes));
      assert ResumeAll(s, recoverNotes) == Resumes(recover);
      assert ResumeAll(s, pollNotes) == Resumes(poll);
      loaded := true;
    }

    method WorkThrough(recover: seq<Submission>, ready: seq<NoteId>, poll: seq<Submission>) returns (finished: bool)
      requires Valid() && GateKept() && Now().pc == Working(Resumes(recover) + FreshAll(ready) + Resumes(poll))
      modifies this, store
      ensures Valid() && old(run) <= run && Now().pc.Idle?
      ensures finished ==> |run| > 1 && run[|run| - 2].pc == Working([])
    {
      assert Resumes(recover) + FreshAll(ready) + Resumes(poll) == Resumes(recover) + (FreshAll(ready) + Resumes(poll));
      finished := AdvanceSubmissions(recover, FreshAll(ready) + Resumes(poll));
      if !finished { return; }
      var attempted: nat;
      finished, attempted := SubmitWithdrawals(ready, Resumes(poll));
      if !finished { return; }
      assert Resumes(poll) + [] == Resumes(poll);
      finished := AdvanceSubmissions(poll, []);
      if finished { Take(EndCycle); }
    }
  }

  /** In a well-kept store every listed hold has a revision. */
  lemma AllRevised(s: State, notes: seq<NoteId>, after: Option<NoteId>)
    requires WellKept(s) && IsAscending(notes, HeldNotes(s))
    ensures forall i :: 0 <= i < |Rows(s, After(notes, after))| ==> Rows(s, After(notes, after))[i].revision.Some?
  {
    var selected := After(notes, after);
    forall n | n in selected ensures n in HeldNotes(s) { AfterMembers(notes, after, n); }
    OneRowEach(s, selected);
    forall i | 0 <= i < |selected| ensures Rows(s, selected)[i].revision.Some? {
      assert selected[i] in selected;
      RowOfHeld(s, selected[i]);
      HoldIsReleasable(s, selected[i], true);
    }
  }

  /** The store's listings are a snapshot as the machine takes it. */
  lemma Snapshot(cfg: Config, s: State, proofLag: Option<nat>, recover: seq<NoteId>, ready: seq<NoteId>, poll: seq<NoteId>)
    requires IsAscending(recover, WithStatus(s, Submitting)) && IsAscending(poll, WithStatus(s, Submitted))
    requires forall n :: n in ready <==> proofLag.Some? && StoreSpec.Ready(s, proofLag.value, cfg.depth, n)
    requires forall i, j :: 0 <= i < j < |ready| ==> Before(s, ready[i], ready[j])
    ensures IsSnapshot(cfg, s, proofLag, recover, ready, poll)
  {
    assert forall i :: 0 <= i < |recover| ==> recover[i] in recover;
    assert forall i :: 0 <= i < |poll| ==> poll[i] in poll;
    assert forall i :: 0 <= i < |ready| ==> ready[i] in ready;
  }
}
