/** Every step of the machine keeps the invariant. */
module MachineSteps {
  import opened Basics
  import opened Submission
  import opened StoreSpec
  import opened StoreInvariant
  import opened Discovery
  import opened Machine
  import opened MachineInvariant

  // ---- One part of the invariant at a time -------------------------------------------------------

  lemma ReflectsOnly(s: State, s': State, chain: seq<Block>, note: NoteId)
    requires Reflects(s, chain) && OnlyNote(s, s', note) && Columns(s'.burns[note]) == Columns(s.burns[note])
    ensures Reflects(s', chain)
  {
    OnlyNoteSameDiscovery(s, s', note);
    ReflectsStays(s, s', chain);
  }

  /** A wait that is kept or dropped stays spaced. */
  lemma SpacedStays(w: World, s': State, note: NoteId)
    requires Spaced(w) && OnlyNote(w.store, s', note)
    requires s'.burns[note].retryAt.Some? ==> s'.burns[note].retryAt == w.store.burns[note].retryAt
    ensures Spaced(w.(store := s'))
  {
    forall n | Waits(s', n) ensures Waits(w.store, n) && s'.burns[n].retryAt == w.store.burns[n].retryAt {
      if n != note { RowUnchanged(w.store, s', note, n); }
    }
  }

  /** A wait that starts or is moved now ends a retry interval from now. */
  lemma SpacedFromNow(w: World, s': State, note: NoteId, at: nat)
    requires Spaced(w) && OnlyNote(w.store, s', note) && s'.burns[note].retryAt == Some(at)
    requires w.cfg.limit.Some? && RetryAt(w.cfg.limit.value.interval, w.now) == Some(at)
    ensures Spaced(w.(store := s'))
    ensures Spaced(w.(store := s', tried := w.tried[note := w.now]))
  {
    forall n | Waits(s', n) && n != note ensures Waits(w.store, n) && s'.burns[n] == w.store.burns[n] {
      RowUnchanged(w.store, s', note, n);
    }
  }

  /** A change to one note's rows keeps Circle's view saved, if that note's does. */
  lemma OpenStays(s: State, s': State, circle: Circle, note: NoteId)
    requires OpenIsSaved(s, circle) && OnlyNote(s, s', note)
    requires forall auth :: Open(circle, auth) && auth.note == note ==>
               note in s'.subs && s'.subs[note].request.hash == auth.hash
    requires note in s'.subs && s'.subs[note].status == Expired ==>
               var auth := AuthOf(s'.subs[note].(note := note)); auth in circle.fate && circle.fate[auth] == Lapsed
    ensures OpenIsSaved(s', circle)
  {
    forall auth | Open(circle, auth) && auth.note != note
      ensures auth.note in s'.subs && s'.subs[auth.note].request.hash == auth.hash
    {
      RowUnchanged(s, s', note, auth.note);
    }
    forall n | n in s'.subs && n != note && s'.subs[n].status == Expired
      ensures Auth(n, s'.subs[n].request.hash) in circle.fate && circle.fate[Auth(n, s'.subs[n].request.hash)] == Lapsed
    {
      RowUnchanged(s, s', note, n);
    }
  }

  lemma AheadStays(s: State, s': State, note: NoteId)
    requires Ahead(s, note) && OnlyNote(s, s', note) && Columns(s'.burns[note]) == Columns(s.burns[note])
    ensures Ahead(s', note)
  {
    forall other | Waits(s', other) && other != note ensures Before(s', note, other) {
      RowUnchanged(s, s', note, other);
      assert Waits(s, other);
    }
  }

  // ---- Circle's own steps ------------------------------------------------------------------------

  /** Circle's steps open no authorization and revive none. */
  ghost predicate Shrinks(circle: Circle, circle': Circle) {
    && (forall auth :: Open(circle', auth) ==> Open(circle, auth))
    && (forall auth :: auth in circle.fate && circle.fate[auth] == Lapsed ==>
          auth in circle'.fate && circle'.fate[auth] == Lapsed)
  }

  lemma ShrinksKeepsSaved(s: State, circle: Circle, circle': Circle)
    requires OpenIsSaved(s, circle) && Shrinks(circle, circle')
    ensures OpenIsSaved(s, circle')
  {}

  lemma AcceptShrinks(circle: Circle, pc: Pc, copy: nat)
    requires copy in circle.flight && circle.flight[copy] !in circle.fate && FirstIsAlone(pc, circle)
    ensures var circle' := circle.(fate := circle.fate[circle.flight[copy] := InProgress], flight := circle.flight - {copy});
      Shrinks(circle, circle') && FirstIsAlone(pc, circle')
  {
    var auth := circle.flight[copy];
    var circle' := circle.(fate := circle.fate[auth := InProgress], flight := circle.flight - {copy});
    assert Open(circle, auth);
    forall a | Open(circle', a) ensures Open(circle, a) {
      if a != auth && a !in circle.fate {
        var c :| c in circle'.flight && circle'.flight[c] == a;
        assert c in circle.flight && circle.flight[c] == a;
      }
    }
  }

  lemma DropShrinks(circle: Circle, pc: Pc, copy: nat)
    requires FirstIsAlone(pc, circle)
    ensures var circle' := circle.(flight := circle.flight - {copy});
      Shrinks(circle, circle') && FirstIsAlone(pc, circle')
  {
    var circle' := circle.(flight := circle.flight - {copy});
    forall a | Open(circle', a) ensures Open(circle, a) {
      if a !in circle.fate {
        var c :| c in circle'.flight && circle'.flight[c] == a;
        assert c in circle.flight && circle.flight[c] == a;
      }
    }
  }

  lemma ProgressShrinks(circle: Circle, pc: Pc, auth: Auth, fate: Fate)
    requires auth in circle.fate && (circle.fate[auth] == fate || circle.fate[auth] in {InProgress, Refused})
    requires FirstIsAlone(pc, circle)
    ensures var circle' := circle.(fate := circle.fate[auth := fate]);
      Shrinks(circle, circle') && FirstIsAlone(pc, circle')
  {}

  lemma CircleKeeps(w: World, step: Step)
    requires Inv(w) && Enabled(w, step) && (step.Accept? || step.Drop? || step.Progress?)
    ensures Inv(Apply(w, step))
  {
    match step
    case Accept(copy) => AcceptShrinks(w.circle, w.pc, copy);
    case Drop(copy) => DropShrinks(w.circle, w.pc, copy);
    case Progress(auth, fate) => ProgressShrinks(w.circle, w.pc, auth, fate);
    ShrinksKeepsSaved(w.store, w.circle, Apply(w, step).circle);
  }

  // ---- Discovery and the start of a cycle --------------------------------------------------------

  lemma SaveNextKeeps(w: World, block: Block)
    requires Inv(w) && Enabled(w, SaveNext(block))
    ensures Inv(Apply(w, SaveNext(block)))
  {
    var s := w.store;
    CreatedBelow(s, w.chain);
    SavingReflects(s, w.chain, block);
    BlockKeeps(s, block);
    SavesBlock(s, block);
    var s' := SaveBlock(s, block).value;
    NoNewWaits(s, block, s');
  }

  lemma NoNewWaits(s: State, block: Block, s': State)
    requires IsAfterBlock(s.burns, block, s'.burns)
    ensures forall n :: Waits(s', n) ==> Waits(s, n) && s'.burns[n].retryAt == s.burns[n].retryAt
  {
    forall n | Waits(s', n) ensures Waits(s, n) && s'.burns[n].retryAt == s.burns[n].retryAt {
      if n !in s.burns {
        var i :| 0 <= i < |block.notes| && block.notes[i].id == n && block.notes[i].burn;
        assert IsNew(s.burns, block.notes[i]);
      }
    }
  }

  lemma StartKeeps(w: World, proofLag: Option<nat>, recover: seq<NoteId>, ready: seq<NoteId>, poll: seq<NoteId>)
    requires Inv(w) && Enabled(w, StartCycle(proofLag, recover, ready, poll))
    ensures Inv(Apply(w, StartCycle(proofLag, recover, ready, poll)))
  {
    RowsNamed(w.store);
    SnapshotCurrent(w.store, w.cfg, proofLag, recover, ready, poll);
  }

  lemma RowsNamed(s: State)
    requires WellKept(s)
    ensures forall n :: n in s.subs ==> s.subs[n].note == n
  {
    forall n | n in s.subs ensures s.subs[n].note == n { assert NoteKept(s, n); }
  }

  /** The three listings are current when read, and disjoint. */
  lemma SnapshotCurrent(s: State, cfg: Config, proofLag: Option<nat>, recover: seq<NoteId>, ready: seq<NoteId>, poll: seq<NoteId>)
    requires IsSnapshot(cfg, s, proofLag, recover, ready, poll)
    requires forall n :: n in s.subs ==> s.subs[n].note == n
    ensures QueueCurrent(s, ResumeAll(s, recover) + FreshAll(ready) + ResumeAll(s, poll))
  {
    var a, b, c := ResumeAll(s, recover), FreshAll(ready), ResumeAll(s, poll);
    assert QueueCurrent(s, a);
    assert QueueCurrent(s, c);
    forall i | 0 <= i < |b| ensures ItemCurrent(s, b[i]) { assert ready[i] in ready; }
    forall i, j | 0 <= i < j < |b| ensures NoteOf(b[i]) != NoteOf(b[j]) { assert Before(s, ready[i], ready[j]); }
    Joined(s, a, b);
    Joined(s, a + b, c);
  }

  lemma Joined(s: State, a: seq<Item>, b: seq<Item>)
    requires QueueCurrent(s, a) && QueueCurrent(s, b)
    requires forall i, j :: 0 <= i < |a| && 0 <= j < |b| ==> NoteOf(a[i]) != NoteOf(b[j])
    ensures QueueCurrent(s, a + b)
  {
    var q := a + b;
    assert forall i :: 0 <= i < |q| ==> q[i] == if i < |a| then a[i] else b[i - |a|];
  }

  // ---- Releases ----------------------------------------------------------------------------------

  lemma ReleaseStep(w: World, note: NoteId, notAccepted: bool)
    requires Inv(w) && (w.pc.Idle? || w.pc.Working?) && ReleaseHold(w.store, note, notAccepted).Ok?
    requires notAccepted ==> ClaimTrue(w.circle, w.store, note)
    ensures Inv(w.(store := ReleaseHold(w.store, note, notAccepted).value.state))
  {
    var s := w.store;
    var s' := ReleaseHold(s, note, notAccepted).value.state;
    ReleaseKeeps(s, note, notAccepted);
    ReflectsOnly(s, s', w.chain, note);
    if w.pc.Working? {
      HeldIsApart(s, note, notAccepted, w.pc.queue);
      QueueStays(s, s', note, w.pc.queue);
    }
    ReleaseKeepsOpen(w, note, notAccepted);
    SpacedStays(w, s', note);
  }

  /** A releasable hold is on no note of a current snapshot. */
  lemma HeldIsApart(s: State, note: NoteId, notAccepted: bool, queue: seq<Item>)
    requires WellKept(s) && ReleaseHold(s, note, notAccepted).Ok? && QueueCurrent(s, queue)
    ensures Apart(note, queue)
  {
    assert note in s.burns && NoteKept(s, note);
    forall i | 0 <= i < |queue| ensures NoteOf(queue[i]) != note {
      assert ItemCurrent(s, queue[i]);
    }
  }

  lemma ReleaseKeepsOpen(w: World, note: NoteId, notAccepted: bool)
    requires OpenIsSaved(w.store, w.circle) && ReleaseHold(w.store, note, notAccepted).Ok?
    requires notAccepted ==> ClaimTrue(w.circle, w.store, note)
    ensures OpenIsSaved(ReleaseHold(w.store, note, notAccepted).value.state, w.circle)
  {
    var s := w.store;
    var s' := ReleaseHold(s, note, notAccepted).value.state;
    if !BurnHeldIn(s, note) {
      assert s'.subs == s.subs - {note};
      assert !Open(w.circle, Auth(note, s.subs[note].request.hash));
    }
  }

  lemma {:induction false} OfflineKeeps(w: World, notes: seq<NoteId>)
    requires Inv(w) && Enabled(w, ReleaseOffline(notes))
    ensures Inv(Apply(w, ReleaseOffline(notes)))
    decreases |notes|
  {
    if |notes| > 0 {
      ReleaseStep(w, notes[0], true);
      var first := ReleaseHold(w.store, notes[0], true).value.state;
      var w1 := w.(store := first);
      ReleaseKeeps(w.store, notes[0], true);
      ClaimsStay(w, first, notes);
      OfflineKeeps(w1, notes[1..]);
    }
  }

  lemma ClaimsStay(w: World, first: State, notes: seq<NoteId>)
    requires |notes| > 0 && OnlyNote(w.store, first, notes[0])
    requires notes[0] in first.subs ==> notes[0] in w.store.subs && first.subs[notes[0]] == w.store.subs[notes[0]]
    requires forall i :: 0 <= i < |notes| ==> ClaimTrue(w.circle, w.store, notes[i])
    ensures forall i :: 0 <= i < |notes[1..]| ==> ClaimTrue(w.circle, first, notes[1..][i])
  {
    forall i | 0 <= i < |notes[1..]| ensures ClaimTrue(w.circle, first, notes[1..][i]) {
      var n := notes[i + 1];
      assert ClaimTrue(w.circle, w.store, n);
      if n != notes[0] { RowUnchanged(w.store, first, notes[0], n); }
    }
  }

  // ---- One item of a cycle -----------------------------------------------------------------------

  lemma BeginKeeps(w: World)
    requires Inv(w) && Enabled(w, Begin)
    ensures Inv(Apply(w, Begin))
  {
    var s := w.store;
    var item := w.pc.queue[0];
    var note := NoteOf(item);
    QueueTail(s, w.pc.queue);
    assert ItemCurrent(s, item);
    if !IsLookup(item) {
      assert note in s.burns;
      BeginKeepsStore(w, note);
      var s' := LimitAllows(w.cfg, s, w.now, note).store;
      QueueStays(s, s', note, w.pc.queue[1..]);
      OpenStays(s, s', w.circle, note);
    }
  }

  lemma BeginKeepsStore(w: World, note: NoteId)
    requires WellKept(w.store) && Reflects(w.store, w.chain) && Spaced(w)
    requires note in w.store.burns && LimitAllows(w.cfg, w.store, w.now, note).Allowed?
    ensures var s' := LimitAllows(w.cfg, w.store, w.now, note).store;
      && WellKept(s') && Reflects(s', w.chain) && OnlyNote(w.store, s', note) && Ahead(s', note)
      && s'.subs == w.store.subs && s'.events == w.store.events
      && s'.burns[note] == w.store.burns[note].(retryAt := s'.burns[note].retryAt)
      && Spaced(w.(store := s', tried := w.tried[note := w.now]))
  {
    var s := w.store;
    AllowedIsAhead(w.cfg, s, w.now, note);
    var s' := LimitAllows(w.cfg, s, w.now, note).store;
    if Waits(s, note) {
      var at := RetryAt(w.cfg.limit.value.interval, w.now).value;
      RetryKeeps(s, note, at);
      SpacedFromNow(w, s', note, at);
      ReflectsOnly(s, s', w.chain, note);
    }
  }

  lemma PrepareKeeps(w: World, result: Prepared)
    requires Inv(w) && Enabled(w, Prepare(result))
    ensures Inv(Apply(w, Prepare(result)))
  {
    match result
    case TryLater => {}
    case Limited(reply) =>
      var at := RetryAt(w.cfg.limit.value.interval, w.now);
      if at.Some? { PrepareLimited(w, reply, at.value); }
    case HoldIt(reason, answer) => HoldStep(w, reason, answer);
    case Signed(request) =>
      if ValidRequest(w.pc.note, request) { SignStep(w, request); }
  }

  lemma PrepareLimited(w: World, reply: Reply, at: nat)
    requires Inv(w) && Enabled(w, Prepare(Limited(reply)))
    requires RetryAt(w.cfg.limit.value.interval, w.now) == Some(at)
    ensures Inv(Apply(w, Prepare(Limited(reply))))
  {
    var s, note := w.store, w.pc.note;
    LimitKeeps(s, note, at, reply.body, None);
    var s' := RecordLimitRejection(s, note, at, reply.body, None).value;
    ReflectsOnly(s, s', w.chain, note);
    QueueStays(s, s', note, w.pc.queue);
    SpacedFromNow(w, s', note, at);
    OpenStays(s, s', w.circle, note);
  }

  lemma HoldStep(w: World, reason: BurnHold, answer: Option<Reply>)
    requires Inv(w) && w.pc.Preparing?
    ensures Inv(Apply(w, Prepare(HoldIt(reason, answer))))
  {
    var s, note := w.store, w.pc.note;
    HoldKeeps(s, note, reason, answer);
    var s' := HoldBurn(s, note, reason, answer).value;
    ReflectsOnly(s, s', w.chain, note);
    QueueStays(s, s', note, w.pc.queue);
    SpacedStays(w, s', note);
    OpenStays(s, s', w.circle, note);
  }

  /** Signing again is safe: nothing of a withdrawable burn is open at Circle. */
  lemma NothingOpen(s: State, circle: Circle, note: NoteId)
    requires OpenIsSaved(s, circle) && Withdrawable(s, note)
    ensures forall auth :: Open(circle, auth) ==> auth.note != note
  {
  }

  lemma SignStep(w: World, request: Request)
    requires Inv(w) && Enabled(w, Prepare(Signed(request))) && ValidRequest(w.pc.note, request)
    ensures Inv(Apply(w, Prepare(Signed(request))))
  {
    var s, note := w.store, w.pc.note;
    NothingOpen(s, w.circle, note);
    SaveKeeps(s, note, request);
    var s' := SaveSubmission(s, NewSubmission(note, request)).value;
    ReflectsOnly(s, s', w.chain, note);
    QueueStays(s, s', note, w.pc.queue);
    SpacedStays(w, s', note);
    OpenStays(s, s', w.circle, note);
    AheadStays(s, s', note);
  }

  // ---- Sending -----------------------------------------------------------------------------------

  lemma SendKeeps(w: World)
    requires Inv(w) && Enabled(w, Send)
    ensures Inv(Apply(w, Send))
  {
    if w.pc.saved.id.None? { SentIsSaved(w.store, w.circle, w.pc); }
  }

  lemma SentIsSaved(s: State, circle: Circle, pc: Pc)
    requires pc.Sending? && pc.saved.id.None? && RowIs(s, pc.saved)
    requires OpenIsSaved(s, circle) && CopiesNumbered(circle) && FirstIsAlone(pc, circle)
    ensures var circle' := Circle(circle.fate, circle.flight[circle.sent := AuthOf(pc.saved)], circle.sent + 1);
      && OpenIsSaved(s, circle') && CopiesNumbered(circle')
      && FirstIsAlone(Awaiting(pc.saved, pc.attempt, circle.sent, pc.queue), circle')
  {
    var auth := AuthOf(pc.saved);
    var circle' := Circle(circle.fate, circle.flight[circle.sent := auth], circle.sent + 1);
    forall a | Open(circle', a) && a != auth ensures Open(circle, a) {
      if a !in circle.fate {
        var c :| c in circle'.flight && circle'.flight[c] == a;
        assert c in circle.flight && circle.flight[c] == a;
      }
    }
    if pc.attempt == First && auth !in circle.fate {
      assert forall c :: c in circle.flight ==> circle.flight[c] != auth;
    }
  }
}
