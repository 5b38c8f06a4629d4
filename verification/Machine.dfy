/** The attester as a state machine: the durable store, the running cycle, Circle, and the clock.

    Each store transaction is one step, so a crash may fall between any two of them. Circle may
    accept a request at any time after it is sent, or never, and may lose any reply
    (crates/xusdc-light-attester/src/attester.rs and submission.rs). */
module Machine {
  import opened Basics
  import opened Submission
  import opened StoreSpec
  import opened StoreInvariant
  import opened Discovery

  // ---- Circle ------------------------------------------------------------------------------------

  /** A signed authorization, as Circle and the chain identify it. */
  datatype Auth = Auth(note: NoteId, hash: Hash)

  /** What became of an accepted authorization. `PaidOut` and `Lapsed` are final. */
  datatype Fate = InProgress | PaidOut | Lapsed | Refused

  /** `flight` holds the sent requests Circle has not decided: each is a copy of an authorization,
      under a number of its own. */
  datatype Circle = Circle(fate: map<Auth, Fate>, flight: map<nat, Auth>, sent: nat)

  /** The authorization was accepted and may be paid, or may still be accepted. */
  predicate Open(circle: Circle, auth: Auth) {
    if auth in circle.fate then circle.fate[auth] != Lapsed
    else exists copy :: copy in circle.flight && circle.flight[copy] == auth
  }

  /** The one statement about acceptance the attester relies on: Circle reports an authorization as
      expired only when it has lapsed. */
  predicate Truthful(circle: Circle, withdrawal: Withdrawal) {
    withdrawal.status == "expired" && withdrawal.names.Some? && |withdrawal.hashes| == 1 && withdrawal.hashes[0].Some? ==>
      var auth := Auth(withdrawal.names.value, withdrawal.hashes[0].value);
      auth in circle.fate && circle.fate[auth] == Lapsed
  }

  predicate TruthfulBody(circle: Circle, body: Body) {
    && (body.single.Some? ==> Truthful(circle, body.single.value))
    && (body.list.Some? ==> forall i :: 0 <= i < |body.list.value| ==> Truthful(circle, body.list.value[i]))
  }

  // ---- The cycle ---------------------------------------------------------------------------------

  /** One piece of a cycle's work: a saved submission to send or look up, or a burn to withdraw. */
  datatype Item = Resume(saved: Submission) | Fresh(note: NoteId)

  function NoteOf(item: Item): NoteId {
    match item case Resume(saved) => saved.note case Fresh(note) => note
  }

  /** A submission whose ID is known is looked up, which the limit queue does not hold back. */
  predicate IsLookup(item: Item) {
    item.Resume? && item.saved.id.Some?
  }

  /** Where the process is. `Working` is between two items, where operator commands run. */
  datatype Pc =
    | Idle
    | Working(queue: seq<Item>)
    | Preparing(note: NoteId, queue: seq<Item>)
    | Sending(saved: Submission, attempt: Attempt, queue: seq<Item>)
    | Awaiting(saved: Submission, attempt: Attempt, copy: nat, queue: seq<Item>)

  datatype Limit = Limit(prefix: string, interval: nat)

  datatype Config = Config(limit: Option<Limit>, depth: nat)

  /** `now` is in nanoseconds since the Unix epoch. `chain` is the blocks saved so far and `tried`
      the time of each burn's latest attempt that the limit queue let through; both are history.
      `passed` says which requests the gate passes for a burn; only those are signed. */
  datatype World = World(
    cfg: Config, passed: (NoteId, Request) -> bool,
    store: State, pc: Pc, circle: Circle, now: nat, chain: seq<Block>, tried: map<NoteId, nat>)

  // ---- The withdrawal limit ----------------------------------------------------------------------

  const NANOS: nat := 1_000_000_000
  const MAX_SECONDS: nat := 0x7FFF_FFFF_FFFF_FFFF

  /** The Unix second, rounded up, at which a burn rejected at `now` may be tried again. */
  function RetryAt(interval: nat, now: nat): (at: Option<nat>)
    ensures at.Some? ==> now + interval <= at.value * NANOS < now + interval + NANOS
  {
    var seconds := (now + interval + NANOS - 1) / NANOS;
    if seconds <= MAX_SECONDS then Some(seconds) else None
  }

  predicate IsLimitRejection(cfg: Config, reply: Reply) {
    cfg.limit.Some? && reply.http == 400 && reply.body.message.Some? && cfg.limit.value.prefix <= reply.body.message.value
  }

  ghost function FirstWait(s: State): Option<NoteId> {
    if exists note :: IsFirstWait(s, note) then var note :| IsFirstWait(s, note); Some(note) else None
  }

  datatype LimitAnswer = Allowed(store: State) | Blocked | Stopped

  /** Whether the limit queue lets this burn try now. A due waiter's next retry is saved first. */
  ghost function LimitAllows(cfg: Config, s: State, now: nat, note: NoteId): LimitAnswer {
    var first := FirstWait(s);
    if first.None? then Allowed(s)
    else if first.value != note then
      if note !in s.burns then Stopped
      else if Before(s, note, first.value) then Allowed(s) else Blocked
    else if now / NANOS < s.burns[note].retryAt.value then Blocked
    else if cfg.limit.None? then Stopped
    else
      var at := RetryAt(cfg.limit.value.interval, now);
      if at.None? then Stopped
      else
        var advanced := AdvanceLimitRetry(s, note, at.value);
        if advanced.Ok? then Allowed(advanced.value) else Stopped
  }

  // ---- Answers -----------------------------------------------------------------------------------

  /** What an answered request leads to: the store, and the submission to look up at once when a
      409 gave its ID. A store error ends the cycle. */
  datatype Settled = Settled(store: State, again: Option<Submission>) | Ended

  function Saved(r: Result<State, StoreError>, again: Option<Submission>): Settled {
    if r.Ok? then Settled(r.value, again) else Ended
  }

  /** Interprets the answer to a saved request and saves the outcome. */
  function Settle(cfg: Config, now: nat, s: State, saved: Submission, attempt: Attempt, answer: Answer): Settled {
    var got := Receive(saved, answer);
    if saved.id.None? && answer.Got? && IsLimitRejection(cfg, answer.reply) then
      var at := RetryAt(cfg.limit.value.interval, now);
      if at.None? then Ended
      else Saved(RecordLimitRejection(s, saved.note, at.value, answer.reply.body, Some((got, attempt))), None)
    else if saved.id.None? && answer.Got? && answer.reply.http == 409 then
      var (read, failure) := ReadConflict(got);
      Saved(UpdateOutcome(s, read), if failure.Some? then None else Some(read))
    else if answer.Got? then Saved(UpdateOutcome(s, ReadResponse(got, answer.reply).0), None)
    else Saved(UpdateOutcome(s, got), None)
  }

  /** How a burn's preparation ended: refused by Circle's limit, held, failed for this cycle, or
      verified and signed. */
  datatype Prepared = Limited(reply: Reply) | HoldIt(reason: BurnHold, answer: Option<Reply>) | TryLater | Signed(request: Request)

  // ---- Steps -------------------------------------------------------------------------------------

  datatype Step =
    | SaveNext(block: Block)
    | StartCycle(proofLag: Option<nat>, recover: seq<NoteId>, ready: seq<NoteId>, poll: seq<NoteId>)
    | Release(selection: Selection)
    | ReleaseOffline(notes: seq<NoteId>)
    | Skip
    | EndCycle
    | Begin
    | Prepare(result: Prepared)
    | Send
    | Leave
    | Answered(answer: Answer)
    | Crash
    | Accept(copy: nat)
    | Drop(copy: nat)
    | Progress(auth: Auth, fate: Fate)
    | Tick(now: nat)

  ghost predicate HasStatus(s: State, notes: seq<NoteId>, status: Status) {
    && (forall i :: 0 <= i < |notes| ==> notes[i] in s.subs && s.subs[notes[i]].status == status)
    && IsAscending(notes, set n | n in s.subs && s.subs[n].status == status)
  }

  ghost predicate InWithdrawalOrder(s: State, notes: seq<NoteId>) {
    && (forall i :: 0 <= i < |notes| ==> notes[i] in s.burns)
    && (forall i, j :: 0 <= i < j < |notes| ==> Before(s, notes[i], notes[j]))
  }

  function ResumeAll(s: State, notes: seq<NoteId>): seq<Item>
    requires forall i :: 0 <= i < |notes| ==> notes[i] in s.subs
  {
    seq(|notes|, i requires 0 <= i < |notes| => Resume(s.subs[notes[i]]))
  }

  function FreshAll(notes: seq<NoteId>): seq<Item> {
    seq(|notes|, i requires 0 <= i < |notes| => Fresh(notes[i]))
  }

  /** The listings a cycle works from, as read at its start: requests being sent, ready burns (none
      when discovery failed), and accepted requests. */
  ghost predicate IsSnapshot(cfg: Config, s: State, proofLag: Option<nat>, recover: seq<NoteId>, ready: seq<NoteId>, poll: seq<NoteId>) {
    && HasStatus(s, recover, Submitting)
    && HasStatus(s, poll, Submitted)
    && InWithdrawalOrder(s, ready)
    && (forall n :: n in ready <==> proofLag.Some? && StoreSpec.Ready(s, proofLag.value, cfg.depth, n))
  }

  /** An operator's claim that Circle did not accept a held withdrawal is true, and covers the copies
      still in flight. */
  predicate ClaimTrue(circle: Circle, s: State, note: NoteId) {
    note in s.subs && s.subs[note].status == Held ==> !Open(circle, Auth(note, s.subs[note].request.hash))
  }

  predicate LegalAnswer(circle: Circle, saved: Submission, copy: nat, answer: Answer) {
    answer.Got? ==>
      && TruthfulBody(circle, answer.reply.body)
      // A rejected POST was not accepted and will not be: the rejected copy is still undecided.
      && (saved.id.None? && answer.reply.http == 400 ==> copy in circle.flight)
  }

  ghost predicate Enabled(w: World, step: Step) {
    match step
    case SaveNext(block) =>
      && w.pc.Idle? && block.num == w.store.anchor + |w.chain| && SaveBlock(w.store, block).Ok?
    case StartCycle(proofLag, recover, ready, poll) =>
      w.pc.Idle? && IsSnapshot(w.cfg, w.store, proofLag, recover, ready, poll)
    case Release(selection) =>
      && (w.pc.Idle? || w.pc.Working?)
      && ReleaseChecked(w.store, selection).Ok?
      && (selection.notAccepted ==> ClaimTrue(w.circle, w.store, selection.note))
    case ReleaseOffline(notes) =>
      && w.pc.Idle? && ReleaseHolds(w.store, notes).Ok?
      && (forall i :: 0 <= i < |notes| ==> ClaimTrue(w.circle, w.store, notes[i]))
    case Skip => w.pc.Working? && |w.pc.queue| > 0
    case EndCycle => w.pc.Working?
    case Begin =>
      && w.pc.Working? && |w.pc.queue| > 0
      && (IsLookup(w.pc.queue[0]) || LimitAllows(w.cfg, w.store, w.now, NoteOf(w.pc.queue[0])).Allowed?)
    case Prepare(result) =>
      && w.pc.Preparing?
      && (result.Limited? ==> IsLimitRejection(w.cfg, result.reply))
      && (result.Signed? ==> w.passed(w.pc.note, result.request))
    case Send => w.pc.Sending?
    case Leave => w.pc.Sending?
    case Answered(answer) => w.pc.Awaiting? && LegalAnswer(w.circle, w.pc.saved, w.pc.copy, answer)
    case Crash => true
    case Accept(copy) => copy in w.circle.flight && w.circle.flight[copy] !in w.circle.fate
    case Drop(copy) => copy in w.circle.flight
    case Progress(auth, fate) => auth in w.circle.fate && (w.circle.fate[auth] == fate || w.circle.fate[auth] in {InProgress, Refused})
    case Tick(now) => w.now <= now
  }

  ghost function BeginItem(w: World): World
    requires Enabled(w, Begin)
  {
    var item := w.pc.queue[0];
    var rest := w.pc.queue[1..];
    if IsLookup(item) then w.(pc := Sending(item.saved, Recovery, rest))
    else
      var store := LimitAllows(w.cfg, w.store, w.now, NoteOf(item)).store;
      w.(store := store, tried := w.tried[NoteOf(item) := w.now],
         pc := if item.Resume? then Sending(item.saved, Recovery, rest) else Preparing(item.note, rest))
  }

  function FinishPrepare(w: World, result: Prepared): World
    requires w.pc.Preparing? && (result.Limited? ==> IsLimitRejection(w.cfg, result.reply))
  {
    var note, rest := w.pc.note, w.pc.queue;
    match result
    case TryLater => w.(pc := Working(rest))
    case Limited(reply) =>
      var at := RetryAt(w.cfg.limit.value.interval, w.now);
      var r := if at.Some? then RecordLimitRejection(w.store, note, at.value, reply.body, None) else Err(InvalidStore);
      if r.Ok? then w.(store := r.value, pc := Working(rest)) else w.(pc := Idle)
    case HoldIt(reason, answer) =>
      var r := HoldBurn(w.store, note, reason, answer);
      if r.Ok? then w.(store := r.value, pc := Working(rest)) else w.(pc := Idle)
    case Signed(request) =>
      var saved := NewSubmission(note, request);
      var r := SaveSubmission(w.store, saved);
      if r.Ok? then w.(store := r.value, pc := Sending(saved, First, rest)) else w.(pc := Idle)
  }

  function SendCall(w: World): World
    requires w.pc.Sending?
  {
    var saved := w.pc.saved;
    var circle := if saved.id.Some? then w.circle
      else w.circle.(flight := w.circle.flight[w.circle.sent := Auth(saved.note, saved.request.hash)]);
    w.(circle := circle.(sent := w.circle.sent + 1), pc := Awaiting(saved, w.pc.attempt, w.circle.sent, w.pc.queue))
  }

  function TakeAnswer(w: World, answer: Answer): World
    requires w.pc.Awaiting?
  {
    var pc := w.pc;
    var rejected := pc.saved.id.None? && answer.Got? && answer.reply.http == 400;
    var circle := if rejected then w.circle.(flight := w.circle.flight - {pc.copy}) else w.circle;
    match Settle(w.cfg, w.now, w.store, pc.saved, pc.attempt, answer)
    case Ended => w.(circle := circle, pc := Idle)
    case Settled(store, again) =>
      w.(circle := circle, store := store,
         pc := if again.Some? then Sending(again.value, pc.attempt, pc.queue) else Working(pc.queue))
  }

  ghost function Apply(w: World, step: Step): World
    requires Enabled(w, step)
  {
    match step
    case SaveNext(block) => w.(store := SaveBlock(w.store, block).value, chain := w.chain + [block])
    case StartCycle(proofLag, recover, ready, poll) =>
      w.(pc := Working(ResumeAll(w.store, recover) + FreshAll(ready) + ResumeAll(w.store, poll)))
    case Release(selection) => w.(store := ReleaseChecked(w.store, selection).value.state)
    case ReleaseOffline(notes) => w.(store := ReleaseHolds(w.store, notes).value.state)
    case Skip => w.(pc := Working(w.pc.queue[1..]))
    case EndCycle => w.(pc := Idle)
    case Begin => BeginItem(w)
    case Prepare(result) => FinishPrepare(w, result)
    case Send => SendCall(w)
    case Leave => w.(pc := Working(w.pc.queue))
    case Answered(answer) => TakeAnswer(w, answer)
    case Crash => w.(pc := Idle)
    case Accept(copy) =>
      w.(circle := w.circle.(fate := w.circle.fate[w.circle.flight[copy] := InProgress], flight := w.circle.flight - {copy}))
    case Drop(copy) => w.(circle := w.circle.(flight := w.circle.flight - {copy}))
    case Progress(auth, fate) => w.(circle := w.circle.(fate := w.circle.fate[auth := fate]))
    case Tick(now) => w.(now := now)
  }

  ghost predicate Next(w: World, w': World) {
    exists step :: Enabled(w, step) && w' == Apply(w, step)
  }

  /** A new store, an idle process, and a Circle that has seen nothing. */
  predicate Init(w: World) {
    && w.store.burns == map[] && w.store.subs == map[] && w.store.events == [] && w.store.checkpoint == None
    && w.pc == Idle && w.circle.fate == map[] && w.circle.flight == map[]
    && w.chain == [] && w.tried == map[]
  }

  ghost predicate StepAt(run: seq<World>, i: nat) {
    i + 1 < |run| ==> Next(run[i], run[i + 1])
  }

  /** A run: every world follows from the one before it by one step. */
  ghost predicate IsRun(run: seq<World>) {
    |run| > 0 && Init(run[0]) && forall i :: StepAt(run, i)
  }
}
