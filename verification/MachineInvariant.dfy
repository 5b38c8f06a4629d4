/** The invariant of the attester's state machine, and its preservation by every step. */
module MachineInvariant {
  import opened Basics
  import opened Submission
  import opened StoreSpec
  import opened StoreInvariant
  import opened Discovery
  import opened Machine

  // ---- The invariant -----------------------------------------------------------------------------

  /** The store still holds exactly the submission the process works from. */
  predicate RowIs(s: State, saved: Submission) {
    && saved.note in s.subs && s.subs[saved.note] == saved
    && (saved.status == Submitting || saved.status == Submitted)
  }

  predicate ItemCurrent(s: State, item: Item) {
    match item
    case Resume(saved) => RowIs(s, saved)
    case Fresh(note) => Withdrawable(s, note)
  }

  /** Every remaining item of the cycle's snapshot is still current, and no note occurs twice. */
  predicate QueueCurrent(s: State, queue: seq<Item>) {
    && (forall i :: 0 <= i < |queue| ==> ItemCurrent(s, queue[i]))
    && (forall i, j :: 0 <= i < j < |queue| ==> NoteOf(queue[i]) != NoteOf(queue[j]))
  }

  predicate Apart(note: NoteId, queue: seq<Item>) {
    forall i :: 0 <= i < |queue| ==> NoteOf(queue[i]) != note
  }

  /** No burn that waits for the limit comes before this one. */
  ghost predicate Ahead(s: State, note: NoteId) {
    note in s.burns && forall other :: Waits(s, other) && other != note ==> Before(s, note, other)
  }

  ghost predicate PcCurrent(w: World) {
    match w.pc
    case Idle => true
    case Working(queue) => QueueCurrent(w.store, queue)
    case Preparing(note, queue) =>
      QueueCurrent(w.store, queue) && Apart(note, queue) && Withdrawable(w.store, note) && Ahead(w.store, note)
    case Sending(saved, attempt, queue) =>
      QueueCurrent(w.store, queue) && Apart(saved.note, queue) && CallCurrent(w.store, saved)
    case Awaiting(saved, attempt, copy, queue) =>
      QueueCurrent(w.store, queue) && Apart(saved.note, queue) && CallCurrent(w.store, saved)
  }

  /** A submission about to be sent or waiting for its answer. */
  ghost predicate CallCurrent(s: State, saved: Submission) {
    && RowIs(s, saved)
    && (saved.id.None? ==> Ahead(s, saved.note))
  }

  function AuthOf(sub: Submission): Auth {
    Auth(sub.note, sub.request.hash)
  }

  /** Only the saved request of a burn can be open at Circle, and an expired one is not. */
  ghost predicate OpenIsSaved(s: State, circle: Circle) {
    && (forall auth :: Open(circle, auth) ==> auth.note in s.subs && s.subs[auth.note].request.hash == auth.hash)
    && (forall note :: note in s.subs && s.subs[note].status == Expired ==>
          Auth(note, s.subs[note].request.hash) in circle.fate && circle.fate[Auth(note, s.subs[note].request.hash)] == Lapsed)
  }

  /** A first send is the only copy of its authorization Circle can have. */
  ghost predicate FirstIsAlone(pc: Pc, circle: Circle) {
    && (pc.Sending? && pc.attempt == First && pc.saved.id.None? ==> !Open(circle, AuthOf(pc.saved)))
    && (pc.Awaiting? && pc.attempt == First && pc.saved.id.None? ==>
          && (AuthOf(pc.saved) !in circle.fate ==>
                forall copy :: copy in circle.flight && circle.flight[copy] == AuthOf(pc.saved) ==> copy == pc.copy)
          && (AuthOf(pc.saved) in circle.fate && circle.fate[AuthOf(pc.saved)] != Lapsed ==> pc.copy !in circle.flight))
  }

  ghost predicate CopiesNumbered(circle: Circle) {
    forall copy :: copy in circle.flight ==> copy < circle.sent
  }

  /** Waits are only written under a limit policy, and each ends at least one retry interval after
      the burn's latest attempt. */
  ghost predicate Spaced(w: World) {
    && (forall n :: Waits(w.store, n) ==> w.cfg.limit.Some?)
    && (forall n :: n in w.tried ==> w.tried[n] <= w.now)
    && (forall n :: Waits(w.store, n) && n in w.tried ==>
          w.tried[n] + w.cfg.limit.value.interval <= w.store.burns[n].retryAt.value * NANOS)
  }

  ghost predicate Inv(w: World) {
    && WellKept(w.store)
    && Reflects(w.store, w.chain)
    && PcCurrent(w)
    && OpenIsSaved(w.store, w.circle)
    && FirstIsAlone(w.pc, w.circle)
    && CopiesNumbered(w.circle)
    && Spaced(w)
  }

  lemma InitInv(w: World)
    requires Init(w)
    ensures Inv(w)
  {}

  // ---- Frames ------------------------------------------------------------------------------------

  lemma RowUnchanged(s: State, s': State, note: NoteId, n: NoteId)
    requires OnlyNote(s, s', note) && n != note
    ensures n in s'.subs <==> n in s.subs
    ensures n in s.subs ==> s'.subs[n] == s.subs[n]
    ensures n in s'.burns <==> n in s.burns
    ensures n in s.burns ==> s'.burns[n] == s.burns[n]
  {
    assert n in s'.subs - {note} <==> n in s.subs - {note};
    if n in s.subs { assert (s'.subs - {note})[n] == (s.subs - {note})[n]; }
    if n in s.burns { assert (s'.burns - {note})[n] == (s.burns - {note})[n]; }
  }

  /** A change to one note leaves the rest of the snapshot current. */
  lemma QueueStays(s: State, s': State, note: NoteId, queue: seq<Item>)
    requires OnlyNote(s, s', note) && QueueCurrent(s, queue) && Apart(note, queue)
    ensures QueueCurrent(s', queue)
  {
    forall i | 0 <= i < |queue| ensures ItemCurrent(s', queue[i]) {
      RowUnchanged(s, s', note, NoteOf(queue[i]));
    }
  }

  lemma QueueTail(s: State, queue: seq<Item>)
    requires QueueCurrent(s, queue) && |queue| > 0
    ensures QueueCurrent(s, queue[1..]) && Apart(NoteOf(queue[0]), queue[1..])
  {
    var tail := queue[1..];
    assert forall i :: 0 <= i < |tail| ==> tail[i] == queue[i + 1];
  }

  /** Discovery's columns do not change outside discovery. */
  lemma ReflectsStays(s: State, s': State, chain: seq<Block>)
    requires Reflects(s, chain) && SameDiscovery(s, s') && s'.anchor == s.anchor && s'.checkpoint == s.checkpoint
    ensures Reflects(s', chain)
  {
    forall id ensures id in s'.burns <==> Known(chain, id) {
      assert id in s.burns <==> Known(chain, id);
    }
    forall id | id in s'.burns ensures RowOf(chain, s.anchor, id, Columns(s'.burns[id])) {
      assert RowOf(chain, s.anchor, id, Columns(s.burns[id]));
      assert Columns(s'.burns[id]) == Columns(s.burns[id]);
    }
  }

  lemma OnlyNoteSameDiscovery(s: State, s': State, note: NoteId)
    requires OnlyNote(s, s', note)
    requires Columns(s'.burns[note]) == Columns(s.burns[note])
    ensures SameDiscovery(s, s')
  {
    forall id | id in s.burns && id != note ensures s'.burns[id] == s.burns[id] {
      RowUnchanged(s, s', note, id);
    }
  }

  // ---- The limit queue ---------------------------------------------------------------------------

  lemma FirstWaitExists(s: State)
    ensures FirstWait(s).None? ==> forall n :: !Waits(s, n)
    ensures FirstWait(s).Some? ==> IsFirstWait(s, FirstWait(s).value)
  {
    var waiting := set n | n in s.burns && Waits(s, n);
    if waiting != {} {
      var least := EarliestOf(s, waiting);
      assert IsFirstWait(s, least);
    } else {
      assert forall n :: Waits(s, n) ==> n in waiting;
    }
  }

  /** An allowed burn is ahead of every waiting one. If it waits itself, its time has come and its
      next retry is saved; otherwise nothing is written. */
  lemma AllowedIsAhead(cfg: Config, s: State, now: nat, note: NoteId)
    requires note in s.burns && LimitAllows(cfg, s, now, note).Allowed?
    ensures var s' := LimitAllows(cfg, s, now, note).store;
      && Ahead(s', note) && OnlyNote(s, s', note) && SameDiscovery(s, s')
      && s'.subs == s.subs && s'.events == s.events
      && (!Waits(s, note) ==> s' == s)
      && (Waits(s, note) ==>
            && cfg.limit.Some? && s.burns[note].retryAt.value <= now / NANOS
            && RetryAt(cfg.limit.value.interval, now).Some?
            && AdvanceLimitRetry(s, note, RetryAt(cfg.limit.value.interval, now).value) == Ok(s'))
  {
    FirstWaitExists(s);
    var first := FirstWait(s);
    if first.Some? && first.value != note {
      forall other | Waits(s, other) && other != note ensures Before(s, note, other) {
        if other != first.value { assert Before(s, first.value, other); }
      }
      assert Waits(s, note) ==> Before(s, first.value, note);
    }
    var s' := LimitAllows(cfg, s, now, note).store;
    forall other | Waits(s', other) && other != note ensures Before(s', note, other) {
      assert Waits(s, other);
    }
  }
}
