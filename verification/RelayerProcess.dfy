/** The relayer's loops, each proved against the scan's specification, and the process as a whole
    against the relayer's state machine (crates/xreserve-deposit-relayer/src/lib.rs and miden.rs). */
module RelayerProcess {
  import opened Basics
  import opened Relayer
  import opened RelayerTheorems

  // ---- Waiting for inclusion ---------------------------------------------------------------------

  datatype TxStatus = Committed(block: nat) | Discarded | Pending

  /** What one round of the wait observes: a failed sync, or the transaction's record and the tip. */
  datatype Sync = SyncFailed(transient: bool) | Untracked | Synced(status: TxStatus, tip: nat, expiration: nat)

  datatype Inclusion = Included(block: nat) | NeverLands | StillWaiting

  const FAILED_SYNCS_BEFORE_GIVING_UP: nat := 3

  function InclusionOf(status: TxStatus, tip: nat, expiration: nat): Inclusion {
    match status
    case Committed(block) => Included(block)
    case Discarded => NeverLands
    case Pending => if tip >= expiration then NeverLands else StillWaiting
  }

  datatype WaitEnd = OnChain(block: nat) | Failed | Undecided

  /** Round `k` and the two before it all failed to sync. */
  predicate ThreeFailed(rounds: seq<Sync>, k: nat) {
    2 <= k < |rounds| && forall i :: k - 2 <= i <= k ==> rounds[i].SyncFailed?
  }

  /** Round `k` ends the wait. */
  predicate Decides(rounds: seq<Sync>, k: nat)
    requires k < |rounds|
  {
    match rounds[k]
    case SyncFailed(transient) => !transient || ThreeFailed(rounds, k)
    case Untracked => true
    case Synced(status, tip, expiration) => InclusionOf(status, tip, expiration) != StillWaiting
  }

  /** Waits for a submitted transaction. The wait ends at its first deciding round: the transaction
      is on chain, can never be, or the node stays unreachable for three syncs in a row. */
  method WaitForInclusion(rounds: seq<Sync>) returns (end: WaitEnd, n: nat)
    ensures n <= |rounds| && forall k :: 0 <= k < n - 1 ==> !Decides(rounds, k)
    ensures end.Undecided? ==> n == |rounds| && (n > 0 ==> !Decides(rounds, n - 1))
    ensures !end.Undecided? ==> n > 0 && Decides(rounds, n - 1)
    ensures end.OnChain? <==> n > 0 && rounds[n - 1].Synced? && rounds[n - 1].status.Committed?
    ensures end.OnChain? ==> rounds[n - 1].status.block == end.block
  {
    var failedSyncs := 0;
    n := 0;
    while n < |rounds|
      invariant n <= |rounds| && failedSyncs <= n && failedSyncs < FAILED_SYNCS_BEFORE_GIVING_UP
      invariant forall k :: 0 <= k < n ==> !Decides(rounds, k)
      invariant forall k :: n - failedSyncs <= k < n ==> rounds[k].SyncFailed?
      invariant failedSyncs < n ==> !rounds[n - failedSyncs - 1].SyncFailed?
    {
      var round := rounds[n];
      n := n + 1;
      match round
      case SyncFailed(transient) =>
        failedSyncs := failedSyncs + 1;
        if !(transient && failedSyncs < FAILED_SYNCS_BEFORE_GIVING_UP) {
          return Failed, n;
        }
      case Untracked => return Failed, n;
      case Synced(status, tip, expiration) =>
        failedSyncs := 0;
        match InclusionOf(status, tip, expiration)
        case Included(block) => return OnChain(block), n;
        case NeverLands => return Failed, n;
        case StillWaiting => {}
    }
    end := Undecided;
  }

  // ---- The loops of one page ---------------------------------------------------------------------

  /** Where the watermark stands on the page, or its length. */
  method FindWatermark(entries: seq<Entry>, watermark: Option<Hash>) returns (n: nat)
    ensures n == FreshCount(entries, watermark)
  {
    n := 0;
    while n < |entries| && !Matches(entries[n], watermark)
      invariant n <= |entries| && forall k :: 0 <= k < n ==> !Matches(entries[k], watermark)
    {
      n := n + 1;
    }
  }

  method BuildNotes(entries: seq<Entry>) returns (notes: seq<Nonce>, skipped: seq<Option<Hash>>)
    ensures notes == Built(entries) && |notes| + |skipped| == |entries|
  {
    notes, skipped := [], [];
    for i := 0 to |entries|
      invariant notes == Built(entries[..i]) && |notes| + |skipped| == i
    {
      assert entries[..i + 1][..i] == entries[..i];
      if DepositOf(entries[i]).Some? {
        notes := notes + [DepositOf(entries[i]).value];
      } else {
        skipped := skipped + [HashOf(entries[i])];
      }
    }
    assert entries[..|entries|] == entries;
  }

  /** Reads each nonce's entry in the faucet's used-nonce map. */
  method KeepUnminted(nonces: seq<Nonce>, used: set<Nonce>) returns (kept: seq<Nonce>)
    ensures kept == Unminted(nonces, used)
  {
    kept := [];
    for i := 0 to |nonces|
      invariant kept == Unminted(nonces[..i], used)
    {
      assert nonces[..i + 1][..i] == nonces[..i];
      if nonces[i] !in used { kept := kept + [nonces[i]]; }
    }
    assert nonces[..|nonces|] == nonces;
  }

  // ---- The process -------------------------------------------------------------------------------

  datatype ScanOutcome = Complete | Stopped | FailedScan

  /** The relayer, with Circle's feed and the chain beside it. `run` is everything that has happened;
      a crash may cut it anywhere, since each of its prefixes is a run too. */
  class Relay {
    var state: State
    var feed: seq<Entry>
    var onChain: set<Nonce>
    var used: set<Nonce>
    ghost var run: seq<World>

    ghost predicate Valid() reads this {
      && IsRun(run)
      && Now().state == state && Now().feed == feed && Now().onChain == onChain && Now().used == used
    }

    ghost function Now(): World
      requires |run| > 0
      reads this
    {
      run[|run| - 1]
    }

    constructor ()
      ensures Valid() && Now().pc.Idle? && state == State(None, None)
    {
      state, feed, onChain, used := State(None, None), [], {}, {};
      run := [World([], {}, {}, State(None, None), Idle, [], 0, None)];
    }

    ghost method Take(step: Step)
      requires IsRun(run) && Enabled(Now(), step)
      modifies this`run
      ensures IsRun(run) && run == old(run) + [Apply(old(Now()), step)]
    {
      var next := Apply(Now(), step);
      ExtendsRun(run, step);
      run := run + [next];
    }

    /** Time passes: deposits arrive, the faucet mints, and given-up transactions may still land. */
    method Elapse()
      requires Valid()
      modifies this`feed, this`onChain, this`used, this`run
      ensures Valid() && Now().pc == old(Now().pc) && old(run) <= run && old(feed) <= feed
      ensures Now().asked == old(Now().asked) && Now().seen == old(Now().seen)
    {
      var rounds: nat := *;
      while rounds > 0
        invariant Valid() && Now().pc == old(Now().pc) && old(run) <= run && old(feed) <= feed
        invariant Now().asked == old(Now().asked) && Now().seen == old(Now().seen)
      {
        Happens();
        rounds := rounds - 1;
      }
    }

    /** One thing that may happen outside. */
    method Happens()
      requires Valid()
      modifies this`feed, this`onChain, this`used, this`run
      ensures Valid() && Now().pc == old(Now().pc) && old(run) <= run && old(feed) <= feed
      ensures Now().asked == old(Now().asked) && Now().seen == old(Now().seen)
    {
      var what: int, entry: Entry, nonce: Nonce, landed: set<Nonce> := *, *, *, *;
      if what == 0 && Distinct(feed + [entry]) {
        feed := feed + [entry];
        Take(Grow(entry));
      } else if what == 1 {
        used := used + {nonce};
        Take(Mint(nonce));
      } else if what == 2 {
        onChain := onChain + landed;
        Take(Land(landed));
      }
    }

    method FetchPage(resume: Option<Cursor>) returns (fetched: Option<Page>)
      requires Valid() && Now().pc.AtPage? && Now().pc.position.resume == resume
      requires resume.Some? ==> resume.value <= |feed|
      modifies this`run
      ensures Valid() && old(run) <= run
      ensures fetched.None? ==> Now() == old(Now())
      ensures fetched.Some? ==> Now().pc.Fetched? && Now().pc.page == fetched.value && Now().pc.position == old(Now().pc.position)
      ensures fetched.Some? ==> Now().pc.top == if resume.None? then |feed| else old(Now().pc.top)
    {
      var failed: bool := *;
      if failed { return None; }
      ghost var whole := WholePage(feed, resume);
      var page :| IsPage(feed, resume, page);
      Take(Fetch(page));
      fetched := Some(page);
    }

    /** Submits the notes as one transaction, and returns whether it is on chain. */
    method SubmitNotes(notes: seq<Nonce>) returns (included: bool)
      requires Valid() && Now().pc.Filtered? && Now().pc.notes == notes && notes != []
      modifies this
      ensures Valid() && old(run) <= run && old(feed) <= feed && state == old(state)
      ensures included ==> Now().pc == Landed(old(Now().pc.position), old(Now().pc.page), old(Now().pc.top))
    {
      Take(Submit);
      Elapse();
      var rounds: seq<Sync> := *;
      var end, _ := WaitForInclusion(rounds);
      included := end.OnChain?;
      if included {
        onChain := onChain + set n | n in notes;
        Take(Confirm);
      }
    }

    /** Mints the entries of a fetched page above the watermark. */
    method MintFresh(position: Position, page: Page, reached: nat) returns (minted: bool)
      requires Valid() && Now().pc.Fetched? && Now().pc.position == position && Now().pc.page == page
      requires reached == FreshCount(page.entries, position.watermark)
      modifies this
      ensures Valid() && old(run) <= run && old(feed) <= feed && state == old(state)
      ensures minted ==> Now().pc == Landed(position, page, old(Now().pc.top))
    {
      var built, skipped := BuildNotes(page.entries[..reached]);
      var synced: bool := *;
      if !synced { return false; }
      var notes := KeepUnminted(built, used);
      Take(Filter);
      if notes != [] {
        minted := SubmitNotes(notes);
      } else {
        Take(Confirm);
        assert onChain + (set n | n in notes) == onChain;
        minted := true;
      }
    }

    /** Fetches one page and mints what stands above the watermark; a page that succeeds is on chain. */
    method ProcessPage(position: Position) returns (outcome: Option<PageOutcome>)
      requires Valid() && Now().pc.AtPage? && Now().pc.position == position
      modifies this
      ensures Valid() && old(run) <= run && old(feed) <= feed && state == old(state)
      ensures outcome.Some? ==> Now().pc.Landed? && Now().pc.position == position
      ensures outcome.Some? ==> outcome.value == OutcomeOf(Now().pc.page, position.watermark)
      ensures outcome.Some? ==> WalksFrom(position, old(Now().pc.top), |old(feed)|, Now().pc.top)
    {
      Elapse();
      RunKeeps(run, |run| - 1);
      var fetched := FetchPage(position.resume);
      if fetched.None? { return None; }
      var page := fetched.value;
      Elapse();
      var reached := FindWatermark(page.entries, position.watermark);
      var minted := MintFresh(position, page, reached);
      if !minted { return None; }
      Elapse();
      outcome := Some(PageOutcome(Newest(page.entries), if reached < |page.entries| then None else page.next));
    }

    /** Processes the page and saves the progress that follows it. */
    method FinishPage(position: Position) returns (done: bool, next: Option<Position>)
      requires Valid() && Now().pc.AtPage? && Now().pc.position == position
      modifies this
      ensures Valid() && old(run) <= run && old(feed) <= feed
      ensures !done ==> Now().pc.Idle? && state == old(state)
      ensures done && next.None? ==> Now().pc.Idle? && Now().seen.Some? && state.scan.None?
      ensures done && next.Some? ==> Now().pc.AtPage? && Now().pc.position == next.value && state == StateOf(next.value)
      ensures done && next.Some? ==> next.value.resume.Some? && next.value.watermark == position.watermark
      ensures done && next.Some? && position.resume.Some? ==> next.value.resume.value < position.resume.value
      ensures done && next.Some? ==> WalksFrom(position, old(Now().pc.top), |old(feed)|, Now().pc.top)
      ensures done && next.None? ==> WalksFrom(position, old(Now().pc.top), |old(feed)|, Now().seen.value)
    {
      var outcome := ProcessPage(position);
      if outcome.None? {
        Take(Stop);
        return false, None;
      }
      RunKeeps(run, |run| - 1);
      var head := if position.head.Some? then position.head else outcome.value.newest;
      var saved: State;
      if outcome.value.next.Some? {
        next := Some(Position(position.watermark, head, outcome.value.next));
        saved := StateOf(next.value);
      } else {
        next := None;
        saved := State(if head.Some? then head else position.watermark, None);
      }
      if saved != StateOf(position) {
        var written: bool := *;
        if !written {
          Take(Stop);
          return false, None;
        }
        state := saved;
      }
      Take(Save);
      done := true;
    }

    /** One scan: it resumes where an interrupted one stopped, and each page moves its cursor down.
        When a scan that began afresh completes, everything that was in the feed when it began is
        handled. */
    method Scan() returns (outcome: ScanOutcome)
      requires Valid() && Now().pc.Idle?
      modifies this
      ensures Valid() && Now().pc.Idle? && old(run) <= run
      ensures outcome.Complete? ==> state.scan.None? && Now().seen.Some?
      ensures outcome.Complete? && old(state).scan.None? ==> HandledRun(feed, onChain + used, 0, |old(feed)|)
    {
      var position := FromState(state);
      Take(Start);
      while true
        invariant Valid() && Now().pc.AtPage? && Now().pc.position == position && old(run) <= run
        invariant |old(feed)| <= |feed|
        invariant old(state).scan.None? && position.resume.Some? ==> |old(feed)| <= Now().pc.top
        invariant old(state).scan.None? && position.resume.None? ==> position.head.None?
        decreases if position.resume.None? then 1 else 0, if position.resume.Some? then position.resume.value else 0
      {
        var shutdown: bool := *;
        if shutdown {
          Take(Stop);
          return Stopped;
        }
        var done, next := FinishPage(position);
        if !done { return FailedScan; }
        var stopping: bool := *;
        if stopping {
          if next.Some? { Take(Stop); }
          return Stopped;
        }
        if next.None? {
          RunKeeps(run, |run| - 1);
          SeenIsHandled(Now());
          return Complete;
        }
        position := next.value;
      }
    }
  }

  /** The walk a page belongs to began when the feed had `top` entries: at this page, or before. */
  predicate WalksFrom(position: Position, before: nat, size: nat, top: nat) {
    if position.resume.Some? then top == before else size <= top
  }

  lemma ExtendsRun(run: seq<World>, step: Step)
    requires IsRun(run) && Enabled(run[|run| - 1], step)
    ensures IsRun(run + [Apply(run[|run| - 1], step)])
  {
    var longer := run + [Apply(run[|run| - 1], step)];
    forall i: nat ensures StepAt(longer, i) {
      if i + 1 < |run| {
        var taken := StepTaken(run, i);
        assert Enabled(longer[i], taken) && longer[i + 1] == Apply(longer[i], taken);
      } else if i + 1 == |run| {
        assert Enabled(longer[i], step) && longer[i + 1] == Apply(longer[i], step);
      }
    }
  }

  /** Crash safety: wherever a run is cut, what happened so far is a run that can stop there. */
  lemma CrashAnywhere(run: seq<World>, n: nat)
    requires IsRun(run) && 0 < n <= |run|
    ensures IsRun(run[..n]) && IsRun(run[..n] + [run[n - 1].(pc := Idle)])
  {
    var cut := run[..n];
    forall i: nat ensures StepAt(cut, i) {
      assert StepAt(run, i);
      assert i + 1 < n ==> cut[i] == run[i] && cut[i + 1] == run[i + 1];
    }
    ExtendsRun(cut, Stop);
  }

  /** Whatever the cursor, some page answers it. */
  lemma WholePage(feed: seq<Entry>, cursor: Option<Cursor>) returns (page: Page)
    requires cursor.Some? ==> cursor.value <= |feed|
    ensures IsPage(feed, cursor, page)
  {
    var top := if cursor.Some? then cursor.value else |feed|;
    page := Page(seq(top, k requires 0 <= k < top => feed[top - 1 - k]), None);
  }
}
