/** The deposit relayer's scan: a newest-first walk of a feed that grows at its head, with a durable
    watermark and durable progress (crates/xreserve-deposit-relayer/src/lib.rs and store.rs). */
module Relayer {
  import opened Basics

  type Hash = nat
  type Nonce = nat

  /** A feed entry. An attestation without a deposit does not build into a note, now or later; an
      undecodable entry may still have a readable message hash. */
  datatype Entry = Attestation(hash: Hash, deposit: Option<Nonce>) | Undecodable(readable: Option<Hash>)

  function HashOf(entry: Entry): Option<Hash> {
    match entry case Attestation(hash, _) => Some(hash) case Undecodable(readable) => readable
  }

  function DepositOf(entry: Entry): Option<Nonce> {
    match entry case Attestation(_, deposit) => deposit case Undecodable(_) => None
  }

  /** A cursor names the feed entry that the page after it starts below, counted from the oldest. */
  type Cursor = nat

  datatype ScanProgress = ScanProgress(head: Hash, resume: Cursor)

  /** The persistent state. */
  datatype State = State(watermark: Option<Hash>, scan: Option<ScanProgress>)

  /** Where a scan stands between two of its pages. */
  datatype Position = Position(watermark: Option<Hash>, head: Option<Hash>, resume: Option<Cursor>)

  /** A page, newest entry first. */
  datatype Page = Page(entries: seq<Entry>, next: Option<Cursor>)

  datatype PageOutcome = PageOutcome(newest: Option<Hash>, next: Option<Cursor>)

  function FromState(state: State): Position {
    if state.scan.Some?
    then Position(state.watermark, Some(state.scan.value.head), Some(state.scan.value.resume))
    else Position(state.watermark, None, None)
  }

  /** The progress a position saves; a walk that has met no readable hash yet has none. */
  function StateOf(position: Position): State {
    State(position.watermark,
          if position.head.Some? && position.resume.Some?
          then Some(ScanProgress(position.head.value, position.resume.value)) else None)
  }

  // ---- One page ----------------------------------------------------------------------------------

  predicate Matches(entry: Entry, watermark: Option<Hash>) {
    HashOf(entry).Some? && HashOf(entry) == watermark
  }

  /** How many entries stand above the watermark, all of them when the page does not hold it. */
  function FreshCount(entries: seq<Entry>, watermark: Option<Hash>): (n: nat)
    ensures n <= |entries|
    ensures forall k :: 0 <= k < n ==> !Matches(entries[k], watermark)
    ensures n < |entries| ==> Matches(entries[n], watermark)
  {
    if |entries| == 0 || Matches(entries[0], watermark) then 0 else 1 + FreshCount(entries[1..], watermark)
  }

  predicate Reached(entries: seq<Entry>, watermark: Option<Hash>) {
    FreshCount(entries, watermark) < |entries|
  }

  function Fresh(entries: seq<Entry>, watermark: Option<Hash>): seq<Entry> {
    entries[..FreshCount(entries, watermark)]
  }

  /** The newest readable message hash. */
  function Newest(entries: seq<Entry>): (newest: Option<Hash>)
    ensures newest.None? ==> forall k :: 0 <= k < |entries| ==> HashOf(entries[k]).None?
    ensures newest.Some? ==> exists k :: NewestAt(entries, newest.value, k)
  {
    if |entries| == 0 then None
    else if HashOf(entries[0]).Some? then
      assert NewestAt(entries, HashOf(entries[0]).value, 0);
      HashOf(entries[0])
    else
      var newest := Newest(entries[1..]);
      assert newest.Some? ==> exists k :: NewestAt(entries[1..], newest.value, k) && NewestAt(entries, newest.value, k + 1);
      newest
  }

  predicate NewestAt(entries: seq<Entry>, hash: Hash, k: int) {
    0 <= k < |entries| && HashOf(entries[k]) == Some(hash) && forall m :: 0 <= m < k ==> HashOf(entries[m]).None?
  }

  /** The deposits of the entries that build, in page order. */
  function Built(entries: seq<Entry>): (nonces: seq<Nonce>)
    ensures forall k :: 0 <= k < |entries| && DepositOf(entries[k]).Some? ==> DepositOf(entries[k]).value in nonces
    ensures forall n :: n in nonces ==> exists k :: 0 <= k < |entries| && DepositOf(entries[k]) == Some(n)
  {
    if |entries| == 0 then []
    else
      var last := DepositOf(entries[|entries| - 1]);
      var before := Built(entries[..|entries| - 1]);
      if last.Some? then before + [last.value] else before
  }

  /** The nonces not yet used, in their order. */
  function Unminted(nonces: seq<Nonce>, used: set<Nonce>): (kept: seq<Nonce>)
    ensures forall n :: n in kept <==> n in nonces && n !in used
  {
    if |nonces| == 0 then []
    else
      var last := nonces[|nonces| - 1];
      var before := Unminted(nonces[..|nonces| - 1], used);
      if last in used then before else before + [last]
  }

  function OutcomeOf(page: Page, watermark: Option<Hash>): PageOutcome {
    PageOutcome(Newest(page.entries), if Reached(page.entries, watermark) then None else page.next)
  }

  function Or<T>(a: Option<T>, b: Option<T>): Option<T> {
    if a.Some? then a else b
  }

  /** Where the scan goes after a page, and the state it saves. */
  function Finish(position: Position, outcome: PageOutcome): (Option<Position>, State) {
    var head := Or(position.head, outcome.newest);
    if outcome.next.Some? then
      var next := Position(position.watermark, head, outcome.next);
      (Some(next), StateOf(next))
    else
      (None, State(Or(head, position.watermark), None))
  }

  // ---- The feed ----------------------------------------------------------------------------------

  /** Readable message hashes name one entry each. */
  predicate Distinct(feed: seq<Entry>) {
    forall i, j :: 0 <= i < |feed| && 0 <= j < |feed| && HashOf(feed[i]).Some? && HashOf(feed[i]) == HashOf(feed[j]) ==> i == j
  }

  /** A page of the feed, whatever its size: the entries below the cursor, newest first, and the
      cursor for what is left. The feed is kept oldest first, so that it grows at its end. */
  predicate IsPage(feed: seq<Entry>, cursor: Option<Cursor>, page: Page) {
    var top := if cursor.Some? then cursor.value else |feed|;
    && |page.entries| <= top <= |feed|
    && (forall k :: 0 <= k < |page.entries| ==> page.entries[k] == feed[top - 1 - k])
    && (page.next.None? ==> |page.entries| == top)
    && (page.next.Some? ==> |page.entries| > 0 && page.next.value == top - |page.entries|)
  }

  // ---- The machine -------------------------------------------------------------------------------

  /** Where the process is. `top` is the feed's length when the walk fetched its head page. */
  datatype Pc =
    | Idle
    | AtPage(position: Position, top: nat)
    | Fetched(position: Position, page: Page, top: nat)
    | Filtered(position: Position, page: Page, notes: seq<Nonce>, top: nat)
    | Submitted(position: Position, page: Page, notes: seq<Nonce>, top: nat)
    | Landed(position: Position, page: Page, top: nat)

  /** `onChain` are the deposits with a mint note on chain, `used` those the faucet has minted.
      `asked` is every transaction ever submitted; `saved` is `top` of the walk whose progress is
      saved, and `seen` of the last walk completed. Those three are history. */
  datatype World = World(
    feed: seq<Entry>, onChain: set<Nonce>, used: set<Nonce>,
    state: State, pc: Pc,
    asked: seq<seq<Nonce>>, saved: nat, seen: Option<nat>)

  datatype Step =
    | Grow(entry: Entry)
    | Mint(nonce: Nonce)
    | Land(nonces: set<Nonce>)
    | Start
    | Fetch(page: Page)
    | Filter
    | Submit
    | Confirm
    | Save
    | Stop

  predicate Enabled(w: World, step: Step) {
    match step
    case Grow(entry) => Distinct(w.feed + [entry])
    case Mint(_) => true
    case Land(_) => true
    case Start => w.pc.Idle?
    case Fetch(page) => w.pc.AtPage? && IsPage(w.feed, w.pc.position.resume, page)
    case Filter => w.pc.Fetched?
    case Submit => w.pc.Filtered? && w.pc.notes != []
    case Confirm => w.pc.Submitted? || (w.pc.Filtered? && w.pc.notes == [])
    case Save => w.pc.Landed?
    case Stop => true
  }

  function Apply(w: World, step: Step): World
    requires Enabled(w, step)
  {
    match step
    case Grow(entry) => w.(feed := w.feed + [entry])
    case Mint(nonce) => w.(used := w.used + {nonce})
    // A submitted transaction may land although its wait was given up.
    case Land(nonces) => w.(onChain := w.onChain + nonces)
    case Start => w.(pc := AtPage(FromState(w.state), w.saved))
    case Fetch(page) =>
      w.(pc := Fetched(w.pc.position, page, if w.pc.position.resume.None? then |w.feed| else w.pc.top))
    case Filter =>
      var notes := Unminted(Built(Fresh(w.pc.page.entries, w.pc.position.watermark)), w.used);
      w.(pc := Filtered(w.pc.position, w.pc.page, notes, w.pc.top))
    case Submit =>
      w.(pc := Submitted(w.pc.position, w.pc.page, w.pc.notes, w.pc.top), asked := w.asked + [w.pc.notes])
    // The page is done only once its transaction is included on chain.
    case Confirm =>
      w.(pc := Landed(w.pc.position, w.pc.page, w.pc.top), onChain := w.onChain + set n | n in w.pc.notes)
    case Save =>
      var (next, state) := Finish(w.pc.position, OutcomeOf(w.pc.page, w.pc.position.watermark));
      w.(state := state,
         pc := if next.Some? then AtPage(next.value, w.pc.top) else Idle,
         saved := w.pc.top,
         seen := if next.Some? then w.seen else Some(w.pc.top))
    // A failure, a crash or a shutdown.
    case Stop => w.(pc := Idle)
  }

  predicate Init(w: World) {
    w.feed == [] && w.state == State(None, None) && w.pc == Idle && w.seen == None
  }

  ghost predicate StepAt(run: seq<World>, i: nat) {
    i + 1 < |run| ==> exists step :: Enabled(run[i], step) && run[i + 1] == Apply(run[i], step)
  }

  ghost predicate IsRun(run: seq<World>) {
    |run| > 0 && Init(run[0]) && forall i :: StepAt(run, i)
  }

  // ---- The invariant -----------------------------------------------------------------------------

  /** The entry needs nothing more: it can never build, its note is on chain, or its nonce is used. */
  predicate Handled(entry: Entry, done: set<Nonce>) {
    DepositOf(entry).Some? ==> DepositOf(entry).value in done
  }

  predicate HandledRun(feed: seq<Entry>, done: set<Nonce>, lo: int, hi: int) {
    0 <= lo && hi <= |feed| && forall k :: lo <= k < hi ==> Handled(feed[k], done)
  }

  predicate UnreadableRun(feed: seq<Entry>, lo: int, hi: int) {
    0 <= lo && hi <= |feed| && forall k :: lo <= k < hi ==> HashOf(feed[k]).None?
  }

  predicate At(feed: seq<Entry>, hash: Hash, i: int) {
    0 <= i < |feed| && HashOf(feed[i]) == Some(hash)
  }

  function Done(w: World): set<Nonce> { w.onChain + w.used }

  /** Everything at or older than the watermark is handled. */
  ghost predicate WatermarkCovers(feed: seq<Entry>, done: set<Nonce>, watermark: Option<Hash>) {
    watermark.Some? ==> exists i :: At(feed, watermark.value, i) && HandledRun(feed, done, 0, i + 1)
  }

  /** The walk's head stands at entry `j`: the newest readable one below `top`, and everything from
      it down to `low` is handled. */
  predicate HeadAt(feed: seq<Entry>, done: set<Nonce>, head: Hash, low: int, top: nat, j: int) {
    && 0 <= j < top && At(feed, head, j) && UnreadableRun(feed, j + 1, top)
    && HandledRun(feed, done, low, j + 1)
  }

  /** What a walk has done so far. The watermark is still below its cursor. */
  ghost predicate WalkCovers(feed: seq<Entry>, done: set<Nonce>, p: Position, top: nat) {
    match p.resume
    case None => p.head.None?
    case Some(c) =>
      && c < top <= |feed|
      && (forall i :: p.watermark.Some? && At(feed, p.watermark.value, i) ==> i < c)
      && (p.head.None? ==> UnreadableRun(feed, c, top))
      && (p.head.Some? ==> exists j :: c <= j && HeadAt(feed, done, p.head.value, c, top, j))
  }

  /** The coverage of a saved state. */
  ghost predicate Covered(feed: seq<Entry>, done: set<Nonce>, state: State, top: nat) {
    WatermarkCovers(feed, done, state.watermark) && WalkCovers(feed, done, FromState(state), top)
  }

  /** `hash` is the newest readable one among the oldest `n` entries. */
  ghost predicate NewestBelow(feed: seq<Entry>, n: nat, hash: Option<Hash>) {
    && n <= |feed|
    && (hash.None? ==> UnreadableRun(feed, 0, n))
    && (hash.Some? ==> exists i :: 0 <= i < n && At(feed, hash.value, i) && UnreadableRun(feed, i + 1, n))
  }

  /** The page is one of the feed as it stood at the walk's head page, watermark included. */
  ghost predicate PageFits(feed: seq<Entry>, p: Position, page: Page, top: nat) {
    && top <= |feed| && IsPage(feed[..top], p.resume, page)
    && (forall i :: p.watermark.Some? && At(feed, p.watermark.value, i) ==> i < top)
  }

  /** The page's entries stand right below this one of the feed. */
  function From(p: Position, top: nat): nat {
    if p.resume.Some? then p.resume.value else top
  }

  predicate AllHandled(entries: seq<Entry>, done: set<Nonce>) {
    forall k :: 0 <= k < |entries| ==> Handled(entries[k], done)
  }

  ghost predicate PcOk(w: World) {
    match w.pc
    case Idle => true
    case AtPage(p, top) => w.state == StateOf(p) && WalkCovers(w.feed, Done(w), p, top)
    case Fetched(p, page, top) => w.state == StateOf(p) && WalkCovers(w.feed, Done(w), p, top) && PageFits(w.feed, p, page, top)
    case Filtered(p, page, notes, top) =>
      && w.state == StateOf(p) && WalkCovers(w.feed, Done(w), p, top) && PageFits(w.feed, p, page, top)
      && AllHandled(Fresh(page.entries, p.watermark), Done(w) + set n | n in notes)
    case Submitted(p, page, notes, top) =>
      && w.state == StateOf(p) && WalkCovers(w.feed, Done(w), p, top) && PageFits(w.feed, p, page, top)
      && AllHandled(Fresh(page.entries, p.watermark), Done(w) + set n | n in notes)
    case Landed(p, page, top) =>
      && w.state == StateOf(p) && WalkCovers(w.feed, Done(w), p, top) && PageFits(w.feed, p, page, top)
      && AllHandled(Fresh(page.entries, p.watermark), Done(w))
  }

  ghost predicate Inv(w: World) {
    && Distinct(w.feed)
    && Covered(w.feed, Done(w), w.state, w.saved)
    && (if w.seen.Some? then NewestBelow(w.feed, w.seen.value, w.state.watermark) else w.state.watermark.None?)
    && PcOk(w)
  }

  // ---- The feed grows, deposits get done ---------------------------------------------------------

  ghost predicate Later(feed: seq<Entry>, done: set<Nonce>, feed': seq<Entry>, done': set<Nonce>) {
    feed <= feed' && Distinct(feed') && done <= done'
  }

  lemma AtStays(feed: seq<Entry>, feed': seq<Entry>, hash: Hash, i: int, j: int)
    requires feed <= feed' && Distinct(feed') && At(feed, hash, i)
    ensures At(feed', hash, i)
    ensures At(feed', hash, j) ==> j == i
  {
    assert HashOf(feed'[i]) == Some(hash);
  }

  lemma WatermarkStays(feed: seq<Entry>, done: set<Nonce>, feed': seq<Entry>, done': set<Nonce>, watermark: Option<Hash>)
    requires Later(feed, done, feed', done') && WatermarkCovers(feed, done, watermark)
    ensures WatermarkCovers(feed', done', watermark)
  {
    if watermark.Some? {
      var i :| At(feed, watermark.value, i) && HandledRun(feed, done, 0, i + 1);
      AtStays(feed, feed', watermark.value, i, i);
      assert HandledRun(feed', done', 0, i + 1);
    }
  }

  lemma WalkStays(feed: seq<Entry>, done: set<Nonce>, feed': seq<Entry>, done': set<Nonce>, p: Position, top: nat)
    requires Later(feed, done, feed', done') && WatermarkCovers(feed, done, p.watermark) && WalkCovers(feed, done, p, top)
    ensures WalkCovers(feed', done', p, top)
  {
    if p.resume.Some? {
      if p.watermark.Some? {
        var i :| At(feed, p.watermark.value, i);
        forall j | At(feed', p.watermark.value, j) ensures j < p.resume.value { AtStays(feed, feed', p.watermark.value, i, j); }
      }
      if p.head.Some? {
        var j :| p.resume.value <= j && HeadAt(feed, done, p.head.value, p.resume.value, top, j);
        assert HeadAt(feed', done', p.head.value, p.resume.value, top, j);
      }
    }
  }

  lemma NewestStays(feed: seq<Entry>, feed': seq<Entry>, n: nat, hash: Option<Hash>)
    requires feed <= feed' && NewestBelow(feed, n, hash)
    ensures NewestBelow(feed', n, hash)
  {
    if hash.Some? {
      var i :| 0 <= i < n && At(feed, hash.value, i) && UnreadableRun(feed, i + 1, n);
      assert At(feed', hash.value, i) && UnreadableRun(feed', i + 1, n);
    }
  }

  lemma FitStays(feed: seq<Entry>, done: set<Nonce>, feed': seq<Entry>, p: Position, page: Page, top: nat)
    requires feed <= feed' && Distinct(feed') && WatermarkCovers(feed, done, p.watermark) && PageFits(feed, p, page, top)
    ensures PageFits(feed', p, page, top)
  {
    assert feed'[..top] == feed[..top];
    if p.watermark.Some? {
      var i :| At(feed, p.watermark.value, i);
      forall j | At(feed', p.watermark.value, j) ensures j < top { AtStays(feed, feed', p.watermark.value, i, j); }
    }
  }

  /** The environment's steps keep the invariant. */
  lemma LaterKeeps(w: World, w': World)
    requires Inv(w) && Later(w.feed, Done(w), w'.feed, Done(w'))
    requires w' == w.(feed := w'.feed, onChain := w'.onChain, used := w'.used)
    ensures Inv(w')
  {
    WatermarkStays(w.feed, Done(w), w'.feed, Done(w'), w.state.watermark);
    WalkStays(w.feed, Done(w), w'.feed, Done(w'), FromState(w.state), w.saved);
    if w.seen.Some? { NewestStays(w.feed, w'.feed, w.seen.value, w.state.watermark); }
    if !w.pc.Idle? {
      WalkStays(w.feed, Done(w), w'.feed, Done(w'), w.pc.position, w.pc.top);
      if !w.pc.AtPage? { FitStays(w.feed, Done(w), w'.feed, w.pc.position, w.pc.page, w.pc.top); }
    }
  }

  // ---- One page ----------------------------------------------------------------------------------

  /** Entry `k` of the page is entry `From - 1 - k` of the feed. */
  lemma PageIndex(feed: seq<Entry>, p: Position, page: Page, top: nat, k: int)
    requires PageFits(feed, p, page, top) && 0 <= k < |page.entries|
    ensures 0 <= From(p, top) - 1 - k < top && page.entries[k] == feed[From(p, top) - 1 - k]
  {}

  /** A page's fresh part is a stretch of the feed below where the walk stood. */
  lemma FreshRun(feed: seq<Entry>, done: set<Nonce>, p: Position, page: Page, top: nat)
    requires PageFits(feed, p, page, top) && AllHandled(Fresh(page.entries, p.watermark), done)
    ensures HandledRun(feed, done, From(p, top) - FreshCount(page.entries, p.watermark), From(p, top))
  {
    var from := From(p, top);
    var above := Fresh(page.entries, p.watermark);
    forall k | from - |above| <= k < from ensures Handled(feed[k], done) {
      PageIndex(feed, p, page, top, from - 1 - k);
      assert above[from - 1 - k] == feed[k];
    }
  }

  /** The head after the page, with everything from it down to the end of the fresh part handled. */
  lemma HeadAfter(feed: seq<Entry>, done: set<Nonce>, p: Position, page: Page, top: nat, low: nat)
    requires WalkCovers(feed, done, p, top) && PageFits(feed, p, page, top)
    requires low <= From(p, top) && HandledRun(feed, done, low, From(p, top))
    ensures var head := Or(p.head, Newest(page.entries));
      && (head.None? ==> UnreadableRun(feed, From(p, top) - |page.entries|, top))
      && (head.Some? ==> exists j :: From(p, top) - |page.entries| <= j && HeadAt(feed, done, head.value, low, top, j))
  {
    var from := From(p, top);
    if p.head.Some? {
      var j :| from <= j && HeadAt(feed, done, p.head.value, from, top, j);
      assert HeadAt(feed, done, p.head.value, low, top, j);
    } else if Newest(page.entries).Some? {
      var hash := Newest(page.entries).value;
      var k :| NewestAt(page.entries, hash, k);
      var j := from - 1 - k;
      PageIndex(feed, p, page, top, k);
      forall m | j < m < from ensures HashOf(feed[m]).None? { PageIndex(feed, p, page, top, from - 1 - m); }
      assert HeadAt(feed, done, hash, low, top, j);
    } else {
      forall m | from - |page.entries| <= m < from ensures HashOf(feed[m]).None? {
        PageIndex(feed, p, page, top, from - 1 - m);
      }
    }
  }

  ghost predicate LandedOk(feed: seq<Entry>, done: set<Nonce>, p: Position, page: Page, top: nat) {
    && Distinct(feed) && WatermarkCovers(feed, done, p.watermark)
    && WalkCovers(feed, done, p, top) && PageFits(feed, p, page, top)
    && AllHandled(Fresh(page.entries, p.watermark), done)
  }

  /** A page that leaves more to walk extends the walk down to its cursor. */
  lemma PageExtends(feed: seq<Entry>, done: set<Nonce>, p: Position, page: Page, top: nat)
    requires LandedOk(feed, done, p, page, top) && OutcomeOf(page, p.watermark).next.Some?
    ensures WalkCovers(feed, done, Finish(p, OutcomeOf(page, p.watermark)).0.value, top)
  {
    var from := From(p, top);
    var low := page.next.value;
    FreshRun(feed, done, p, page, top);
    HeadAfter(feed, done, p, page, top, low);
    if p.watermark.Some? {
      forall i | At(feed, p.watermark.value, i) ensures i < low {
        assert i < from;
        if low <= i { PageIndex(feed, p, page, top, from - 1 - i); }
      }
    }
  }

  /** Below the fresh part of the last page everything was handled before. */
  lemma EndOfWalk(feed: seq<Entry>, done: set<Nonce>, p: Position, page: Page, top: nat)
    requires LandedOk(feed, done, p, page, top) && OutcomeOf(page, p.watermark).next.None?
    ensures HandledRun(feed, done, 0, From(p, top) - FreshCount(page.entries, p.watermark))
    ensures p.watermark.Some? ==> Reached(page.entries, p.watermark)
  {
    var from := From(p, top);
    var n := FreshCount(page.entries, p.watermark);
    if Reached(page.entries, p.watermark) {
      PageIndex(feed, p, page, top, n);
      var i :| At(feed, p.watermark.value, i) && HandledRun(feed, done, 0, i + 1);
      assert HashOf(feed[from - 1 - n]) == HashOf(feed[i]);
    } else if p.watermark.Some? {
      var i :| At(feed, p.watermark.value, i);
      assert i < from;
      PageIndex(feed, p, page, top, from - 1 - i);
    }
  }

  /** A page that ends the walk leaves everything from its head down handled. */
  lemma PageCompletes(feed: seq<Entry>, done: set<Nonce>, p: Position, page: Page, top: nat)
    requires LandedOk(feed, done, p, page, top) && OutcomeOf(page, p.watermark).next.None?
    ensures var state := Finish(p, OutcomeOf(page, p.watermark)).1;
      WatermarkCovers(feed, done, state.watermark) && NewestBelow(feed, top, state.watermark)
  {
    var low := From(p, top) - FreshCount(page.entries, p.watermark);
    FreshRun(feed, done, p, page, top);
    EndOfWalk(feed, done, p, page, top);
    HeadAfter(feed, done, p, page, top, low);
    var head := Or(p.head, Newest(page.entries));
    if head.Some? {
      var j :| From(p, top) - |page.entries| <= j && HeadAt(feed, done, head.value, low, top, j);
      assert HandledRun(feed, done, 0, j + 1);
    }
  }
}
