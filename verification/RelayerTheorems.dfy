/** What holds of every run of the relayer, whatever the page sizes, the feed's growth, failures and
    restarts. */
module RelayerTheorems {
  import opened Basics
  import opened Relayer

  // ---- Every step keeps the invariant ------------------------------------------------------------

  lemma FetchKeeps(w: World, page: Page)
    requires Inv(w) && Enabled(w, Fetch(page))
    ensures Inv(Apply(w, Fetch(page)))
  {
    var p := w.pc.position;
    var top := Apply(w, Fetch(page)).pc.top;
    assert p.resume.None? ==> w.feed[..top] == w.feed;
    assert PageFits(w.feed, p, page, top);
  }

  lemma FilterKeeps(w: World)
    requires Inv(w) && Enabled(w, Filter)
    ensures Inv(Apply(w, Filter))
  {
    var above := Fresh(w.pc.page.entries, w.pc.position.watermark);
    var notes := Unminted(Built(above), w.used);
    forall k | 0 <= k < |above| ensures Handled(above[k], Done(w) + set n | n in notes) {
      if DepositOf(above[k]).Some? { assert DepositOf(above[k]).value in Built(above); }
    }
  }

  lemma ConfirmKeeps(w: World)
    requires Inv(w) && Enabled(w, Confirm)
    ensures Inv(Apply(w, Confirm))
  {
    var landed := w.(onChain := w.onChain + set n | n in w.pc.notes);
    LaterKeeps(w, landed);
    assert Done(landed) == Done(w) + set n | n in w.pc.notes;
  }

  lemma SaveKeeps(w: World)
    requires Inv(w) && Enabled(w, Save)
    ensures Inv(Apply(w, Save))
  {
    var pc := w.pc;
    assert LandedOk(w.feed, Done(w), pc.position, pc.page, pc.top);
    if OutcomeOf(pc.page, pc.position.watermark).next.Some? {
      PageExtends(w.feed, Done(w), pc.position, pc.page, pc.top);
    } else {
      PageCompletes(w.feed, Done(w), pc.position, pc.page, pc.top);
    }
  }

  lemma StepKeeps(w: World, step: Step)
    requires Inv(w) && Enabled(w, step)
    ensures Inv(Apply(w, step))
  {
    match step
    case Grow(_) => LaterKeeps(w, Apply(w, step));
    case Mint(_) => LaterKeeps(w, Apply(w, step));
    case Land(_) => LaterKeeps(w, Apply(w, step));
    case Start => {}
    case Fetch(page) => FetchKeeps(w, page);
    case Filter => FilterKeeps(w);
    case Submit => {}
    case Confirm => ConfirmKeeps(w);
    case Save => SaveKeeps(w);
    case Stop => {}
  }

  lemma StepTaken(run: seq<World>, i: nat) returns (step: Step)
    requires IsRun(run) && i + 1 < |run|
    ensures Enabled(run[i], step) && run[i + 1] == Apply(run[i], step)
  {
    assert StepAt(run, i);
    step :| Enabled(run[i], step) && run[i + 1] == Apply(run[i], step);
  }

  lemma {:induction false} RunKeeps(run: seq<World>, i: nat)
    requires IsRun(run) && i < |run|
    ensures Inv(run[i])
  {
    if i > 0 {
      RunKeeps(run, i - 1);
      var step := StepTaken(run, i - 1);
      StepKeeps(run[i - 1], step);
    }
  }

  // ---- Coverage ----------------------------------------------------------------------------------

  /** In every reachable saved state, the watermark names an entry of the feed and everything at or
      older than it is handled; and with scan progress saved, the recorded head names an entry and
      everything from it down to the one the cursor names is handled. */
  lemma ScanCoversTheFeed(run: seq<World>, i: nat)
    requires IsRun(run) && i < |run|
    ensures var w := run[i];
      && (w.state.watermark.Some? ==>
            exists m :: At(w.feed, w.state.watermark.value, m) && HandledRun(w.feed, Done(w), 0, m + 1))
      && (w.state.scan.Some? ==>
            exists m :: At(w.feed, w.state.scan.value.head, m) && w.state.scan.value.resume <= m
              && HandledRun(w.feed, Done(w), w.state.scan.value.resume, m + 1))
  {
    RunKeeps(run, i);
  }

  /** Once a walk has completed, everything that was in the feed at its head page is handled. */
  lemma SeenIsHandled(w: World)
    requires Inv(w) && w.seen.Some?
    ensures HandledRun(w.feed, Done(w), 0, w.seen.value)
  {
    var n, watermark := w.seen.value, w.state.watermark;
    forall k | 0 <= k < n ensures Handled(w.feed[k], Done(w)) {
      if watermark.Some? {
        var i :| At(w.feed, watermark.value, i) && HandledRun(w.feed, Done(w), 0, i + 1);
        var j :| 0 <= j < n && At(w.feed, watermark.value, j) && UnreadableRun(w.feed, j + 1, n);
        assert i == j;
        if k > j { assert HashOf(w.feed[k]).None?; }
      } else {
        assert HashOf(w.feed[k]).None?;
      }
    }
  }

  // ---- The watermark only moves up ---------------------------------------------------------------

  lemma {:induction false} FeedGrows(run: seq<World>, i: nat, j: nat)
    requires IsRun(run) && i <= j < |run|
    ensures run[i].feed <= run[j].feed
  {
    if i < j {
      FeedGrows(run, i, j - 1);
      var step := StepTaken(run, j - 1);
    }
  }

  /** The entry a hash names, and one at or above it that another names. */
  ghost predicate AtOrAbove(feed: seq<Entry>, older: Option<Hash>, newer: Option<Hash>) {
    older.Some? ==>
      newer.Some? && exists a, b :: At(feed, older.value, a) && At(feed, newer.value, b) && a <= b
  }

  lemma AtOrAboveStays(feed: seq<Entry>, feed': seq<Entry>, older: Option<Hash>, newer: Option<Hash>)
    requires feed <= feed' && AtOrAbove(feed, older, newer)
    ensures AtOrAbove(feed', older, newer)
  {
    if older.Some? {
      var a, b :| At(feed, older.value, a) && At(feed, newer.value, b) && a <= b;
      assert At(feed', older.value, a) && At(feed', newer.value, b);
    }
  }

  lemma StepMovesUp(w: World, step: Step)
    requires Inv(w) && Enabled(w, step)
    ensures AtOrAbove(Apply(w, step).feed, w.state.watermark, Apply(w, step).state.watermark)
  {
    var w' := Apply(w, step);
    if w.state.watermark.Some? {
      var a :| At(w.feed, w.state.watermark.value, a);
      assert At(w'.feed, w.state.watermark.value, a);
      if step.Save? && OutcomeOf(w.pc.page, w.pc.position.watermark).next.None? {
        PageCompletes(w.feed, Done(w), w.pc.position, w.pc.page, w.pc.top);
        assert a < w.pc.top;
        var b :| 0 <= b < w.pc.top && At(w.feed, w'.state.watermark.value, b) && UnreadableRun(w.feed, b + 1, w.pc.top);
        assert a <= b;
      }
    }
  }

  lemma AtOrAboveTrans(feed: seq<Entry>, a: Option<Hash>, b: Option<Hash>, c: Option<Hash>)
    requires Distinct(feed) && AtOrAbove(feed, a, b) && AtOrAbove(feed, b, c)
    ensures AtOrAbove(feed, a, c)
  {}

  /** Every saved watermark is the same as, or newer than, each one saved before it. */
  lemma {:induction false} WatermarkMovesUp(run: seq<World>, i: nat, j: nat)
    requires IsRun(run) && i <= j < |run|
    ensures AtOrAbove(run[j].feed, run[i].state.watermark, run[j].state.watermark)
  {
    RunKeeps(run, j);
    if i < j {
      WatermarkMovesUp(run, i, j - 1);
      RunKeeps(run, j - 1);
      var step := StepTaken(run, j - 1);
      StepMovesUp(run[j - 1], step);
      AtOrAboveStays(run[j - 1].feed, run[j].feed, run[i].state.watermark, run[j - 1].state.watermark);
      AtOrAboveTrans(run[j].feed, run[i].state.watermark, run[j - 1].state.watermark, run[j].state.watermark);
    }
  }

  // ---- A caught-up relayer does nothing ----------------------------------------------------------

  /** The last completed walk saw the whole feed, and no other is under way. */
  predicate CaughtUp(w: World) {
    w.pc.Idle? && w.state.scan.None? && w.seen == Some(|w.feed|)
  }

  /** A scan of a feed whose newest readable entry is the watermark has found nothing. */
  predicate FoundNothing(w: World) {
    && w.state.scan.None?
    && (!w.pc.Idle? ==> w.pc.position.watermark == w.state.watermark && w.pc.position.head.None?)
    && (w.pc.Filtered? || w.pc.Submitted? ==> w.pc.notes == [])
    && !w.pc.Submitted?
  }

  /** The entries above the watermark are unreadable. */
  lemma AboveIsUnreadable(w: World, k: nat)
    requires Inv(w) && !w.pc.Idle? && !w.pc.AtPage? && FoundNothing(w)
    requires NewestBelow(w.feed, |w.feed|, w.state.watermark)
    requires k < FreshCount(w.pc.page.entries, w.state.watermark)
    ensures HashOf(w.pc.page.entries[k]).None?
  {
    var from := From(w.pc.position, w.pc.top);
    PageIndex(w.feed, w.pc.position, w.pc.page, w.pc.top, k);
    if w.state.watermark.Some? {
      var i :| 0 <= i < |w.feed| && At(w.feed, w.state.watermark.value, i) && UnreadableRun(w.feed, i + 1, |w.feed|);
      assert i < from;
      if from - 1 - k < i {
        PageIndex(w.feed, w.pc.position, w.pc.page, w.pc.top, from - 1 - i);
      }
    }
  }

  lemma NothingBuilt(w: World)
    requires Inv(w) && w.pc.Fetched? && FoundNothing(w) && NewestBelow(w.feed, |w.feed|, w.state.watermark)
    ensures Built(Fresh(w.pc.page.entries, w.state.watermark)) == []
  {
    var above := Fresh(w.pc.page.entries, w.state.watermark);
    forall k | 0 <= k < |above| ensures DepositOf(above[k]).None? { AboveIsUnreadable(w, k); }
    if Built(above) != [] { assert Built(above)[0] in Built(above); }
  }

  lemma SavesTheSame(w: World)
    requires Inv(w) && w.pc.Landed? && FoundNothing(w) && NewestBelow(w.feed, |w.feed|, w.state.watermark)
    ensures Apply(w, Save).state == w.state && FoundNothing(Apply(w, Save))
  {
    var entries, n := w.pc.page.entries, FreshCount(w.pc.page.entries, w.state.watermark);
    forall k | 0 <= k < n ensures HashOf(entries[k]).None? { AboveIsUnreadable(w, k); }
    if Newest(entries).Some? {
      var k :| NewestAt(entries, Newest(entries).value, k);
      assert k == n && Matches(entries[n], w.state.watermark);
    } else {
      assert !Reached(entries, w.state.watermark);
      if OutcomeOf(w.pc.page, w.state.watermark).next.None? {
        EndOfWalk(w.feed, Done(w), w.pc.position, w.pc.page, w.pc.top);
      }
    }
  }

  lemma QuietStep(w: World, step: Step)
    requires Inv(w) && Enabled(w, step) && FoundNothing(w) && NewestBelow(w.feed, |w.feed|, w.state.watermark)
    requires Apply(w, step).feed == w.feed
    ensures var w' := Apply(w, step); w'.state == w.state && w'.asked == w.asked && FoundNothing(w')
  {
    if step.Save? { SavesTheSame(w); }
    if step.Filter? { NothingBuilt(w); }
  }

  lemma {:induction false} QuietRun(run: seq<World>, i: nat, j: nat)
    requires IsRun(run) && i <= j < |run| && CaughtUp(run[i]) && run[j].feed == run[i].feed
    ensures run[j].state == run[i].state && run[j].asked == run[i].asked && FoundNothing(run[j])
  {
    if i < j {
      FeedGrows(run, i, j - 1);
      FeedGrows(run, j - 1, j);
      QuietRun(run, i, j - 1);
      RunKeeps(run, i);
      RunKeeps(run, j - 1);
      var step := StepTaken(run, j - 1);
      QuietStep(run[j - 1], step);
    }
  }

  /** Once a walk has completed, scans of the same feed submit nothing and leave the saved state
      equal, even with unreadable entries above the watermark. */
  lemma CaughtUpScansAreIdle(run: seq<World>, i: nat, j: nat)
    requires IsRun(run) && i <= j < |run| && CaughtUp(run[i]) && run[j].feed == run[i].feed
    ensures run[j].state == run[i].state && run[j].asked == run[i].asked
  {
    QuietRun(run, i, j);
  }
}
