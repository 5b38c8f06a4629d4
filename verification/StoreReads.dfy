/** The store's listings and counts: paged holds and the progress the alerts read
    (crates/xusdc-light-attester/src/store.rs). */
module StoreReads {
  import opened Basics
  import opened Submission
  import opened StoreSpec
  import opened StoreInvariant

  // ---- Holds, page by page -----------------------------------------------------------------------

  const HOLDS_PAGE: nat := 100

  /** A listed hold, with the answer of Circle's that led to it, if one did. */
  datatype HoldEntry = HoldEntry(note: NoteId, hold: Hold, revision: Option<nat>, answer: Shown)

  datatype Shown = Shown(http: Option<HttpStatus>, message: Option<string>)

  function AnswerIn(http: Option<HttpStatus>, response: Option<Body>): Shown {
    Shown(http, if response.Some? then response.value.message else None)
  }

  /** The note's latest hold row. */
  function LatestHeld(events: seq<Event>, note: NoteId): Option<Event> {
    if |events| == 0 then None
    else
      var last := events[|events| - 1];
      if last.note == note && last.kind == BurnHeld then Some(last) else LatestHeld(events[..|events| - 1], note)
  }

  /** A held burn shows the answer its latest hold row kept; a row with a submission's status kept that
      submission's instead. */
  function BurnAnswer(events: seq<Event>, note: NoteId): Shown {
    var held := LatestHeld(events, note);
    if held.Some? && held.value.status.None? then AnswerIn(held.value.http, held.value.response) else Shown(None, None)
  }

  ghost function HeldNotes(s: State): set<NoteId> {
    (set n | n in s.burns && s.burns[n].hold.Some?) + (set n | n in s.subs && s.subs[n].status == Held)
  }

  /** A note's rows of the listing: one for a held burn, one for a held withdrawal. */
  function RowsOf(s: State, note: NoteId): seq<HoldEntry> {
    var revision := Revision(s.events, note);
    (if BurnHeldIn(s, note) then
       [HoldEntry(note, OfBurn(s.burns[note].hold.value), revision, BurnAnswer(s.events, note))]
     else [])
    + (if note in s.subs && s.subs[note].status == Held then
         [HoldEntry(note, if s.subs[note].hold.Some? then OfWithdrawal(s.subs[note].hold.value) else NoHold, revision,
                    AnswerIn(s.subs[note].http, s.subs[note].response))]
       else [])
  }

  function Rows(s: State, notes: seq<NoteId>): seq<HoldEntry> {
    if |notes| == 0 then [] else RowsOf(s, notes[0]) + Rows(s, notes[1..])
  }

  /** The notes after a cursor, in the given order. */
  function After(notes: seq<NoteId>, after: Option<NoteId>): (rest: seq<NoteId>)
    ensures |rest| <= |notes|
  {
    if |notes| == 0 then []
    else (if after.None? || after.value < notes[0] then [notes[0]] else []) + After(notes[1..], after)
  }

  datatype Page = Page(entries: seq<HoldEntry>, next: Option<NoteId>)

  /** One admin listing. One row past the page means another page follows, from the last row shown. */
  function PageAfter(s: State, notes: seq<NoteId>, after: Option<NoteId>): Page {
    var rows := Rows(s, After(notes, after));
    if |rows| > HOLDS_PAGE then Page(rows[..HOLDS_PAGE], Some(rows[HOLDS_PAGE - 1].note)) else Page(rows, None)
  }

  lemma {:induction false} RowNotes(s: State, notes: seq<NoteId>, i: nat)
    requires i < |Rows(s, notes)|
    ensures Rows(s, notes)[i].note in notes
  {
    if i >= |RowsOf(s, notes[0])| {
      RowNotes(s, notes[1..], i - |RowsOf(s, notes[0])|);
    }
  }

  lemma {:induction false} AfterMembers(notes: seq<NoteId>, after: Option<NoteId>, n: NoteId)
    ensures n in After(notes, after) <==> n in notes && (after.None? || after.value < n)
  {
    if |notes| > 0 { AfterMembers(notes[1..], after, n); }
  }

  lemma {:induction false} AfterShrinks(notes: seq<NoteId>, after: Option<NoteId>, next: NoteId)
    requires after.None? || after.value < next
    ensures |After(notes, Some(next))| <= |After(notes, after)|
    ensures next in notes ==> |After(notes, Some(next))| < |After(notes, after)|
  {
    if |notes| > 0 { AfterShrinks(notes[1..], after, next); }
  }

  /** What an operator collects by following `next` to the end. */
  function AllPages(s: State, notes: seq<NoteId>, after: Option<NoteId>): seq<HoldEntry>
    decreases |After(notes, after)|
  {
    var page := PageAfter(s, notes, after);
    if page.next.None? then page.entries
    else
      RowNotes(s, After(notes, after), HOLDS_PAGE - 1);
      AfterMembers(notes, after, page.next.value);
      AfterShrinks(notes, after, page.next.value);
      page.entries + AllPages(s, notes, page.next)
  }

  /** The one row of a held note. */
  function EntryOf(s: State, note: NoteId): HoldEntry {
    HoldEntry(note, HoldOf(s, note), Revision(s.events, note),
              if BurnHeldIn(s, note) then BurnAnswer(s.events, note)
              else if note in s.subs then AnswerIn(s.subs[note].http, s.subs[note].response)
              else Shown(None, None))
  }

  /** One row for each of the notes, in their order. */
  function Entries(s: State, notes: seq<NoteId>): seq<HoldEntry> {
    seq(|notes|, i requires 0 <= i < |notes| => EntryOf(s, notes[i]))
  }

  lemma EntriesSplit(s: State, notes: seq<NoteId>, k: nat)
    requires k <= |notes|
    ensures Entries(s, notes)[..k] + Entries(s, notes[k..]) == Entries(s, notes)
  {}

  lemma RowOfHeld(s: State, n: NoteId)
    requires WellKept(s) && n in HeldNotes(s)
    ensures RowsOf(s, n) == [EntryOf(s, n)] && HoldOf(s, n) != NoHold
  {
    assert n in s.burns && NoteKept(s, n);
  }

  lemma {:induction false} OneRowEach(s: State, notes: seq<NoteId>)
    requires WellKept(s) && forall n :: n in notes ==> n in HeldNotes(s)
    ensures Rows(s, notes) == Entries(s, notes)
  {
    if |notes| > 0 {
      RowOfHeld(s, notes[0]);
      OneRowEach(s, notes[1..]);
    }
  }

  lemma {:induction false} AfterIsSuffix(notes: seq<NoteId>, k: nat)
    requires k < |notes| && forall i, j :: 0 <= i < j < |notes| ==> notes[i] < notes[j]
    ensures After(notes, Some(notes[k])) == notes[k + 1..]
  {
    assert notes == [notes[0]] + notes[1..];
    if k > 0 {
      AfterIsSuffix(notes[1..], k - 1);
      assert notes[1..][k - 1] == notes[k];
    } else {
      AfterAll(notes[1..], notes[0]);
    }
  }

  lemma {:induction false} AfterAll(notes: seq<NoteId>, bound: NoteId)
    requires forall i :: 0 <= i < |notes| ==> bound < notes[i]
    ensures After(notes, Some(bound)) == notes && After(notes, None) == notes
  {
    if |notes| > 0 {
      AfterAll(notes[1..], bound);
      assert notes == [notes[0]] + notes[1..];
    }
  }

  lemma {:induction false} AfterNone(notes: seq<NoteId>)
    ensures After(notes, None) == notes
  {
    if |notes| > 0 {
      AfterNone(notes[1..]);
      assert notes == [notes[0]] + notes[1..];
    }
  }

  lemma {:induction false} PagesFrom(s: State, notes: seq<NoteId>, after: Option<NoteId>, m: nat)
    requires WellKept(s) && IsAscending(notes, HeldNotes(s))
    requires m <= |notes| && After(notes, after) == notes[m..]
    ensures AllPages(s, notes, after) == Entries(s, notes[m..])
    decreases |notes| - m
  {
    var rest := notes[m..];
    OneRowEach(s, rest);
    if |rest| > HOLDS_PAGE {
      var last := m + HOLDS_PAGE - 1;
      AfterIsSuffix(notes, last);
      PagesFrom(s, notes, Some(notes[last]), last + 1);
      EntriesSplit(s, rest, HOLDS_PAGE);
      assert rest[HOLDS_PAGE..] == notes[last + 1..];
    }
  }

  /** Following the pages of an unchanged store yields every held burn and withdrawal exactly once,
      in note order, each with its own hold and revision. */
  lemma PagingIsLossless(s: State)
    requires WellKept(s)
    ensures var notes := Sorted(HeldNotes(s));
      && AllPages(s, notes, None) == Entries(s, notes)
      && (forall i, j :: 0 <= i < j < |notes| ==> notes[i] < notes[j])
      && (forall n :: HoldOf(s, n) != NoHold <==> n in notes)
  {
    var notes := Sorted(HeldNotes(s));
    AfterNone(notes);
    assert notes[0..] == notes;
    PagesFrom(s, notes, None, 0);
    forall n | n in notes ensures HoldOf(s, n) != NoHold { RowOfHeld(s, n); }
  }

  lemma {:induction false} HeldInLog(events: seq<Event>, note: NoteId)
    ensures SumOf(events, note).burnHold.Some? ==>
      LatestHeld(events, note).Some? && LatestHeld(events, note).value.burnHold == SumOf(events, note).burnHold
  {
    if |events| > 0 {
      var init, last := events[..|events| - 1], events[|events| - 1];
      HeldInLog(init, note);
      assert events == init + [last];
      SumAppend(init, last, note);
    }
  }

  /** A held burn is listed with the answer that led to this very hold: its latest hold row is of the
      hold it has, not of an earlier one. */
  lemma HoldShowsItsOwnAnswer(s: State, note: NoteId)
    requires WellKept(s) && BurnHeldIn(s, note)
    ensures LatestHeld(s.events, note).Some? && LatestHeld(s.events, note).value.burnHold == s.burns[note].hold
  {
    assert NoteKept(s, note);
    HeldInLog(s.events, note);
  }

  // ---- Progress ----------------------------------------------------------------------------------

  function ConsumedBurns(s: State): set<NoteId> {
    set n | n in s.burns && s.burns[n].consumed.Some?
  }

  function HeldBurns(s: State): set<NoteId> {
    set n | n in s.burns && s.burns[n].hold.Some?
  }

  function WithStatus(s: State, status: Status): set<NoteId> {
    set n | n in s.subs && s.subs[n].status == status
  }

  function Waiting(s: State): set<NoteId> {
    set n | n in s.burns && s.burns[n].retryAt.Some?
  }

  predicate IsUnfinished(s: State, n: NoteId) {
    && n in s.burns && s.burns[n].consumed.Some? && s.burns[n].hold.None?
    && (n in s.subs ==> s.subs[n].status !in {Held, Failed, Finalized})
  }

  function Unfinished(s: State): set<NoteId> {
    set n | n in s.burns && IsUnfinished(s, n)
  }

  /** The counts one read reports. */
  datatype Progress = Progress(
    burnsHeld: nat, withdrawalsHeld: nat, withdrawalsFailed: nat, withdrawalsPending: nat, burnsUnfinished: nat, limitWaiting: nat)

  function ProgressOf(s: State): Progress {
    Progress(|HeldBurns(s)|, |WithStatus(s, Held)|, |WithStatus(s, Failed)|,
             |WithStatus(s, Submitting) + WithStatus(s, Submitted)|, |Unfinished(s)|, |Waiting(s)|)
  }

  lemma DisjointSizes(a: set<NoteId>, b: set<NoteId>)
    requires a !! b
    ensures |a + b| == |a| + |b|
  {}

  lemma SubsetSize(a: set<NoteId>, b: set<NoteId>)
    requires a <= b
    ensures |a| <= |b|
  {
    assert b == a + (b - a);
  }

  /** The five kinds of consumed burn. */
  function Kinds(s: State): seq<set<NoteId>> {
    [HeldBurns(s), WithStatus(s, Held), WithStatus(s, Failed), WithStatus(s, Finalized), Unfinished(s)]
  }

  lemma ConsumedIsOneKind(s: State, n: NoteId)
    requires WellKept(s)
    ensures n in ConsumedBurns(s) <==> exists k :: 0 <= k < 5 && n in Kinds(s)[k]
    ensures forall j, k :: 0 <= j < k < 5 ==> !(n in Kinds(s)[j] && n in Kinds(s)[k])
    ensures n in WithStatus(s, Submitting) + WithStatus(s, Submitted) + Waiting(s) ==> n in Unfinished(s)
  {
    var kinds := Kinds(s);
    if n in s.burns {
      assert NoteKept(s, n);
      assert n in ConsumedBurns(s) ==> n in kinds[0] || n in kinds[1] || n in kinds[2] || n in kinds[3] || n in kinds[4];
    }
  }

  lemma UnionOfFive(all: set<NoteId>, k: seq<set<NoteId>>)
    requires |k| == 5
    requires forall n :: n in all <==> exists i :: 0 <= i < 5 && n in k[i]
    requires forall n, i, j :: 0 <= i < j < 5 ==> !(n in k[i] && n in k[j])
    ensures |all| == |k[0]| + |k[1]| + |k[2]| + |k[3]| + |k[4]|
  {
    assert all == k[0] + k[1] + k[2] + k[3] + k[4];
    DisjointSizes(k[0], k[1]);
    DisjointSizes(k[0] + k[1], k[2]);
    DisjointSizes(k[0] + k[1] + k[2], k[3]);
    DisjointSizes(k[0] + k[1] + k[2] + k[3], k[4]);
  }

  /** The counts partition the consumed burns, and the pending and waiting ones are unfinished. */
  lemma ProgressPartitions(s: State)
    requires WellKept(s)
    ensures var p := ProgressOf(s);
      && |ConsumedBurns(s)| == p.burnsHeld + p.withdrawalsHeld + p.withdrawalsFailed + |WithStatus(s, Finalized)| + p.burnsUnfinished
      && p.withdrawalsPending <= p.burnsUnfinished && p.limitWaiting <= p.burnsUnfinished
    ensures WithStatus(s, Submitting) + WithStatus(s, Submitted) + Waiting(s) <= Unfinished(s)
  {
    forall n ensures n in ConsumedBurns(s) <==> exists k :: 0 <= k < 5 && n in Kinds(s)[k] { ConsumedIsOneKind(s, n); }
    forall n, j, k | 0 <= j < k < 5 ensures !(n in Kinds(s)[j] && n in Kinds(s)[k]) { ConsumedIsOneKind(s, n); }
    UnionOfFive(ConsumedBurns(s), Kinds(s));
    forall n | n in WithStatus(s, Submitting) + WithStatus(s, Submitted) + Waiting(s) ensures n in Unfinished(s) {
      ConsumedIsOneKind(s, n);
    }
    SubsetSize(WithStatus(s, Submitting) + WithStatus(s, Submitted), Unfinished(s));
    SubsetSize(Waiting(s), Unfinished(s));
  }
}
