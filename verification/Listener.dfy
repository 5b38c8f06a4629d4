/** The older listener's submission: claim every burn of a request, POST once, and record what Circle
    answered about each burn (crates/withdrawal-listener-attester/src/submit.rs and idempotency/). */
module Listener {
  import opened Basics

  // ---- Burns and their ledger rows ---------------------------------------------------------------

  function LowerChar(c: char): char {
    if 'A' <= c <= 'Z' then (c as int + 32) as char else c
  }

  /** A burn's identity: its `burnTxId`, lower-cased. */
  function Key(burn: string): string {
    seq(|burn|, i requires 0 <= i < |burn| => LowerChar(burn[i]))
  }

  function Keys(burns: seq<string>): seq<string> {
    seq(|burns|, i requires 0 <= i < |burns| => Key(burns[i]))
  }

  datatype RowStatus = Pending | Submitted | Finalized | ReconciliationRequired | Failed

  /** A ledger row: its status, and the withdrawal ID Circle named for this burn, if any. */
  datatype Row = Row(status: RowStatus, id: Option<string>)

  predicate BlocksResubmission(status: RowStatus) { status != Failed }

  predicate CanTransition(from: RowStatus, to: RowStatus) {
    match from
    case Pending => to != Pending
    case Submitted => to == Finalized || to == ReconciliationRequired
    case Failed => to == Pending
    case _ => false
  }

  datatype LedgerError = StoreFailed | UnknownBurn | IllegalTransition

  type Rows = map<string, Row>

  /** A row after a transition; an ID already there is kept unless the transition brings one. */
  function Moved(row: Row, to: RowStatus, id: Option<string>): Row {
    Row(to, if id.Some? then id else row.id)
  }

  /** No ID is recorded before Circle has answered. */
  ghost predicate IdsAreAnswers(rows: Rows) {
    forall k :: k in rows && (rows[k].status == Pending || rows[k].status == Failed) ==> rows[k].id.None?
  }

  ghost predicate Distinct(keys: seq<string>) {
    forall i, j :: 0 <= i < j < |keys| ==> keys[i] != keys[j]
  }

  /** Burn `i` ends in row `marks[i]`, and no other burn changes. */
  ghost predicate Recorded(before: Rows, after: Rows, keys: seq<string>, marks: seq<Row>)
    requires |marks| == |keys|
  {
    && (forall i :: 0 <= i < |keys| ==> keys[i] in after && after[keys[i]] == marks[i])
    && (forall k :: k !in keys ==> SameRow(before, after, k))
  }

  predicate SameRow(before: Rows, after: Rows, key: string) {
    (key in after <==> key in before) && (key in before ==> after[key] == before[key])
  }

  /** Only the claimed burns may have changed, and none of them can be claimed again. */
  ghost predicate StaysClaimed(before: Rows, after: Rows, keys: seq<string>) {
    && (forall k :: k !in keys ==> SameRow(before, after, k))
    && (forall i :: 0 <= i < |keys| ==> keys[i] in after && BlocksResubmission(after[keys[i]].status))
  }

  // ---- Circle's answers --------------------------------------------------------------------------

  datatype Kind = Created | Verified | Confirmed | FinalizedAtCircle | ExpiredAtCircle | FailedAtCircle

  datatype Status = Status(id: string, burn: string, kind: Kind)

  /** What the POST came to: a 201 with its statuses, a 409 with its conflict, or an error, with the
      HTTP status it had, if any. */
  datatype Attempt =
    | Answered201(statuses: seq<Status>)
    | Answered409(burn: string, id: Option<string>)
    | Error(http: Option<nat>)

  /** What polling a withdrawal ID gives. */
  type Poll = string -> Result<Status, Option<nat>>

  datatype Outcome =
    | Accepted(statuses: seq<Status>)
    | ConflictRecovered(id: string, status: Status)
    | NeedsReconciliation(burn: string)
    | EchoMismatch(echoed: string)
    | AlreadySubmitted(key: string, row: RowStatus)

  datatype SubmitError = Circle(http: Option<nat>) | Ledger(error: LedgerError) | DuplicateBurn(burn: string)

  /** The first burn an echo names, ignoring case. */
  function PositionOf(burns: seq<string>, echoed: string): (at: Option<nat>)
    ensures at.Some? ==> at.value < |burns| && Key(burns[at.value]) == Key(echoed)
    ensures at.None? ==> forall i :: 0 <= i < |burns| ==> Key(burns[i]) != Key(echoed)
  {
    if |burns| == 0 then None
    else if Key(burns[0]) == Key(echoed) then Some(0)
    else
      var rest := PositionOf(burns[1..], echoed);
      if rest.Some? then Some(rest.value + 1)
      else
        assert forall i :: 1 <= i < |burns| ==> burns[i] == burns[1..][i - 1];
        None
  }

  /** The first status that names a burn, ignoring case. */
  function StatusOf(statuses: seq<Status>, burn: string): (at: Option<nat>)
    ensures at.Some? ==> at.value < |statuses| && Key(statuses[at.value].burn) == Key(burn)
    ensures at.None? ==> forall i :: 0 <= i < |statuses| ==> Key(statuses[i].burn) != Key(burn)
  {
    if |statuses| == 0 then None
    else if Key(statuses[0].burn) == Key(burn) then Some(0)
    else
      var rest := StatusOf(statuses[1..], burn);
      if rest.Some? then Some(rest.value + 1)
      else
        assert forall i :: 1 <= i < |statuses| ==> statuses[i] == statuses[1..][i - 1];
        None
  }

  // ---- What each answer settles ------------------------------------------------------------------

  /** The result of a submission, and the row each burn ends in. */
  datatype Settlement = Settlement(result: Result<Outcome, SubmitError>, marks: seq<Row>)

  function Blocked(n: nat): (marks: seq<Row>)
    ensures |marks| == n
  {
    seq(n, _ => Row(ReconciliationRequired, None))
  }

  /** Every burn blocked, and the ID on the one the conflict named. */
  function BlockedWith(n: nat, at: nat, row: Row): (marks: seq<Row>)
    requires at < n
    ensures |marks| == n
  {
    Blocked(n)[at := row]
  }

  /** The first status that names none of the burns. */
  function Stranger(burns: seq<string>, statuses: seq<Status>): (echo: Option<string>)
    ensures echo.None? <==> forall i :: 0 <= i < |statuses| ==> PositionOf(burns, statuses[i].burn).Some?
  {
    if |statuses| == 0 then None
    else
      var before := Stranger(burns, statuses[..|statuses| - 1]);
      var last := statuses[|statuses| - 1];
      if before.Some? then before
      else if PositionOf(burns, last.burn).None? then Some(last.burn) else None
  }

  /** The first burn that no status names. */
  function Unanswered(burns: seq<string>, statuses: seq<Status>): (burn: Option<string>)
    ensures burn.None? <==> forall i :: 0 <= i < |burns| ==> StatusOf(statuses, burns[i]).Some?
  {
    if |burns| == 0 then None
    else
      var before := Unanswered(burns[..|burns| - 1], statuses);
      var last := burns[|burns| - 1];
      if before.Some? then before
      else if StatusOf(statuses, last).None? then Some(last) else None
  }

  function Paired(burns: seq<string>, statuses: seq<Status>): (marks: seq<Row>)
    requires forall i :: 0 <= i < |burns| ==> StatusOf(statuses, burns[i]).Some?
    ensures |marks| == |burns|
  {
    seq(|burns|, i requires 0 <= i < |burns| => Row(Submitted, Some(statuses[StatusOf(statuses, burns[i]).value].id)))
  }

  function CreatedSettlement(burns: seq<string>, statuses: seq<Status>): Settlement {
    var stranger := Stranger(burns, statuses);
    if stranger.Some? then Settlement(Ok(EchoMismatch(stranger.value)), Blocked(|burns|))
    else
      var unanswered := Unanswered(burns, statuses);
      if unanswered.Some? then Settlement(Ok(EchoMismatch(unanswered.value)), Blocked(|burns|))
      else Settlement(Ok(Accepted(statuses)), Paired(burns, statuses))
  }

  function ConflictSettlement(burns: seq<string>, echoed: string, id: Option<string>, poll: Poll): Settlement {
    var n := |burns|;
    var at := PositionOf(burns, echoed);
    if at.None? then Settlement(Ok(EchoMismatch(echoed)), Blocked(n))
    else if id.None? then Settlement(Ok(NeedsReconciliation(echoed)), Blocked(n))
    else
      var blocked := Row(ReconciliationRequired, id);
      match poll(id.value)
      case Err(http) => Settlement(Err(Circle(http)), BlockedWith(n, at.value, blocked))
      case Ok(status) =>
        if Key(status.burn) != Key(burns[at.value]) then
          Settlement(Ok(EchoMismatch(status.burn)), BlockedWith(n, at.value, blocked))
        else
          Settlement(Ok(ConflictRecovered(id.value, status)),
                     BlockedWith(n, at.value, if status.kind == FinalizedAtCircle then Row(Finalized, id) else blocked))
  }

  function ErrorSettlement(n: nat, http: Option<nat>): Settlement {
    Settlement(Err(Circle(http)), if http == Some(400) then seq(n, _ => Row(Failed, None)) else Blocked(n))
  }

  /** A 201 that does not carry one status per batch is not readable. */
  function Settle(burns: seq<string>, attempt: Attempt, poll: Poll): (s: Settlement)
    ensures |s.marks| == |burns|
  {
    match attempt
    case Answered201(statuses) =>
      if |statuses| != |burns| then ErrorSettlement(|burns|, None) else CreatedSettlement(burns, statuses)
    case Answered409(burn, id) => ConflictSettlement(burns, burn, id, poll)
    case Error(http) => ErrorSettlement(|burns|, http)
  }

  // ---- The ledger --------------------------------------------------------------------------------

  /** The first key already accounted for. */
  function FirstSeen(rows: Rows, keys: seq<string>): (at: Option<nat>)
    ensures at.Some? ==> at.value < |keys| && keys[at.value] in rows && BlocksResubmission(rows[keys[at.value]].status)
    ensures at.None? ==> forall i :: 0 <= i < |keys| && keys[i] in rows ==> rows[keys[i]].status == Failed
  {
    if |keys| == 0 then None
    else
      var before := FirstSeen(rows, keys[..|keys| - 1]);
      var last := keys[|keys| - 1];
      if before.Some? then before
      else if last in rows && BlocksResubmission(rows[last].status) then Some(|keys| - 1) else None
  }

  class SubmitLedger {
    var rows: Rows

    constructor ()
      ensures rows == map[]
    {
      rows := map[];
    }

    /** Claims every key or none; a key already accounted for is an answer, and aborts the claim. */
    method ClaimBurns(keys: seq<string>) returns (r: Result<Option<(string, RowStatus)>, LedgerError>)
      requires Distinct(keys) && IdsAreAnswers(rows)
      modifies this
      ensures IdsAreAnswers(rows)
      ensures r == Ok(None) <==> r.Ok? && FirstSeen(old(rows), keys).None?
      ensures r == Ok(None) ==> Recorded(old(rows), rows, keys, seq(|keys|, _ => Row(Pending, None)))
      ensures r != Ok(None) ==> rows == old(rows)
      ensures r.Ok? && r.value.Some? ==>
        && r.value.value.0 in rows && r.value.value.0 in keys
        && rows[r.value.value.0].status == r.value.value.1 && BlocksResubmission(r.value.value.1)
    {
      var begun := rows;
      for i := 0 to |keys|
        invariant forall j :: 0 <= j < i ==> keys[j] in rows && rows[keys[j]] == Row(Pending, None)
        invariant forall j :: i <= j < |keys| ==> SameRow(begun, rows, keys[j])
        invariant forall k :: k !in keys ==> SameRow(begun, rows, k)
        invariant FirstSeen(begun, keys[..i]).None? && IdsAreAnswers(rows)
      {
        var key := keys[i];
        assert SameRow(begun, rows, key);
        assert keys[..i + 1][..i] == keys[..i];
        if key in rows && BlocksResubmission(rows[key].status) {
          SeenStays(begun, keys, i + 1);
          rows := begun;
          return Ok(Some((key, begun[key].status)));
        }
        var failed: bool := *;
        if failed {
          rows := begun;
          return Err(StoreFailed);
        }
        rows := rows[key := if key in rows then Moved(rows[key], Pending, None) else Row(Pending, None)];
      }
      assert keys[..|keys|] == keys;
      r := Ok(None);
    }

    /** Moves one burn, if the status machine has the edge. */
    method Transition(key: string, to: RowStatus, id: Option<string>) returns (r: Option<LedgerError>)
      modifies this
      ensures r.None? <==> r != Some(StoreFailed) && key in old(rows) && CanTransition(old(rows)[key].status, to)
      ensures r.None? ==> rows == old(rows)[key := Moved(old(rows)[key], to, id)]
      ensures r.Some? ==> rows == old(rows)
      ensures IdsAreAnswers(old(rows)) && (to == Failed || to == Pending ==> id.None?) ==> IdsAreAnswers(rows)
    {
      var failed: bool := *;
      if failed { return Some(StoreFailed); }
      if key !in rows { return Some(UnknownBurn); }
      if !CanTransition(rows[key].status, to) { return Some(IllegalTransition); }
      rows := rows[key := Moved(rows[key], to, id)];
      r := None;
    }
  }

  lemma {:induction false} SeenStays(rows: Rows, keys: seq<string>, i: nat)
    requires i <= |keys| && FirstSeen(rows, keys[..i]).Some?
    ensures FirstSeen(rows, keys).Some?
    decreases |keys|
  {
    if i < |keys| {
      var init := keys[..|keys| - 1];
      assert init[..i] == keys[..i];
      SeenStays(rows, init, i);
    } else {
      assert keys[..i] == keys;
    }
  }

  // ---- Settling ----------------------------------------------------------------------------------

  /** The keys are distinct, and every one is claimed. */
  ghost predicate Claimed(rows: Rows, keys: seq<string>) {
    Distinct(keys) && forall i :: 0 <= i < |keys| ==> keys[i] in rows && rows[keys[i]] == Row(Pending, None)
  }

  /** Blocks every burn but one, claiming nothing about them. */
  method BlockOthers(ledger: SubmitLedger, keys: seq<string>, at: nat, ghost claimed: Rows, ghost row: Row)
    returns (r: Option<LedgerError>)
    requires Claimed(claimed, keys) && at < |keys| && ledger.rows == claimed[keys[at] := row]
    requires IdsAreAnswers(ledger.rows)
    modifies ledger
    ensures IdsAreAnswers(ledger.rows)
    ensures r.None? ==> Recorded(claimed, ledger.rows, keys, BlockedWith(|keys|, at, row))
    ensures r.Some? ==> r == Some(StoreFailed)
    ensures row.status != Failed ==> StaysClaimed(claimed, ledger.rows, keys)
  {
    for i := 0 to |keys|
      invariant IdsAreAnswers(ledger.rows) && forall k :: k in ledger.rows <==> k in claimed
      invariant forall j :: 0 <= j < |keys| ==>
        ledger.rows[keys[j]] == if j == at then row else if j < i then Row(ReconciliationRequired, None) else Row(Pending, None)
      invariant forall k :: k in claimed && k !in keys ==> ledger.rows[k] == claimed[k]
    {
      if i != at {
        r := ledger.Transition(keys[i], ReconciliationRequired, None);
        if r.Some? { return; }
      }
    }
    r := None;
  }

  method FindStranger(burns: seq<string>, statuses: seq<Status>) returns (stranger: Option<string>)
    ensures stranger == Stranger(burns, statuses)
  {
    for i := 0 to |statuses|
      invariant Stranger(burns, statuses[..i]).None?
    {
      assert statuses[..i + 1][..i] == statuses[..i];
      if PositionOf(burns, statuses[i].burn).None? {
        StrangerStays(burns, statuses, i + 1);
        return Some(statuses[i].burn);
      }
    }
    assert statuses[..|statuses|] == statuses;
    stranger := None;
  }

  /** Each burn's own status, or the first burn that has none. */
  method PairStatuses(burns: seq<string>, statuses: seq<Status>) returns (paired: seq<Status>, unanswered: Option<string>)
    ensures unanswered == Unanswered(burns, statuses)
    ensures unanswered.None? ==> |paired| == |burns|
    ensures unanswered.None? ==> forall i :: 0 <= i < |burns| ==> Row(Submitted, Some(paired[i].id)) == Paired(burns, statuses)[i]
  {
    paired := [];
    for i := 0 to |burns|
      invariant |paired| == i && Unanswered(burns[..i], statuses).None?
      invariant forall j :: 0 <= j < i ==>
        StatusOf(statuses, burns[j]).Some? && paired[j] == statuses[StatusOf(statuses, burns[j]).value]
    {
      assert burns[..i + 1][..i] == burns[..i];
      var at := StatusOf(statuses, burns[i]);
      if at.None? {
        UnansweredStays(burns, statuses, i + 1);
        return paired, Some(burns[i]);
      }
      paired := paired + [statuses[at.value]];
    }
    assert burns[..|burns|] == burns;
    unanswered := None;
  }

  /** Moves every claimed burn to its own row. */
  method RecordAll(ledger: SubmitLedger, keys: seq<string>, marks: seq<Row>) returns (failed: Option<LedgerError>)
    requires Claimed(ledger.rows, keys) && |marks| == |keys| && forall i :: 0 <= i < |keys| ==> marks[i].status != Pending
    requires IdsAreAnswers(ledger.rows) && forall i :: 0 <= i < |keys| && marks[i].status == Failed ==> marks[i].id.None?
    modifies ledger
    ensures IdsAreAnswers(ledger.rows)
    ensures failed.None? ==> Recorded(old(ledger.rows), ledger.rows, keys, marks)
    ensures failed.Some? ==> failed == Some(StoreFailed)
    ensures forall k :: k !in keys ==> SameRow(old(ledger.rows), ledger.rows, k)
    ensures (forall i :: 0 <= i < |keys| ==> marks[i].status != Failed) ==> StaysClaimed(old(ledger.rows), ledger.rows, keys)
  {
    ghost var claimed := ledger.rows;
    for i := 0 to |keys|
      invariant IdsAreAnswers(ledger.rows) && forall k :: k in ledger.rows <==> k in claimed
      invariant forall j :: 0 <= j < |keys| ==> ledger.rows[keys[j]] == if j < i then marks[j] else Row(Pending, None)
      invariant forall k :: k in claimed && k !in keys ==> ledger.rows[k] == claimed[k]
    {
      failed := ledger.Transition(keys[i], marks[i].status, marks[i].id);
      if failed.Some? { return; }
    }
    failed := None;
  }

  /** A 201: every pairing is checked before any is written. */
  method SettleCreated(ledger: SubmitLedger, keys: seq<string>, burns: seq<string>, statuses: seq<Status>)
    returns (r: Result<Outcome, SubmitError>)
    requires |keys| == |burns| && Claimed(ledger.rows, keys)
    requires IdsAreAnswers(ledger.rows)
    modifies ledger
    ensures IdsAreAnswers(ledger.rows)
    ensures StaysClaimed(old(ledger.rows), ledger.rows, keys)
    ensures var s := CreatedSettlement(burns, statuses);
      (r == s.result && Recorded(old(ledger.rows), ledger.rows, keys, s.marks)) || r == Err(Ledger(StoreFailed))
  {
    var failed: Option<LedgerError>;
    var stranger := FindStranger(burns, statuses);
    if stranger.Some? {
      failed := RecordAll(ledger, keys, Blocked(|keys|));
      return if failed.Some? then Err(Ledger(failed.value)) else Ok(EchoMismatch(stranger.value));
    }
    var paired, unanswered := PairStatuses(burns, statuses);
    if unanswered.Some? {
      failed := RecordAll(ledger, keys, Blocked(|keys|));
      return if failed.Some? then Err(Ledger(failed.value)) else Ok(EchoMismatch(unanswered.value));
    }
    var marks := seq(|keys|, i requires 0 <= i < |keys| => Row(Submitted, Some(paired[i].id)));
    assert marks == Paired(burns, statuses);
    failed := RecordAll(ledger, keys, marks);
    r := if failed.Some? then Err(Ledger(failed.value)) else Ok(Accepted(statuses));
  }

  lemma {:induction false} StrangerStays(burns: seq<string>, statuses: seq<Status>, i: nat)
    requires i <= |statuses| && Stranger(burns, statuses[..i]).Some?
    ensures Stranger(burns, statuses) == Stranger(burns, statuses[..i])
    decreases |statuses|
  {
    if i < |statuses| {
      var init := statuses[..|statuses| - 1];
      assert init[..i] == statuses[..i];
      StrangerStays(burns, init, i);
    } else {
      assert statuses[..i] == statuses;
    }
  }

  lemma {:induction false} UnansweredStays(burns: seq<string>, statuses: seq<Status>, i: nat)
    requires i <= |burns| && Unanswered(burns[..i], statuses).Some?
    ensures Unanswered(burns, statuses) == Unanswered(burns[..i], statuses)
    decreases |burns|
  {
    if i < |burns| {
      var init := burns[..|burns| - 1];
      assert init[..i] == burns[..i];
      UnansweredStays(init, statuses, i);
    } else {
      assert burns[..i] == burns;
    }
  }

  /** Moves the burn a conflict named, then blocks the others. */
  method SettleNamed(ledger: SubmitLedger, keys: seq<string>, at: nat, to: RowStatus, id: string) returns (failed: Option<LedgerError>)
    requires Claimed(ledger.rows, keys) && at < |keys| && to != Pending && to != Failed
    requires IdsAreAnswers(ledger.rows)
    modifies ledger
    ensures IdsAreAnswers(ledger.rows)
    ensures StaysClaimed(old(ledger.rows), ledger.rows, keys)
    ensures failed.None? ==> Recorded(old(ledger.rows), ledger.rows, keys, BlockedWith(|keys|, at, Row(to, Some(id))))
    ensures failed.Some? ==> failed == Some(StoreFailed)
  {
    ghost var claimed := ledger.rows;
    failed := ledger.Transition(keys[at], to, Some(id));
    if failed.None? { failed := BlockOthers(ledger, keys, at, claimed, Row(to, Some(id))); }
  }

  /** A 409 names one burn, and settles only that one. */
  method RecoverConflict(ledger: SubmitLedger, keys: seq<string>, burns: seq<string>, echoed: string, id: Option<string>, poll: Poll)
    returns (r: Result<Outcome, SubmitError>)
    requires |keys| == |burns| && Claimed(ledger.rows, keys)
    requires IdsAreAnswers(ledger.rows)
    modifies ledger
    ensures IdsAreAnswers(ledger.rows)
    ensures StaysClaimed(old(ledger.rows), ledger.rows, keys)
    ensures var s := ConflictSettlement(burns, echoed, id, poll);
      (r == s.result && Recorded(old(ledger.rows), ledger.rows, keys, s.marks)) || r == Err(Ledger(StoreFailed))
  {
    var at := PositionOf(burns, echoed);
    if at.None? || id.None? {
      var blocked := RecordAll(ledger, keys, Blocked(|keys|));
      if blocked.Some? { return Err(Ledger(blocked.value)); }
      return if at.None? then Ok(EchoMismatch(echoed)) else Ok(NeedsReconciliation(echoed));
    }
    var polled := poll(id.value);
    var final := polled.Ok? && Key(polled.value.burn) == Key(burns[at.value]) && polled.value.kind == FinalizedAtCircle;
    var failed := SettleNamed(ledger, keys, at.value, if final then Finalized else ReconciliationRequired, id.value);
    if failed.Some? { return Err(Ledger(failed.value)); }
    if polled.Err? { return Err(Circle(polled.error)); }
    if Key(polled.value.burn) != Key(burns[at.value]) { return Ok(EchoMismatch(polled.value.burn)); }
    r := Ok(ConflictRecovered(id.value, polled.value));
  }

  /** Only a deterministic 400 frees the burns for another claim. */
  method SettleFailure(ledger: SubmitLedger, keys: seq<string>, http: Option<nat>) returns (failed: Option<LedgerError>)
    requires Claimed(ledger.rows, keys)
    requires IdsAreAnswers(ledger.rows)
    modifies ledger
    ensures IdsAreAnswers(ledger.rows)
    ensures forall k :: k !in keys ==> SameRow(old(ledger.rows), ledger.rows, k)
    ensures http != Some(400) ==> StaysClaimed(old(ledger.rows), ledger.rows, keys)
    ensures failed.None? ==> Recorded(old(ledger.rows), ledger.rows, keys, ErrorSettlement(|keys|, http).marks)
    ensures failed.Some? ==> failed == Some(StoreFailed)
  {
    failed := RecordAll(ledger, keys, if http == Some(400) then seq(|keys|, _ => Row(Failed, None)) else Blocked(|keys|));
  }

  /** Records what the answer says about every claimed burn. */
  method SettleAnswer(ledger: SubmitLedger, keys: seq<string>, burns: seq<string>, attempt: Attempt, poll: Poll)
    returns (r: Result<Outcome, SubmitError>)
    requires |keys| == |burns| && Claimed(ledger.rows, keys)
    requires IdsAreAnswers(ledger.rows)
    modifies ledger
    ensures IdsAreAnswers(ledger.rows)
    ensures forall k :: k !in keys ==> SameRow(old(ledger.rows), ledger.rows, k)
    ensures attempt != Error(Some(400)) ==> StaysClaimed(old(ledger.rows), ledger.rows, keys)
    ensures var s := Settle(burns, attempt, poll);
      (r == s.result && Recorded(old(ledger.rows), ledger.rows, keys, s.marks)) || r == Err(Ledger(StoreFailed))
  {
    match attempt
    case Answered201(statuses) =>
      if |statuses| != |burns| {
        var failed := SettleFailure(ledger, keys, None);
        r := if failed.Some? then Err(Ledger(failed.value)) else Err(Circle(None));
      } else {
        r := SettleCreated(ledger, keys, burns, statuses);
      }
    case Answered409(burn, id) => r := RecoverConflict(ledger, keys, burns, burn, id, poll);
    case Error(http) =>
      var failed := SettleFailure(ledger, keys, http);
      r := if failed.Some? then Err(Ledger(failed.value)) else Err(Circle(http));
  }

  /** The first burn that occurs twice in a request. */
  method FindDuplicate(keys: seq<string>) returns (at: Option<nat>)
    ensures at.None? <==> Distinct(keys)
    ensures at.Some? ==> at.value < |keys|
  {
    for i := 0 to |keys|
      invariant forall j, k :: 0 <= j < k < i ==> keys[j] != keys[k]
    {
      if keys[i] in keys[..i] { return Some(i); }
    }
    at := None;
  }

  /** What held since the claim holds since before it. */
  lemma SinceTheClaim(before: Rows, claimed: Rows, after: Rows, keys: seq<string>, marks: seq<Row>)
    requires |marks| == |keys| && Recorded(before, claimed, keys, seq(|keys|, _ => Row(Pending, None)))
    requires FirstSeen(before, keys).None? && forall k :: k !in keys ==> SameRow(claimed, after, k)
    ensures Recorded(claimed, after, keys, marks) ==> Recorded(before, after, keys, marks)
    ensures StaysClaimed(claimed, after, keys) ==> StaysClaimed(before, after, keys)
    ensures forall k :: k !in keys ==> SameRow(before, after, k)
    ensures KeepsBlocked(before, after)
  {
    forall k | k !in keys ensures SameRow(before, after, k) {
      assert SameRow(before, claimed, k) && SameRow(claimed, after, k);
    }
    forall k | k in before && BlocksResubmission(before[k].status) ensures k !in keys {}
    forall k | k in before && BlocksResubmission(before[k].status) ensures k in after && after[k] == before[k] {
      assert SameRow(before, after, k);
    }
  }

  /** A request of these burns was claimed and posted: none of them was accounted for before, nothing else
      changed, and unless Circle refused it with a 400 all of them are accounted for now. */
  ghost predicate Posts(before: Rows, after: Rows, keys: seq<string>, refused: bool) {
    && Distinct(keys) && FirstSeen(before, keys).None?
    && (forall k :: k !in keys ==> SameRow(before, after, k))
    && (!refused ==> StaysClaimed(before, after, keys))
  }

  /** A burn that may not be submitted again keeps its row. */
  ghost predicate KeepsBlocked(before: Rows, after: Rows) {
    forall k :: k in before && BlocksResubmission(before[k].status) ==> k in after && after[k] == before[k]
  }

  /** Submits a request once: `posts` counts the calls made to Circle. Unless a ledger write fails,
      the answer settles every claimed burn; a request that is refused changes nothing; and whatever
      fails, a burn that was posted can be claimed again only after a 400. */
  method SubmitWithdraw(ledger: SubmitLedger, burns: seq<string>, attempt: Attempt, poll: Poll)
    returns (r: Result<Outcome, SubmitError>, posts: nat)
    requires IdsAreAnswers(ledger.rows)
    modifies ledger
    ensures IdsAreAnswers(ledger.rows)
    ensures r.Err? && r.error.DuplicateBurn? <==> !Distinct(Keys(burns))
    ensures posts == 0 ==> ledger.rows == old(ledger.rows)
    ensures Distinct(Keys(burns)) && FirstSeen(old(ledger.rows), Keys(burns)).Some? ==> posts == 0
    ensures posts > 0 ==> posts == 1 && Distinct(Keys(burns)) && FirstSeen(old(ledger.rows), Keys(burns)).None?
    ensures posts > 0 ==> var s := Settle(burns, attempt, poll);
      (r == s.result && Recorded(old(ledger.rows), ledger.rows, Keys(burns), s.marks)) || r == Err(Ledger(StoreFailed))
    ensures posts > 0 && attempt != Error(Some(400)) ==> StaysClaimed(old(ledger.rows), ledger.rows, Keys(burns))
    ensures KeepsBlocked(old(ledger.rows), ledger.rows)
    ensures posts > 0 ==> Posts(old(ledger.rows), ledger.rows, Keys(burns), attempt == Error(Some(400)))
    ensures posts == 0 && r.Ok? ==> r.value.AlreadySubmitted? && FirstSeen(old(ledger.rows), Keys(burns)).Some?
  {
    var keys := Keys(burns);
    var duplicate := FindDuplicate(keys);
    if duplicate.Some? { return Err(DuplicateBurn(burns[duplicate.value])), 0; }
    var claim := ledger.ClaimBurns(keys);
    if claim.Err? { return Err(Ledger(claim.error)), 0; }
    if claim.value.Some? { return Ok(AlreadySubmitted(claim.value.value.0, claim.value.value.1)), 0; }
    ghost var claimed := ledger.rows;
    posts := 1;
    r := SettleAnswer(ledger, keys, burns, attempt, poll);
    SinceTheClaim(old(ledger.rows), claimed, ledger.rows, keys, Settle(burns, attempt, poll).marks);
  }

  // ---- What every answer guarantees --------------------------------------------------------------

  /** Circle itself named this withdrawal ID for this burn. */
  predicate Named(attempt: Attempt, burn: string, id: string) {
    match attempt
    case Answered201(statuses) => exists i :: 0 <= i < |statuses| && Key(statuses[i].burn) == Key(burn) && statuses[i].id == id
    case Answered409(echoed, given) => Key(echoed) == Key(burn) && given == Some(id)
    case Error(_) => false
  }

  /** What the row of burn `i` may say, given the answer. */
  predicate Justified(burns: seq<string>, attempt: Attempt, poll: Poll, i: nat, s: Settlement)
    requires i < |burns| == |s.marks|
  {
    var mark := s.marks[i];
    && mark.status != Pending
    && (mark.id.Some? ==> Named(attempt, burns[i], mark.id.value))
    && (mark.status == Failed <==> attempt == Error(Some(400)))
    && (mark.status == Submitted ==> s.result.Ok? && s.result.value.Accepted?)
    && (mark.status == Finalized ==>
          && mark.id.Some? && poll(mark.id.value).Ok?
          && Key(poll(mark.id.value).value.burn) == Key(burns[i]) && poll(mark.id.value).value.kind == FinalizedAtCircle)
  }

  lemma CreatedJustified(burns: seq<string>, statuses: seq<Status>, poll: Poll, i: nat)
    requires i < |burns| == |statuses|
    ensures Justified(burns, Answered201(statuses), poll, i, CreatedSettlement(burns, statuses))
  {
    if Stranger(burns, statuses).None? && Unanswered(burns, statuses).None? {
      AcceptedJustified(burns, statuses, poll, i);
    } else {
      assert CreatedSettlement(burns, statuses).marks[i] == Row(ReconciliationRequired, None);
    }
  }

  lemma AcceptedJustified(burns: seq<string>, statuses: seq<Status>, poll: Poll, i: nat)
    requires i < |burns| && Stranger(burns, statuses).None? && Unanswered(burns, statuses).None?
    ensures Justified(burns, Answered201(statuses), poll, i, CreatedSettlement(burns, statuses))
  {
    var k := StatusOf(statuses, burns[i]).value;
    assert Named(Answered201(statuses), burns[i], statuses[k].id);
  }

  lemma ConflictJustified(burns: seq<string>, echoed: string, id: Option<string>, poll: Poll, i: nat)
    requires i < |burns|
    ensures Justified(burns, Answered409(echoed, id), poll, i, ConflictSettlement(burns, echoed, id, poll))
  {}

  /** No answer leaves a claimed burn pending; an ID is recorded only on the burn Circle named it for;
      a burn is freed only by a 400; and it is final only if its own withdrawal was polled final. */
  lemma EveryAnswerSettles(burns: seq<string>, attempt: Attempt, poll: Poll, i: nat)
    requires i < |burns|
    ensures Justified(burns, attempt, poll, i, Settle(burns, attempt, poll))
  {
    match attempt
    case Answered201(statuses) => if |statuses| == |burns| { CreatedJustified(burns, statuses, poll, i); }
    case Answered409(echoed, id) => ConflictJustified(burns, echoed, id, poll, i);
    case Error(_) => {}
  }

  /** The status paired with a burn, and the burn a status names. */
  function StatusFor(burns: seq<string>, statuses: seq<Status>, i: nat): Option<nat>
    requires i < |burns|
  {
    StatusOf(statuses, burns[i])
  }

  function BurnFor(burns: seq<string>, statuses: seq<Status>, k: nat): Option<nat>
    requires k < |statuses|
  {
    PositionOf(burns, statuses[k].burn)
  }

  /** An accepted 201 pairs its statuses with the burns one to one: each burn's row carries the ID of
      its own status, and each status is the one paired with the burn it names. */
  lemma AcceptedIsABijection(burns: seq<string>, statuses: seq<Status>, poll: Poll)
    requires Distinct(Keys(burns)) && Settle(burns, Answered201(statuses), poll).result == Ok(Accepted(statuses))
    ensures |statuses| == |burns|
    ensures forall i {:trigger StatusFor(burns, statuses, i)} :: 0 <= i < |burns| ==>
      && StatusFor(burns, statuses, i).Some?
      && Settle(burns, Answered201(statuses), poll).marks[i] == Row(Submitted, Some(statuses[StatusFor(burns, statuses, i).value].id))
    ensures forall k {:trigger BurnFor(burns, statuses, k)} :: 0 <= k < |statuses| ==>
      BurnFor(burns, statuses, k).Some? && StatusFor(burns, statuses, BurnFor(burns, statuses, k).value) == Some(k)
  {
    assert Unanswered(burns, statuses).None? && Stranger(burns, statuses).None?;
    forall i {:trigger StatusFor(burns, statuses, i)} | 0 <= i < |burns| ensures StatusFor(burns, statuses, i).Some? {}
    forall k {:trigger BurnFor(burns, statuses, k)} | 0 <= k < |statuses| ensures BurnFor(burns, statuses, k).Some? {}
    forall k {:trigger BurnFor(burns, statuses, k)} | 0 <= k < |statuses|
      ensures StatusFor(burns, statuses, BurnFor(burns, statuses, k).value) == Some(k)
    {
      PairedBack(burns, statuses, k);
    }
  }

  lemma PairedBack(burns: seq<string>, statuses: seq<Status>, k: nat)
    requires Distinct(Keys(burns)) && |statuses| == |burns| && k < |statuses|
    requires forall i {:trigger StatusFor(burns, statuses, i)} :: 0 <= i < |burns| ==> StatusFor(burns, statuses, i).Some?
    requires forall m {:trigger BurnFor(burns, statuses, m)} :: 0 <= m < |statuses| ==> BurnFor(burns, statuses, m).Some?
    ensures StatusFor(burns, statuses, BurnFor(burns, statuses, k).value) == Some(k)
  {
    var f := seq(|burns|, i requires 0 <= i < |burns| => StatusFor(burns, statuses, i).value);
    var g := seq(|statuses|, m requires 0 <= m < |statuses| => BurnFor(burns, statuses, m).value);
    var named := seq(|statuses|, m requires 0 <= m < |statuses| => Key(statuses[m].burn));
    Matched(Keys(burns), named, f, g, k);
  }

  /** Distinct keys matched with as many names are matched one to one. */
  lemma Matched(keys: seq<string>, named: seq<string>, f: seq<nat>, g: seq<nat>, k: nat)
    requires Distinct(keys) && |keys| == |named| == |f| == |g| && k < |named|
    requires forall i :: 0 <= i < |f| ==> f[i] < |named| && named[f[i]] == keys[i]
    requires forall m :: 0 <= m < |g| ==> g[m] < |keys| && keys[g[m]] == named[m]
    ensures f[g[k]] == k
  {
    Pigeonhole(f, |named|, k);
    var i :| 0 <= i < |f| && f[i] == k;
    assert keys[i] == named[f[i]] == keys[g[k]];
  }

  /** `n` distinct numbers below `n` leave none out. */
  lemma Pigeonhole(f: seq<nat>, n: nat, k: nat)
    requires |f| == n && k < n && (forall i :: 0 <= i < n ==> f[i] < n) && (forall i, j :: 0 <= i < j < n ==> f[i] != f[j])
    ensures k in f
  {
    if k !in f { NoRoomForMore(f + [k], n); }
  }

  lemma {:induction false} NoRoomForMore(f: seq<nat>, n: nat)
    requires (forall i :: 0 <= i < |f| ==> f[i] < n) && (forall i, j :: 0 <= i < j < |f| ==> f[i] != f[j])
    ensures |f| <= n
  {
    assert forall i :: 0 <= i < |f| ==> f[i] in f;
    assert |f| > 0 ==> f[0] < n;
    if n > 0 {
      if n - 1 in f {
        var p :| 0 <= p < |f| && f[p] == n - 1;
        NoRoomForMore(f[..p] + f[p + 1..], n - 1);
      } else {
        NoRoomForMore(f, n - 1);
      }
    }
  }
}
