/** Burn evidence: one note, one spend and the faucet's transaction rows, assembled into a package or
    refused (crates/withdrawal-listener-attester/src/evidence.rs). */
module Evidence {
  import opened Basics

  type NoteId = nat
  type Nullifier = nat
  type TxId = nat
  type AccountId = nat

  /** A row of the faucet's transaction stream. `outputs` are the notes it created. */
  datatype Row = Row(id: TxId, account: AccountId, block: nat, inputs: seq<Nullifier>, outputs: seq<NoteId>)

  datatype Details = Details(nullifier: Nullifier, created: nat)
  datatype NoteRecord = NoteRecord(note: NoteId, details: Option<Details>)
  datatype SpendRecord = SpendRecord(nullifier: Nullifier, spentIn: Option<nat>)
  datatype Package = Package(tx: TxId, note: NoteId, nullifier: Nullifier, block: nat)

  /** The three reads, each of which may fail. */
  datatype Port = Port(
    noteById: NoteId -> Option<NoteRecord>,
    nullifierStatus: Nullifier -> Option<SpendRecord>,
    faucetTransactions: AccountId -> Option<seq<Row>>)

  datatype Reason =
    | NoSpendObserved
    | ConsumptionPrecedesCreation(created: nat, spent: nat)
    | NoConsumingTransaction
    | AmbiguousConsumingTransactions(count: nat)
    | ContradictoryTransactionRows(count: nat)
    | SpendBlockDisagreesWithLinkage(spent: nat, linked: nat)

  datatype EvidenceError =
    | ReadFailed | WrongNoteAnswered | NoteNotObservable | WrongNullifierAnswered
    | ReconciliationRequired(reason: Reason)

  // ---- The linkage -------------------------------------------------------------------------------

  predicate Consumes(row: Row, faucet: AccountId, nullifier: Nullifier) {
    row.account == faucet && nullifier in row.inputs
  }

  /** The transaction IDs that claim the nullifier, each once, in the order first met. */
  function Claimed(rows: seq<Row>, faucet: AccountId, nullifier: Nullifier): seq<TxId> {
    if |rows| == 0 then []
    else
      var before := Claimed(rows[..|rows| - 1], faucet, nullifier);
      var row := rows[|rows| - 1];
      if Consumes(row, faucet, nullifier) && row.id !in before then before + [row.id] else before
  }

  /** The rows of one transaction, in order. */
  function RowsOf(rows: seq<Row>, id: TxId): seq<Row> {
    if |rows| == 0 then []
    else
      var before := RowsOf(rows[..|rows| - 1], id);
      if rows[|rows| - 1].id == id then before + [rows[|rows| - 1]] else before
  }

  /** The one transaction that consumed the note in the block it was spent in. A claimed ID always has
      a row, so no row for it cannot happen. */
  function Linkage(rows: seq<Row>, faucet: AccountId, nullifier: Nullifier, spent: nat): Result<TxId, Reason> {
    var claimed := Claimed(rows, faucet, nullifier);
    if |claimed| == 0 then Err(NoConsumingTransaction)
    else if |claimed| > 1 then Err(AmbiguousConsumingTransactions(|claimed|))
    else
      var same := RowsOf(rows, claimed[0]);
      if |same| == 0 then Err(NoConsumingTransaction)
      else if exists row :: row in same && row != same[0] then Err(ContradictoryTransactionRows(|same|))
      else if same[0].block != spent then Err(SpendBlockDisagreesWithLinkage(spent, same[0].block))
      else Ok(same[0].id)
  }

  /** The package, or why there is none. */
  function Assembled(port: Port, note: NoteId, faucet: AccountId): Result<Package, EvidenceError> {
    var record := port.noteById(note);
    if record.None? then Err(ReadFailed)
    else if record.value.note != note then Err(WrongNoteAnswered)
    else if record.value.details.None? then Err(NoteNotObservable)
    else
      var nullifier, created := record.value.details.value.nullifier, record.value.details.value.created;
      var spend := port.nullifierStatus(nullifier);
      if spend.None? then Err(ReadFailed)
      else if spend.value.nullifier != nullifier then Err(WrongNullifierAnswered)
      else if spend.value.spentIn.None? then Err(ReconciliationRequired(NoSpendObserved))
      else if spend.value.spentIn.value <= created then
        Err(ReconciliationRequired(ConsumptionPrecedesCreation(created, spend.value.spentIn.value)))
      else
        var rows := port.faucetTransactions(faucet);
        if rows.None? then Err(ReadFailed)
        else
          var linked := Linkage(rows.value, faucet, nullifier, spend.value.spentIn.value);
          if linked.Err? then Err(ReconciliationRequired(linked.error))
          else Ok(Package(linked.value, note, nullifier, created))
  }

  // ---- The loops ---------------------------------------------------------------------------------

  method CollectClaimed(rows: seq<Row>, faucet: AccountId, nullifier: Nullifier) returns (claimed: seq<TxId>)
    ensures claimed == Claimed(rows, faucet, nullifier)
  {
    claimed := [];
    for i := 0 to |rows|
      invariant claimed == Claimed(rows[..i], faucet, nullifier)
    {
      assert rows[..i + 1][..i] == rows[..i];
      if Consumes(rows[i], faucet, nullifier) && rows[i].id !in claimed {
        claimed := claimed + [rows[i].id];
      }
    }
    assert rows[..|rows|] == rows;
  }

  method CollectRows(rows: seq<Row>, id: TxId) returns (same: seq<Row>)
    ensures same == RowsOf(rows, id)
  {
    same := [];
    for i := 0 to |rows|
      invariant same == RowsOf(rows[..i], id)
    {
      assert rows[..i + 1][..i] == rows[..i];
      if rows[i].id == id { same := same + [rows[i]]; }
    }
    assert rows[..|rows|] == rows;
  }

  method AssembleEvidence(port: Port, note: NoteId, faucet: AccountId) returns (r: Result<Package, EvidenceError>)
    ensures r == Assembled(port, note, faucet)
  {
    var record := port.noteById(note);
    if record.None? { return Err(ReadFailed); }
    if record.value.note != note { return Err(WrongNoteAnswered); }
    if record.value.details.None? { return Err(NoteNotObservable); }
    var details := record.value.details.value;
    var spend := port.nullifierStatus(details.nullifier);
    if spend.None? { return Err(ReadFailed); }
    if spend.value.nullifier != details.nullifier { return Err(WrongNullifierAnswered); }
    if spend.value.spentIn.None? { return Err(ReconciliationRequired(NoSpendObserved)); }
    var spent := spend.value.spentIn.value;
    if spent <= details.created {
      return Err(ReconciliationRequired(ConsumptionPrecedesCreation(details.created, spent)));
    }
    var transactions := port.faucetTransactions(faucet);
    if transactions.None? { return Err(ReadFailed); }
    var claimed := CollectClaimed(transactions.value, faucet, details.nullifier);
    if |claimed| == 0 { return Err(ReconciliationRequired(NoConsumingTransaction)); }
    if |claimed| > 1 { return Err(ReconciliationRequired(AmbiguousConsumingTransactions(|claimed|))); }
    var same := CollectRows(transactions.value, claimed[0]);
    ClaimedIds(transactions.value, faucet, details.nullifier);
    RowsOfMembers(transactions.value, claimed[0]);
    assert claimed[0] in claimed;
    var i := 0;
    while i < |same|
      invariant 0 <= i <= |same| && forall k :: 0 <= k < i ==> same[k] == same[0]
    {
      if same[i] != same[0] {
        return Err(ReconciliationRequired(ContradictoryTransactionRows(|same|)));
      }
      i := i + 1;
    }
    if same[0].block != spent {
      return Err(ReconciliationRequired(SpendBlockDisagreesWithLinkage(spent, same[0].block)));
    }
    r := Ok(Package(same[0].id, note, details.nullifier, details.created));
  }

  // ---- What the loops collect --------------------------------------------------------------------

  ghost predicate Claims(rows: seq<Row>, faucet: AccountId, nullifier: Nullifier, id: TxId) {
    exists row :: row in rows && Consumes(row, faucet, nullifier) && row.id == id
  }

  predicate NoRepeats(ids: seq<TxId>) {
    forall i, j :: 0 <= i < j < |ids| ==> ids[i] != ids[j]
  }

  lemma {:induction false} ClaimedIds(rows: seq<Row>, faucet: AccountId, nullifier: Nullifier)
    ensures var claimed := Claimed(rows, faucet, nullifier);
      && NoRepeats(claimed)
      && (forall id :: id in claimed <==> Claims(rows, faucet, nullifier, id))
  {
    if |rows| > 0 {
      var init, last := rows[..|rows| - 1], rows[|rows| - 1];
      ClaimedIds(init, faucet, nullifier);
      assert rows == init + [last];
      var before := Claimed(init, faucet, nullifier);
      assert forall k :: 0 <= k < |before| ==> before[k] in before;
      forall id ensures Claims(rows, faucet, nullifier, id) <==>
        Claims(init, faucet, nullifier, id) || (Consumes(last, faucet, nullifier) && last.id == id) {}
    }
  }

  lemma {:induction false} RowsOfMembers(rows: seq<Row>, id: TxId)
    ensures forall row :: row in RowsOf(rows, id) <==> row in rows && row.id == id
  {
    if |rows| > 0 {
      RowsOfMembers(rows[..|rows| - 1], id);
      assert rows == rows[..|rows| - 1] + [rows[|rows| - 1]];
    }
  }

  lemma {:induction false} RowsOfCounts(rows: seq<Row>, id: TxId, row: Row)
    ensures multiset(RowsOf(rows, id))[row] == if row.id == id then multiset(rows)[row] else 0
  {
    if |rows| > 0 {
      RowsOfCounts(rows[..|rows| - 1], id, row);
      assert rows == rows[..|rows| - 1] + [rows[|rows| - 1]];
    }
  }

  // ---- When a package exists ---------------------------------------------------------------------

  /** Exactly one transaction claims the nullifier, all its rows are one row, and it landed in the
      block of the spend. */
  ghost predicate LinkedBy(rows: seq<Row>, faucet: AccountId, nullifier: Nullifier, spent: nat, id: TxId) {
    && (forall other :: Claims(rows, faucet, nullifier, other) <==> other == id)
    && (forall row :: row in rows && row.id == id ==> row.block == spent)
    && (forall a, b :: a in rows && b in rows && a.id == id && b.id == id ==> a == b)
  }

  lemma LinkageExactly(rows: seq<Row>, faucet: AccountId, nullifier: Nullifier, spent: nat, id: TxId)
    ensures Linkage(rows, faucet, nullifier, spent) == Ok(id) <==> LinkedBy(rows, faucet, nullifier, spent, id)
  {
    var claimed := Claimed(rows, faucet, nullifier);
    ClaimedIds(rows, faucet, nullifier);
    assert |claimed| > 1 ==> Claims(rows, faucet, nullifier, claimed[0]) && Claims(rows, faucet, nullifier, claimed[1]);
    assert |claimed| == 0 ==> !Claims(rows, faucet, nullifier, id);
    if |claimed| == 1 {
      var same := RowsOf(rows, claimed[0]);
      RowsOfMembers(rows, claimed[0]);
      assert claimed[0] in claimed;
      if Linkage(rows, faucet, nullifier, spent) == Ok(id) {
        assert same[0] in same;
        forall a | a in rows && a.id == id ensures a == same[0] { assert a in same; }
      }
      if LinkedBy(rows, faucet, nullifier, spent, id) {
        assert Claims(rows, faucet, nullifier, claimed[0]);
        assert same[0] in same;
      }
    }
  }

  /** A package is assembled exactly when the note is public and observed spent after its creation,
      and one transaction is linked to the spend. */
  lemma PackageExactly(port: Port, note: NoteId, faucet: AccountId, package: Package)
    ensures Assembled(port, note, faucet) == Ok(package) <==>
      && package.note == note
      && port.noteById(note) == Some(NoteRecord(note, Some(Details(package.nullifier, package.block))))
      && port.nullifierStatus(package.nullifier).Some?
      && (var spend := port.nullifierStatus(package.nullifier).value;
          && spend.nullifier == package.nullifier && spend.spentIn.Some? && package.block < spend.spentIn.value
          && port.faucetTransactions(faucet).Some?
          && LinkedBy(port.faucetTransactions(faucet).value, faucet, package.nullifier, spend.spentIn.value, package.tx))
  {
    var record := port.noteById(note);
    if record.Some? && record.value.details.Some? {
      var nullifier := record.value.details.value.nullifier;
      var spend, rows := port.nullifierStatus(nullifier), port.faucetTransactions(faucet);
      if spend.Some? && spend.value.spentIn.Some? && rows.Some? {
        LinkageExactly(rows.value, faucet, nullifier, spend.value.spentIn.value, package.tx);
      }
    }
  }

  // ---- Order does not matter ---------------------------------------------------------------------

  lemma SameSize<T(!new)>(a: seq<T>, b: seq<T>)
    requires forall x :: multiset(a)[x] == multiset(b)[x]
    ensures |a| == |b|
  {
    assert multiset(a) == multiset(b);
    assert |multiset(a)| == |a| && |multiset(b)| == |b|;
  }

  lemma {:induction false} DistinctCount(ids: seq<TxId>, id: TxId)
    requires NoRepeats(ids)
    ensures multiset(ids)[id] == if id in ids then 1 else 0
  {
    if |ids| > 0 {
      DistinctCount(ids[..|ids| - 1], id);
      assert ids == ids[..|ids| - 1] + [ids[|ids| - 1]];
    }
  }

  lemma SameClaims(rows: seq<Row>, other: seq<Row>, faucet: AccountId, nullifier: Nullifier)
    requires multiset(rows) == multiset(other)
    ensures var a, b := Claimed(rows, faucet, nullifier), Claimed(other, faucet, nullifier);
      |a| == |b| && (|a| == 1 ==> a == b)
  {
    var a, b := Claimed(rows, faucet, nullifier), Claimed(other, faucet, nullifier);
    ClaimedIds(rows, faucet, nullifier);
    ClaimedIds(other, faucet, nullifier);
    SameMembers(rows, other);
    forall id ensures id in a <==> id in b {
      assert Claims(rows, faucet, nullifier, id) <==> Claims(other, faucet, nullifier, id);
    }
    forall id ensures multiset(a)[id] == multiset(b)[id] {
      DistinctCount(a, id);
      DistinctCount(b, id);
    }
    SameSize(a, b);
    if |a| == 1 { assert a[0] in a; assert a[0] in b; }
  }

  lemma SameMembers(rows: seq<Row>, other: seq<Row>)
    requires multiset(rows) == multiset(other)
    ensures forall row :: row in rows <==> row in other
  {
    forall row ensures row in rows <==> row in other {
      assert row in multiset(rows) <==> row in multiset(other);
    }
  }

  /** The linkage, or the reason there is none, is a property of the rows and not of their order. */
  lemma LinkageIgnoresOrder(rows: seq<Row>, other: seq<Row>, faucet: AccountId, nullifier: Nullifier, spent: nat)
    requires multiset(rows) == multiset(other)
    ensures Linkage(rows, faucet, nullifier, spent) == Linkage(other, faucet, nullifier, spent)
  {
    SameClaims(rows, other, faucet, nullifier);
    var claimed := Claimed(rows, faucet, nullifier);
    if |claimed| == 1 {
      var id := claimed[0];
      var a, b := RowsOf(rows, id), RowsOf(other, id);
      forall row ensures multiset(a)[row] == multiset(b)[row] {
        RowsOfCounts(rows, id, row);
        RowsOfCounts(other, id, row);
      }
      SameSize(a, b);
      SameMembers(a, b);
      if |a| > 0 { assert a[0] in b && b[0] in a; }
    }
  }

  /** Whatever order the node lists its rows in, the package or the error is the same. */
  lemma EvidenceIgnoresOrder(port: Port, note: NoteId, faucet: AccountId, rows: seq<Row>, other: seq<Row>)
    requires multiset(rows) == multiset(other)
    ensures Assembled(port.(faucetTransactions := _ => Some(rows)), note, faucet)
         == Assembled(port.(faucetTransactions := _ => Some(other)), note, faucet)
  {
    var record := port.noteById(note);
    if record.Some? && record.value.details.Some? {
      var spend := port.nullifierStatus(record.value.details.value.nullifier);
      if spend.Some? && spend.value.spentIn.Some? {
        LinkageIgnoresOrder(rows, other, faucet, record.value.details.value.nullifier, spend.value.spentIn.value);
      }
    }
  }
}
