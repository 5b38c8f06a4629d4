/** Burn discovery: one authenticated block per store transaction, and the declarative table those
    transactions build (crates/xusdc-light-attester/src/attester.rs and store.rs). */
module Discovery {
  import opened Basics
  import opened Submission
  import opened StoreSpec
  import opened StoreInvariant

  /** A public output note; `burn` says whether it is structurally a burn of the configured faucet. */
  datatype Note = Note(id: NoteId, nullifier: Nullifier, burn: bool)

  /** An authenticated block: its public output notes, and the nullifiers its faucet transactions
      spend, each in block order. */
  datatype Block = Block(num: nat, notes: seq<Note>, spends: seq<Nullifier>)

  // ---- What the code does ------------------------------------------------------------------------

  /** The block's burn notes the store does not know yet. */
  function NewCandidates(burns: map<NoteId, Burn>, notes: seq<Note>): seq<Note> {
    if |notes| == 0 then []
    else
      var before := NewCandidates(burns, notes[..|notes| - 1]);
      var note := notes[|notes| - 1];
      if note.burn && note.id !in burns then before + [note] else before
  }

  predicate IsCandidate(burns: map<NoteId, Burn>, nullifier: Nullifier, id: NoteId) {
    id in burns && burns[id].nullifier == nullifier && burns[id].consumed.None?
  }

  /** The saved, unconsumed note with this nullifier. */
  ghost function CandidateOf(burns: map<NoteId, Burn>, nullifier: Nullifier): Option<NoteId> {
    if exists id :: IsCandidate(burns, nullifier, id)
    then var id :| IsCandidate(burns, nullifier, id); Some(id) else None
  }

  /** A saved note and the block that consumed it. */
  datatype Discovered = Discovered(id: NoteId, nullifier: Nullifier, created: nat, consumed: nat)

  /** The notes saved from earlier blocks that the block's faucet transactions consume. */
  ghost function Consumed(burns: map<NoteId, Burn>, spends: seq<Nullifier>, num: nat): seq<Discovered> {
    if |spends| == 0 then []
    else
      var before := Consumed(burns, spends[..|spends| - 1], num);
      var found := CandidateOf(burns, spends[|spends| - 1]);
      if found.Some? then
        before + [Discovered(found.value, burns[found.value].nullifier, burns[found.value].created, num)]
      else before
  }

  predicate Clashes(burns: map<NoteId, Burn>, note: Note) {
    note.id in burns || exists id :: id in burns && burns[id].nullifier == note.nullifier
  }

  /** Inserts the candidates one by one; the table's keys are the note ID and the nullifier. */
  function InsertAll(burns: map<NoteId, Burn>, candidates: seq<Note>, num: nat): Result<map<NoteId, Burn>, StoreError> {
    if |candidates| == 0 then Ok(burns)
    else
      var before := InsertAll(burns, candidates[..|candidates| - 1], num);
      var note := candidates[|candidates| - 1];
      if before.Err? then before
      else if Clashes(before.value, note) then Err(Conflicting)
      else Ok(before.value[note.id := Burn(note.nullifier, num, None, None, None)])
  }

  /** Turns the saved candidate into this burn in place; any other record of the note or its
      nullifier clashes with the table's keys. */
  function Promote(burns: map<NoteId, Burn>, found: Discovered): Result<map<NoteId, Burn>, StoreError> {
    if found.id in burns && burns[found.id].consumed.None? then
      Ok(burns[found.id := burns[found.id].(consumed := Some(found.consumed))])
    else if Clashes(burns, Note(found.id, found.nullifier, true)) then Err(Conflicting)
    else Ok(burns[found.id := Burn(found.nullifier, found.created, Some(found.consumed), None, None)])
  }

  function PromoteAll(burns: map<NoteId, Burn>, found: seq<Discovered>): Result<map<NoteId, Burn>, StoreError> {
    if |found| == 0 then Ok(burns)
    else
      var before := PromoteAll(burns, found[..|found| - 1]);
      if before.Err? then before else Promote(before.value, found[|found| - 1])
  }

  /** Nothing saved with a block comes from a later one, and a burn is consumed after it is created. */
  predicate InOrder(found: seq<Discovered>, num: nat) {
    forall i :: 0 <= i < |found| ==> found[i].created < found[i].consumed <= num
  }

  /** One block's candidates, burns and checkpoint, as one transaction. */
  function SaveScan(s: State, candidates: seq<Note>, found: seq<Discovered>, num: nat): Result<State, StoreError> {
    if !InOrder(found, num) then Err(Conflicting)
    else
      var inserted := InsertAll(s.burns, candidates, num);
      if inserted.Err? then Err(inserted.error)
      else
        var promoted := PromoteAll(inserted.value, found);
        if promoted.Err? then Err(promoted.error)
        else Ok(s.(burns := promoted.value, checkpoint := Some(num)))
  }

  ghost function SaveBlock(s: State, block: Block): Result<State, StoreError> {
    SaveScan(s, NewCandidates(s.burns, block.notes), Consumed(s.burns, block.spends, block.num), block.num)
  }

  // ---- When a block can be saved, and what saving it does ----------------------------------------

  predicate IsNew(burns: map<NoteId, Burn>, note: Note) {
    note.burn && note.id !in burns
  }

  predicate Publishes(block: Block, id: NoteId) {
    exists i :: 0 <= i < |block.notes| && block.notes[i].id == id && block.notes[i].burn
  }

  ghost predicate DistinctNullifiers(burns: map<NoteId, Burn>) {
    forall a, b :: a in burns && b in burns && burns[a].nullifier == burns[b].nullifier ==> a == b
  }

  /** The new burn notes have IDs and nullifiers of their own, and no saved note is spent twice. */
  ghost predicate Acceptable(burns: map<NoteId, Burn>, block: Block) {
    && (forall i, j :: 0 <= i < j < |block.notes| && IsNew(burns, block.notes[i]) && IsNew(burns, block.notes[j]) ==>
          block.notes[i].id != block.notes[j].id && block.notes[i].nullifier != block.notes[j].nullifier)
    && (forall i, id :: 0 <= i < |block.notes| && IsNew(burns, block.notes[i]) && id in burns ==>
          burns[id].nullifier != block.notes[i].nullifier)
    && (forall i, j, id :: 0 <= i < j < |block.spends| && IsCandidate(burns, block.spends[i], id) ==>
          block.spends[i] != block.spends[j])
  }

  /** The row a saved note has after the block. */
  function AfterBlock(burn: Burn, block: Block): Burn {
    if burn.consumed.None? && burn.nullifier in block.spends then burn.(consumed := Some(block.num)) else burn
  }

  ghost predicate IsAfterBlock(burns: map<NoteId, Burn>, block: Block, burns': map<NoteId, Burn>) {
    && (forall id :: id in burns' <==> id in burns || Publishes(block, id))
    && (forall id :: id in burns ==> burns'[id] == AfterBlock(burns[id], block))
    && (forall i :: 0 <= i < |block.notes| && IsNew(burns, block.notes[i]) ==>
          burns'[block.notes[i].id] == Burn(block.notes[i].nullifier, block.num, None, None, None))
  }

  /** Inserting the new notes of a prefix of the block. */
  ghost predicate Inserted(burns: map<NoteId, Burn>, notes: seq<Note>, num: nat, burns': map<NoteId, Burn>) {
    && (forall id :: id in burns ==> id in burns' && burns'[id] == burns[id])
    && (forall id :: id in burns' && id !in burns ==> exists i :: 0 <= i < |notes| && IsNew(burns, notes[i]) && notes[i].id == id)
    && (forall i :: 0 <= i < |notes| && IsNew(burns, notes[i]) ==>
          && notes[i].id in burns'
          && burns'[notes[i].id] == Burn(notes[i].nullifier, num, None, None, None))
  }

  ghost predicate FreshKeys(burns: map<NoteId, Burn>, notes: seq<Note>) {
    && (forall i, j :: 0 <= i < j < |notes| && IsNew(burns, notes[i]) && IsNew(burns, notes[j]) ==>
          notes[i].id != notes[j].id && notes[i].nullifier != notes[j].nullifier)
    && (forall i, id :: 0 <= i < |notes| && IsNew(burns, notes[i]) && id in burns ==>
          burns[id].nullifier != notes[i].nullifier)
  }

  lemma {:induction false} InsertNotes(burns: map<NoteId, Burn>, notes: seq<Note>, num: nat)
    ensures var r := InsertAll(burns, NewCandidates(burns, notes), num);
      && (r.Ok? <==> FreshKeys(burns, notes))
      && (r.Ok? ==> Inserted(burns, notes, num, r.value))
  {
    if |notes| > 0 {
      var init := notes[..|notes| - 1];
      var note := notes[|notes| - 1];
      InsertNotes(burns, init, num);
      var before := NewCandidates(burns, init);
      if IsNew(burns, note) {
        assert (before + [note])[..|before|] == before;
        var prior := InsertAll(burns, before, num);
        if prior.Ok? {
          InsertOne(burns, init, note, num, prior.value);
        } else {
          assert !FreshKeys(burns, notes) by { FreshPrefix(burns, init, note); }
        }
      } else {
        FreshPrefix(burns, init, note);
      }
      assert notes == init + [note];
    }
  }

  lemma FreshPrefix(burns: map<NoteId, Burn>, init: seq<Note>, note: Note)
    ensures FreshKeys(burns, init + [note]) ==> FreshKeys(burns, init)
    ensures !IsNew(burns, note) && FreshKeys(burns, init) ==> FreshKeys(burns, init + [note])
  {
    var notes := init + [note];
    assert forall i :: 0 <= i < |init| ==> notes[i] == init[i];
  }

  lemma InsertOne(burns: map<NoteId, Burn>, init: seq<Note>, note: Note, num: nat, prior: map<NoteId, Burn>)
    requires IsNew(burns, note) && FreshKeys(burns, init) && Inserted(burns, init, num, prior)
    ensures Clashes(prior, note) <==> !FreshKeys(burns, init + [note])
    ensures !Clashes(prior, note) ==>
      Inserted(burns, init + [note], num, prior[note.id := Burn(note.nullifier, num, None, None, None)])
  {
    var notes := init + [note];
    assert notes[|init|] == note;
    assert forall i :: 0 <= i < |init| ==> notes[i] == init[i];
    if Clashes(prior, note) {
      if note.id in prior {
        var i :| 0 <= i < |init| && IsNew(burns, init[i]) && init[i].id == note.id;
        assert notes[i].id == notes[|init|].id;
      } else {
        var id :| id in prior && prior[id].nullifier == note.nullifier;
        if id !in burns {
          var i :| 0 <= i < |init| && IsNew(burns, init[i]) && init[i].id == id;
          assert notes[i].nullifier == notes[|init|].nullifier;
        }
      }
    }
  }

  /** Promoting the consumed notes of a prefix of the spends. */
  ghost predicate Promoted(burns: map<NoteId, Burn>, base: map<NoteId, Burn>, spends: seq<Nullifier>, num: nat, after: map<NoteId, Burn>) {
    && after.Keys == base.Keys
    && (forall id :: id in base ==>
          after[id] == if id in burns && burns[id].consumed.None? && burns[id].nullifier in spends
                       then base[id].(consumed := Some(num)) else base[id])
  }

  ghost predicate SpentOnce(burns: map<NoteId, Burn>, spends: seq<Nullifier>) {
    forall i, j, id :: 0 <= i < j < |spends| && IsCandidate(burns, spends[i], id) ==> spends[i] != spends[j]
  }

  lemma {:induction false} PromoteNotes(burns: map<NoteId, Burn>, base: map<NoteId, Burn>, spends: seq<Nullifier>, num: nat)
    requires DistinctNullifiers(burns)
    requires forall id :: id in burns ==> id in base && base[id] == burns[id] && burns[id].created < num
    ensures var r := PromoteAll(base, Consumed(burns, spends, num));
      && (r.Ok? <==> SpentOnce(burns, spends))
      && (r.Ok? ==> Promoted(burns, base, spends, num, r.value))
      && InOrder(Consumed(burns, spends, num), num)
  {
    if |spends| > 0 {
      var init := spends[..|spends| - 1];
      var nullifier := spends[|spends| - 1];
      PromoteNotes(burns, base, init, num);
      assert spends == init + [nullifier];
      var before := Consumed(burns, init, num);
      var found := CandidateOf(burns, nullifier);
      var prior := PromoteAll(base, before);
      SpentPrefix(burns, init, nullifier);
      if found.Some? {
        var last := Discovered(found.value, burns[found.value].nullifier, burns[found.value].created, num);
        assert (before + [last])[..|before|] == before;
        if prior.Ok? && nullifier !in init {
          PromoteOne(burns, base, init, nullifier, num, prior.value, found.value);
        }
      } else if prior.Ok? {
        PromoteNone(burns, base, init, nullifier, num, prior.value);
      }
    }
  }

  lemma SpentPrefix(burns: map<NoteId, Burn>, init: seq<Nullifier>, nullifier: Nullifier)
    requires DistinctNullifiers(burns)
    ensures SpentOnce(burns, init + [nullifier]) <==>
      SpentOnce(burns, init) && (CandidateOf(burns, nullifier).Some? ==> nullifier !in init)
  {
    var spends := init + [nullifier];
    assert forall i :: 0 <= i < |init| ==> spends[i] == init[i];
    assert spends[|init|] == nullifier;
  }

  lemma PromoteNone(burns: map<NoteId, Burn>, base: map<NoteId, Burn>, init: seq<Nullifier>, nullifier: Nullifier,
                    num: nat, prior: map<NoteId, Burn>)
    requires CandidateOf(burns, nullifier).None? && Promoted(burns, base, init, num, prior)
    ensures Promoted(burns, base, init + [nullifier], num, prior)
  {
    forall id | id in burns && burns[id].consumed.None? ensures burns[id].nullifier != nullifier {
      assert !IsCandidate(burns, nullifier, id);
    }
  }

  lemma PromoteOne(burns: map<NoteId, Burn>, base: map<NoteId, Burn>, init: seq<Nullifier>, nullifier: Nullifier,
                   num: nat, prior: map<NoteId, Burn>, id: NoteId)
    requires DistinctNullifiers(burns) && IsCandidate(burns, nullifier, id) && nullifier !in init
    requires forall n :: n in burns ==> n in base && base[n] == burns[n]
    requires Promoted(burns, base, init, num, prior)
    ensures id in prior && prior[id] == burns[id]
    ensures Promoted(burns, base, init + [nullifier], num, prior[id := prior[id].(consumed := Some(num))])
  {
    forall n | n in base && n != id
      ensures n in burns && burns[n].consumed.None? && burns[n].nullifier in init + [nullifier] ==>
        burns[n].nullifier in init
    {}
  }

  /** A block is saved exactly when its new notes do not clash and no saved note is spent twice in
      it, and then the table is the one the block calls for. */
  lemma SavesBlock(s: State, block: Block)
    requires DistinctNullifiers(s.burns)
    requires forall id :: id in s.burns ==> s.burns[id].created < block.num
    ensures SaveBlock(s, block).Ok? <==> Acceptable(s.burns, block)
    ensures SaveBlock(s, block).Ok? ==>
      var s' := SaveBlock(s, block).value;
      && IsAfterBlock(s.burns, block, s'.burns) && DistinctNullifiers(s'.burns)
      && s' == s.(burns := s'.burns, checkpoint := Some(block.num))
  {
    InsertNotes(s.burns, block.notes, block.num);
    var inserted := InsertAll(s.burns, NewCandidates(s.burns, block.notes), block.num);
    if inserted.Ok? {
      var base := inserted.value;
      PromoteNotes(s.burns, base, block.spends, block.num);
      var r := PromoteAll(base, Consumed(s.burns, block.spends, block.num));
      if r.Ok? {
        BlockApplied(s.burns, block, base, r.value);
      }
    }
  }

  lemma BlockApplied(burns: map<NoteId, Burn>, block: Block, base: map<NoteId, Burn>, after: map<NoteId, Burn>)
    requires DistinctNullifiers(burns) && FreshKeys(burns, block.notes)
    requires Inserted(burns, block.notes, block.num, base) && Promoted(burns, base, block.spends, block.num, after)
    ensures IsAfterBlock(burns, block, after) && DistinctNullifiers(after)
  {
    forall id | Publishes(block, id) ensures id in base {
      var i :| 0 <= i < |block.notes| && block.notes[i].id == id && block.notes[i].burn;
      assert id !in burns ==> IsNew(burns, block.notes[i]);
    }
  }

  // ---- The declarative table ---------------------------------------------------------------------

  predicate NoteAt(block: Block, id: NoteId, nullifier: Nullifier) {
    exists i :: 0 <= i < |block.notes| && block.notes[i] == Note(id, nullifier, true)
  }

  /** Block `p` of the chain is the first to publish the note. */
  predicate FirstPublished(chain: seq<Block>, id: NoteId, p: nat) {
    p < |chain| && Publishes(chain[p], id) && forall q :: 0 <= q < p ==> !Publishes(chain[q], id)
  }

  /** Block `c` is the first after block `p` in which a faucet transaction spends the nullifier. */
  predicate FirstSpent(chain: seq<Block>, nullifier: Nullifier, p: nat, c: nat) {
    p < c < |chain| && nullifier in chain[c].spends && forall k :: p < k < c ==> nullifier !in chain[k].spends
  }

  /** The columns of a burn row that discovery writes. */
  datatype Found = Found(nullifier: Nullifier, created: nat, consumed: Option<nat>)

  function Columns(burn: Burn): Found {
    Found(burn.nullifier, burn.created, burn.consumed)
  }

  /** The chain, scanned from the anchor, gives the note this row. */
  predicate RowOf(chain: seq<Block>, anchor: nat, id: NoteId, burn: Found) {
    && anchor <= burn.created
    && FirstPublished(chain, id, burn.created - anchor)
    && NoteAt(chain[burn.created - anchor], id, burn.nullifier)
    && (match burn.consumed
        case None => forall k :: burn.created - anchor < k < |chain| ==> burn.nullifier !in chain[k].spends
        case Some(c) => burn.created < c && FirstSpent(chain, burn.nullifier, burn.created - anchor, c - anchor))
  }

  predicate Known(chain: seq<Block>, id: NoteId) {
    exists p :: 0 <= p < |chain| && Publishes(chain[p], id)
  }

  /** The burns table is the one the authenticated blocks determine. */
  ghost predicate Reflects(s: State, chain: seq<Block>) {
    && (forall id {:trigger Known(chain, id)} :: id in s.burns <==> Known(chain, id))
    && (forall id {:trigger RowOf(chain, s.anchor, id, Columns(s.burns[id]))} ::
          id in s.burns ==> RowOf(chain, s.anchor, id, Columns(s.burns[id])))
    && DistinctNullifiers(s.burns)
    && s.checkpoint == (if |chain| == 0 then None else Some(s.anchor + |chain| - 1))
  }

  lemma CreatedBelow(s: State, chain: seq<Block>)
    requires Reflects(s, chain)
    ensures forall id :: id in s.burns ==> s.burns[id].created < s.anchor + |chain|
  {
    forall id | id in s.burns ensures s.burns[id].created < s.anchor + |chain| {
      assert RowOf(chain, s.anchor, id, Columns(s.burns[id]));
    }
  }

  lemma SavingReflects(s: State, chain: seq<Block>, block: Block)
    requires Reflects(s, chain) && block.num == s.anchor + |chain|
    requires SaveBlock(s, block).Ok?
    ensures Reflects(SaveBlock(s, block).value, chain + [block])
  {
    CreatedBelow(s, chain);
    SavesBlock(s, block);
    var s' := SaveBlock(s, block).value;
    var chain' := chain + [block];
    assert forall p :: 0 <= p < |chain| ==> chain'[p] == chain[p];
    assert chain'[|chain|] == block;
    forall id ensures id in s'.burns <==> Known(chain', id) {
      assert id in s.burns <==> Known(chain, id);
      if id in s.burns {
        var p :| 0 <= p < |chain| && Publishes(chain[p], id);
        assert Publishes(chain'[p], id);
      } else if Publishes(block, id) {
        assert Publishes(chain'[|chain|], id);
      }
    }
    forall id | id in s'.burns ensures RowOf(chain', s.anchor, id, Columns(s'.burns[id])) {
      assert id in s.burns <==> Known(chain, id);
      if id in s.burns {
        RowGrows(chain, s.anchor, id, s.burns[id], block);
      } else {
        var i :| 0 <= i < |block.notes| && block.notes[i].id == id && block.notes[i].burn;
        assert IsNew(s.burns, block.notes[i]);
        assert block.notes[i] == Note(id, s'.burns[id].nullifier, true);
        assert chain'[|chain|].notes[i] == Note(id, s'.burns[id].nullifier, true);
      }
    }
  }

  lemma RowGrows(chain: seq<Block>, anchor: nat, id: NoteId, burn: Burn, block: Block)
    requires RowOf(chain, anchor, id, Columns(burn)) && block.num == anchor + |chain|
    ensures RowOf(chain + [block], anchor, id, Columns(AfterBlock(burn, block)))
  {
    var chain' := chain + [block];
    assert forall p :: 0 <= p < |chain| ==> chain'[p] == chain[p];
  }

  ghost predicate SameDiscovery(s: State, s': State) {
    && s'.burns.Keys == s.burns.Keys
    && (forall id :: id in s.burns ==> Columns(s'.burns[id]) == Columns(s.burns[id]))
  }

  /** A note ID commits to the note. */
  predicate OneNotePerId(block: Block) {
    forall i, j :: 0 <= i < |block.notes| && 0 <= j < |block.notes| ==>
      block.notes[i].id == block.notes[j].id ==> block.notes[i] == block.notes[j]
  }

  /** The authenticated blocks determine the table: any two stores that reflect the same chain agree
      on every discovered column. */
  lemma ChainDeterminesTable(s: State, s': State, chain: seq<Block>)
    requires Reflects(s, chain) && Reflects(s', chain) && s.anchor == s'.anchor
    requires forall p :: 0 <= p < |chain| ==> OneNotePerId(chain[p])
    ensures SameDiscovery(s, s')
  {
    forall id ensures id in s.burns <==> id in s'.burns {
      assert id in s.burns <==> Known(chain, id);
    }
    forall id | id in s.burns ensures Columns(s'.burns[id]) == Columns(s.burns[id]) {
      SameRow(chain, s.anchor, id, Columns(s.burns[id]), Columns(s'.burns[id]));
    }
  }

  lemma SameRow(chain: seq<Block>, anchor: nat, id: NoteId, a: Found, b: Found)
    requires RowOf(chain, anchor, id, a) && RowOf(chain, anchor, id, b)
    requires forall p :: 0 <= p < |chain| ==> OneNotePerId(chain[p])
    ensures a == b
  {
    var p := a.created - anchor;
    assert p == b.created - anchor;
    var i :| 0 <= i < |chain[p].notes| && chain[p].notes[i] == Note(id, a.nullifier, true);
    var j :| 0 <= j < |chain[p].notes| && chain[p].notes[j] == Note(id, b.nullifier, true);
    assert chain[p].notes[i] == chain[p].notes[j];
    assert a.consumed.Some? && b.consumed.Some? ==> a.consumed.value - anchor == b.consumed.value - anchor;
  }

  // ---- Discovery keeps the store -----------------------------------------------------------------

  lemma BlockKeeps(s: State, block: Block)
    requires WellKept(s) && DistinctNullifiers(s.burns) && s.anchor <= block.num
    requires forall id :: id in s.burns ==> s.burns[id].created < block.num
    requires SaveBlock(s, block).Ok?
    ensures WellKept(SaveBlock(s, block).value)
  {
    SavesBlock(s, block);
    var s' := SaveBlock(s, block).value;
    forall n | n in s'.burns ensures NoteKept(s', n) {
      if n in s.burns {
        assert NoteKept(s, n);
      } else {
        NoHistoryOfUnknown(s.events, n);
        var i :| 0 <= i < |block.notes| && block.notes[i].id == n && block.notes[i].burn;
        assert IsNew(s.burns, block.notes[i]);
      }
    }
  }
}
