/** The worker for parked transactions (internal/infrastructure/transport/pending_reference_worker.go):
    it resolves one by one a list that it read before, and that other workers may have outrun. */
module PendingWorker {
  import opened Amounts
  import opened Records
  import opened Tables
  import opened Steps
  import opened Invariants
  import opened Preservation
  import opened Evolution
  import opened Usecases
  import opened Settlements

  /** Every item is resolved in turn; one that fails is rolled back and skipped. */
  function ResolveAll(db: Db, ids: seq<string>): Db {
    if ids == [] then db
    else Resolved(ResolveAll(db, ids[..|ids| - 1]), ids[|ids| - 1])
  }

  lemma ResolveStepKeeps(db: Db, id: string)
    requires Inv(db)
    ensures Inv(Resolved(db, id)) && Evolves(db, Resolved(db, id))
  {
    hide Evolves, KeysOk, RowsOk, LedgerOk, WalletsOk, EventsOk, ResolveStep;
    EvolvesReflexive(db);
    if Resolve(db, id).Ok? {
      ResolveKeeps(db, id, ReferenceOf(db, id));
      ResolveEvolves(db, id, ReferenceOf(db, id));
    }
  }

  lemma {:induction false} ResolveAllKeeps(db: Db, ids: seq<string>)
    requires Inv(db)
    ensures Inv(ResolveAll(db, ids)) && Evolves(db, ResolveAll(db, ids))
  {
    hide Evolves, KeysOk, RowsOk, LedgerOk, WalletsOk, EventsOk, Resolve;
    EvolvesReflexive(db);
    if ids != [] {
      ResolveAllKeeps(db, ids[..|ids| - 1]);
      var d := ResolveAll(db, ids[..|ids| - 1]);
      ResolveStepKeeps(d, ids[|ids| - 1]);
      EvolvesTransitive(db, d, ResolveAll(db, ids));
    }
  }

  /** However stale the list and however often it repeats an item: a row that was not parked is left as
      it was, a parked row is credited at most once, and only if it ends PROCESSED. */
  lemma StaleListsAreHarmless(db: Db, ids: seq<string>, id: string)
    requires Inv(db) && id in db.txs
    ensures var db' := ResolveAll(db, ids);
            && id in db'.txs && RowEvolves(db.txs[id], db'.txs[id])
            && (db.txs[id].status != PendingReference ==> Count(db'.ledger, id) == Count(db.ledger, id))
            && (db.txs[id].status == PendingReference ==>
                  Count(db.ledger, id) == 0 && Count(db'.ledger, id) == if db'.txs[id].status == Processed then 1 else 0)
  {
    hide KeysOk, WalletsOk, EventsOk;
    ResolveAllKeeps(db, ids);
    var db' := ResolveAll(db, ids);
    assert CountFits(db.txs, db.ledger, id) && CountFits(db'.txs, db'.ledger, id);
    assert RowOk(db.txs[id]);
  }

  // ---------- No item is passed over ----------

  lemma ReferenceStays(db: Db, id: string, key: (string, string))
    requires Inv(db)
    ensures var before, now := FindByExternalId(db, key), FindByExternalId(Resolved(db, id), key);
            (before.None? <==> now.None?) && (before.Some? && before.value.status != PendingReference ==> now == before)
  {
    hide RowsOk, LedgerOk, WalletsOk, EventsOk, Resolved, Full;
    OthersStay(db, id);
  }

  /** Where a row stands that was parked, given what its reference was at first and whether it has been on
      the list. */
  predicate Handled(db: Db, row: TxRow, reference: Option<TxRow>, listed: bool) {
    row.id in db.txs &&
    if !listed || reference.None? then db.txs[row.id] == row
    else match reference.value.status
      case Processed => db.txs[row.id] == row.(status := Processed) || (db.txs[row.id] == row && Full(db, row))
      case PendingReference => true
      case _ => db.txs[row.id] == row.(status := Rejected, failureCode := "INVALID_REFERENCE")
  }

  predicate SameReference(db: Db, key: (string, string), reference: Option<TxRow>) {
    var now := FindByExternalId(db, key);
    (reference.None? <==> now.None?) && (reference.Some? && reference.value.status != PendingReference ==> now == reference)
  }

  lemma HandlesNext(db: Db, id: string, row: TxRow, reference: Option<TxRow>, listed: bool)
    requires Inv(db) && Handled(db, row, reference, listed) && SameReference(db, RefOf(row), reference)
    requires row.status == PendingReference
    ensures Handled(Resolved(db, id), row, reference, listed || id == row.id)
    ensures SameReference(Resolved(db, id), RefOf(row), reference)
  {
    hide Inv, Resolved, Full, FindByExternalId;
    OthersStay(db, id);
    ReferenceStays(db, id, RefOf(row));
    if id == row.id && db.txs[id].status == PendingReference { OwnOutcome(db, id); }
  }

  lemma {:induction false} ListHandles(db: Db, ids: seq<string>, id: string)
    requires Inv(db) && id in db.txs && db.txs[id].status == PendingReference && db.txs[id].id == id
    ensures var row, reference := db.txs[id], FindByExternalId(db, RefOf(db.txs[id]));
            var d := ResolveAll(db, ids);
            Handled(d, row, reference, id in ids) && SameReference(d, RefOf(row), reference)
  {
    hide Inv, Resolve, Full, FindByExternalId;
    if ids != [] {
      var front := ids[..|ids| - 1];
      ListHandles(db, front, id);
      ResolveAllKeeps(db, front);
      HandlesNext(ResolveAll(db, front), ids[|ids| - 1], db.txs[id], FindByExternalId(db, RefOf(db.txs[id])), id in front);
      assert ids == front + [ids[|ids| - 1]];
    }
  }

  /** A parked row that is on the list is processed if its reference was processed, unless its wallet cannot
      take the money; rejected if its reference was rejected; and left as it is if its reference is unknown.
      A row that is not on the list is left alone. */
  lemma EveryItemIsResolved(db: Db, ids: seq<string>, id: string)
    requires Inv(db) && id in db.txs && db.txs[id].status == PendingReference
    ensures var row, reference, d := db.txs[id], FindByExternalId(db, RefOf(db.txs[id])), ResolveAll(db, ids);
            && id in d.txs
            && (id !in ids || reference.None? ==> d.txs[id] == row)
            && (id in ids && reference.Some? && reference.value.status == Processed ==>
                  d.txs[id] == row.(status := Processed) || (d.txs[id] == row && Full(d, row)))
            && (id in ids && reference.Some? && reference.value.status == Rejected ==>
                  d.txs[id] == row.(status := Rejected, failureCode := "INVALID_REFERENCE"))
  {
    hide RowsOk, LedgerOk, WalletsOk, EventsOk, KeysOk, ResolveAll, Full, FindByExternalId;
    RowFacts(db, id);
    KeyedRow(db, id);
    ListHandles(db, ids, id);
  }

  /** The rows in `order` that are parked and due, oldest first, up to the limit: `at` are their places in
      `order`, which lists the table by creation; `due` are those whose retry time has come. */
  method FindPendingReferences(db: Db, order: seq<string>, due: set<string>, limit: nat) returns (ids: seq<string>, ghost at: seq<nat>)
    ensures |ids| <= limit
    ensures forall id :: id in ids ==> id in order && id in due && id in db.txs && db.txs[id].status == PendingReference
    ensures forall id :: id in order && id in due && id in db.txs && db.txs[id].status == PendingReference ==> id in ids || |ids| == limit
    ensures |at| == |ids| && (forall i, j :: 0 <= i < j < |at| ==> at[i] < at[j])
    ensures forall i :: 0 <= i < |ids| ==>
              at[i] < |order| && ids[i] == order[at[i]] && ids[i] in due && ids[i] in db.txs && db.txs[ids[i]].status == PendingReference
    ensures forall k :: 0 <= k < |order| && order[k] in due && order[k] in db.txs && db.txs[order[k]].status == PendingReference ==>
              k in at || (|ids| == limit && forall i :: 0 <= i < |at| ==> at[i] < k)
  {
    ids, at := [], [];
    for n := 0 to |order|
      invariant |at| == |ids| <= limit && (forall i, j :: 0 <= i < j < |at| ==> at[i] < at[j])
      invariant forall i :: 0 <= i < |ids| ==>
                  at[i] < n && ids[i] == order[at[i]] && ids[i] in due && ids[i] in db.txs && db.txs[ids[i]].status == PendingReference
      invariant forall k :: 0 <= k < n && order[k] in due && order[k] in db.txs && db.txs[order[k]].status == PendingReference ==>
                  k in at || (|ids| == limit && forall i :: 0 <= i < |at| ==> at[i] < k)
    {
      if order[n] in due && order[n] in db.txs && db.txs[order[n]].status == PendingReference && |ids| < limit {
        ids, at := ids + [order[n]], at + [n];
      }
    }
  }

  /** The loop over the list, which other workers may meanwhile have outrun. */
  method ResolveItems(usecase: WagerUsecase, items: seq<string>)
    requires usecase.tx.Idle() && Inv(usecase.tx.committed)
    modifies usecase.tx
    ensures usecase.tx.Idle() && usecase.tx.committed == ResolveAll(old(usecase.tx.committed), items)
  {
    hide Inv, Resolve;
    ghost var db := usecase.tx.committed;
    assert items[..0] == [];
    for i := 0 to |items|
      invariant usecase.tx.Idle() && usecase.tx.committed == ResolveAll(db, items[..i])
    {
      ResolveAllKeeps(db, items[..i]);
      InvReads(usecase.tx.committed);
      assert items[..i + 1][..i] == items[..i];
      var err := usecase.ResolvePendingReference(items[i]);
    }
    assert items[..|items|] == items;
  }

  /** The whole batch: the list, twenty rows at most, and then each of its items. */
  method ProcessBatch(usecase: WagerUsecase, order: seq<string>, due: set<string>) returns (items: seq<string>, ghost at: seq<nat>)
    requires usecase.tx.Idle() && Inv(usecase.tx.committed)
    modifies usecase.tx
    ensures |items| <= 20
    ensures var db := old(usecase.tx.committed);
            && (forall id :: id in items ==> id in order && id in due && id in db.txs && db.txs[id].status == PendingReference)
            && (forall id :: id in order && id in due && id in db.txs && db.txs[id].status == PendingReference ==>
                  id in items || |items| == 20)
    ensures |at| == |items| && (forall i, j :: 0 <= i < j < |at| ==> at[i] < at[j])
    ensures var db := old(usecase.tx.committed);
            && (forall i :: 0 <= i < |items| ==>
                  at[i] < |order| && items[i] == order[at[i]] && items[i] in due
                  && items[i] in db.txs && db.txs[items[i]].status == PendingReference)
            && (forall k :: 0 <= k < |order| && order[k] in due && order[k] in db.txs && db.txs[order[k]].status == PendingReference ==>
                  k in at || (|items| == 20 && forall i :: 0 <= i < |at| ==> at[i] < k))
    ensures usecase.tx.Idle() && usecase.tx.committed == ResolveAll(old(usecase.tx.committed), items)
  {
    items, at := FindPendingReferences(usecase.tx.committed, order, due, 20);
    ResolveItems(usecase, items);
  }
}
