/** What a resolution of a parked transaction comes to, told outright. */
module Settlements {
  import opened Amounts
  import opened Records
  import opened Tables
  import opened Steps
  import opened Invariants
  import opened Preservation
  import opened Verdicts

  /** Only the status and the failure code of a row change. */
  function Marked(db: Db, row: TxRow, status: Status, code: string, events: seq<Event>): Db {
    db.(txs := db.txs[row.id := row.(status := status, failureCode := code)], outbox := db.outbox + events)
  }

  /** Nothing happens to what is not parked, or while its reference is unknown; a reference that is not
      processed rejects it; otherwise its wallet is credited. */
  function ResolutionOf(db: Db, id: string, reference: Option<TxRow>): Result<Db, Error> {
    if id !in db.txs || db.txs[id].status != PendingReference || reference.None? then Ok(db)
    else
      var row := db.txs[id];
      if reference.value.status != Processed then Ok(Marked(db, row, Rejected, "INVALID_REFERENCE", []))
      else if row.walletId !in db.wallets then Err(WalletNotFound)
      else
        var w := db.wallets[row.walletId];
        var sum := w.balance.amount as int + row.money.amount as int;
        if row.money.currency != w.balance.currency then Err(CurrencyMismatch)
        else if sum > 9223372036854775807 || sum < 0 then Err(BadMoney(MoneyOverflow))
        else if w.version == MAX then Err(StatementFailed)
        else
          var events := [TxProcessed(row.id), Announcement(row, w, Credit, sum as int64)];
          Ok(Booked(Marked(db, row, Processed, row.failureCode, events), row, w, Credit, sum as int64))
  }

  lemma ShelvedIsMarked(db: Db, id: string, read: Option<TxRow>)
    requires KeysOk(db) && id in db.txs && db.txs[id].status == PendingReference
    requires read.None? || read.value.status != Processed
    ensures ResolveStep(db, id, read) == ResolutionOf(db, id, read)
  {
    hide Run, ShelveWrites;
    ShelvePlanRuns(db, db.txs[id], read);
    assert db.byExt[ExtOf(db.txs[id]) := id] == db.byExt && db.byKey[db.txs[id].idemKey := id] == db.byKey;
  }

  lemma BookedIsMoved(db: Db, row: TxRow, w: WalletRow, w': WalletRow)
    requires w' == WalletRow(w.id, w.playerId, Money(w'.balance.amount, w.balance.currency), w'.version) && w.id == row.walletId
    requires w.version < MAX && w'.version == w.version + 1
    requires ExtOf(row) in db.byExt && db.byExt[ExtOf(row)] == row.id && row.idemKey in db.byKey && db.byKey[row.idemKey] == row.id
    ensures var e := MoveEntry(row, w, w', Credit);
            var events := [TxProcessed(row.id), Announcement(row, w, Credit, w'.balance.amount)];
            Moved(db, row.(status := Processed), w', e, [TxProcessed(row.id), EventFor(e, row.money.currency, w'.version)]) ==
            Booked(Marked(db, row, Processed, row.failureCode, events), row, w, Credit, w'.balance.amount)
  {
    assert db.byExt[ExtOf(row) := row.id] == db.byExt && db.byKey[row.idemKey := row.id] == db.byKey;
  }

  lemma SettledIsBooked(db: Db, id: string, read: Option<TxRow>)
    requires Inv(db) && id in db.txs && db.txs[id].status == PendingReference && read.Some? && read.value.status == Processed
    ensures ResolveStep(db, id, read) == ResolutionOf(db, id, read)
  {
    hide RowsOk, LedgerOk, WalletsOk, EventsOk, Run, SettleWrites, EntryChecks, CreditRow, Booked, Marked, Moved, Announcement, EventFor;
    var row := db.txs[id];
    RowFacts(db, id);
    WalletFacts(db, row.walletId);
    var w := db.wallets[row.walletId];
    CreditExact(w, row.money);
    if CreditRow(w, row.money).Ok? {
      var w' := CreditRow(w, row.money).value;
      CreditMoves(w, row);
      UnprocessedEntryNew(db, id);
      SettlePlanRuns(db, row, w, w');
      if w.version < MAX { BookedIsMoved(db, row, w, w'); }
    }
  }

  lemma NotParked(db: Db, id: string, read: Option<TxRow>)
    requires id !in db.txs || db.txs[id].status != PendingReference
    ensures ResolutionOf(db, id, read) == Ok(db)
  {
  }

  /** Every resolution comes to that, with any unlocked read of the reference. */
  lemma StepIsResolution(db: Db, id: string, read: Option<TxRow>)
    requires Inv(db)
    ensures ResolveStep(db, id, read) == ResolutionOf(db, id, read)
  {
    hide KeysOk, RowsOk, LedgerOk, WalletsOk, EventsOk, ResolutionOf;
    if id in db.txs && db.txs[id].status == PendingReference {
      if read.Some? && read.value.status == Processed { SettledIsBooked(db, id, read); } else { ShelvedIsMarked(db, id, read); }
    } else {
      NotParked(db, id, read);
    }
  }

  // ---------- One resolution after another ----------

  /** The row's wallet cannot take its money. */
  predicate Full(db: Db, row: TxRow) {
    row.walletId in db.wallets ==>
      var w := db.wallets[row.walletId];
      w.balance.currency != row.money.currency || w.version == MAX
      || w.balance.amount as int + row.money.amount as int > 9223372036854775807
  }

  /** A resolution that fails changes nothing. */
  function Resolved(db: Db, id: string): Db { match Resolve(db, id) case Ok(d) => d case Err(_) => db }

  lemma RowsAfter(db: Db, id: string, reference: Option<TxRow>)
    requires (id in db.txs ==> db.txs[id].id == id) && ResolutionOf(db, id, reference).Ok?
    ensures var d := ResolutionOf(db, id, reference).value;
            && d.byExt == db.byExt && d.txs.Keys == db.txs.Keys
            && forall i :: i in db.txs && (i != id || db.txs[i].status != PendingReference) ==> d.txs[i] == db.txs[i]
  {
  }

  lemma BookedStaysFull(db: Db, row: TxRow, w: WalletRow, after: int64, other: TxRow)
    requires row.walletId in db.wallets && w == db.wallets[row.walletId] && w.version < MAX && after >= w.balance.amount
    ensures Full(db, other) ==> Full(Booked(db, row, w, Credit, after), other)
  {
  }

  lemma StaysFull(db: Db, id: string, reference: Option<TxRow>, other: TxRow)
    requires ResolutionOf(db, id, reference).Ok? && (id in db.txs ==> db.txs[id].money.amount >= 0)
    ensures Full(db, other) ==> Full(ResolutionOf(db, id, reference).value, other)
  {
    hide Booked, Announcement;
    if id in db.txs && db.txs[id].status == PendingReference && reference.Some? && reference.value.status == Processed {
      var row := db.txs[id];
      var w := db.wallets[row.walletId];
      var sum := w.balance.amount as int + row.money.amount as int;
      var marked := Marked(db, row, Processed, row.failureCode, [TxProcessed(row.id), Announcement(row, w, Credit, sum as int64)]);
      BookedStaysFull(marked, row, w, sum as int64, other);
    }
  }

  /** Resolving one row leaves every other alone, and no wallet gets room. */
  lemma OthersStay(db: Db, id: string)
    requires Inv(db)
    ensures var d := Resolved(db, id);
            && d.byExt == db.byExt && d.txs.Keys == db.txs.Keys
            && (forall i :: i in db.txs && (i != id || db.txs[i].status != PendingReference) ==> d.txs[i] == db.txs[i])
    ensures forall row :: Full(db, row) ==> Full(Resolved(db, id), row)
  {
    hide KeysOk, RowsOk, LedgerOk, WalletsOk, EventsOk, ResolveStep, ResolutionOf, Full, ReferenceOf;
    var reference := ReferenceOf(db, id);
    StepIsResolution(db, id, reference);
    if id in db.txs { RowFacts(db, id); }
    if Resolve(db, id).Ok? {
      RowsAfter(db, id, reference);
      forall row ensures Full(db, row) ==> Full(Resolved(db, id), row) { StaysFull(db, id, reference, row); }
    }
  }

  lemma OwnResolution(db: Db, id: string, reference: Option<TxRow>)
    requires id in db.txs && db.txs[id].id == id && db.txs[id].status == PendingReference
    requires db.txs[id].walletId in db.wallets && db.txs[id].money.amount >= 0
    requires db.wallets[db.txs[id].walletId].balance.amount >= 0
    ensures var row, r := db.txs[id], ResolutionOf(db, id, reference);
            var d := if r.Ok? then r.value else db;
            && id in d.txs
            && if reference.None? then d == db
               else if reference.value.status != Processed then d.txs[id] == row.(status := Rejected, failureCode := "INVALID_REFERENCE")
               else d.txs[id] == row.(status := Processed) || (d == db && Full(db, row))
  {
  }

  /** What becomes of the row itself. */
  lemma OwnOutcome(db: Db, id: string)
    requires Inv(db) && id in db.txs && db.txs[id].status == PendingReference
    ensures var row, d, reference := db.txs[id], Resolved(db, id), FindByExternalId(db, RefOf(db.txs[id]));
            && id in d.txs
            && if reference.None? then d == db
               else if reference.value.status != Processed then d.txs[id] == row.(status := Rejected, failureCode := "INVALID_REFERENCE")
               else d.txs[id] == row.(status := Processed) || (d == db && Full(db, row))
  {
    hide KeysOk, RowsOk, LedgerOk, WalletsOk, EventsOk, ResolveStep, ResolutionOf, FindByExternalId, Full;
    RowFacts(db, id);
    WalletFacts(db, db.txs[id].walletId);
    StepIsResolution(db, id, ReferenceOf(db, id));
    OwnResolution(db, id, ReferenceOf(db, id));
  }
}
