/** What an opening comes to, told outright. */
module Openings {
  import opened Amounts
  import opened Records
  import opened Tables
  import opened Steps
  import opened Invariants
  import opened Preservation
  import opened Validation
  import opened Verdicts

  /** The transaction behind an opening with money. */
  function OpeningRow(w: WalletRow): TxRow {
    TxRow("tx_opening_" + w.id, "INTERNAL", "opening_" + w.id, "opening:" + w.id,
          Payload("INTERNAL", "opening_" + w.id, w.playerId, w.id, "INTERNAL", "INTERNAL", Opening,
                  Print(w.balance.amount), w.balance.currency, ""),
          w.id, w.playerId, "INTERNAL", "INTERNAL", Opening, w.balance, "", Processed, "")
  }

  function OpeningEntry(w: WalletRow): Entry {
    Entry("led_tx_opening_" + w.id, w.id, "tx_opening_" + w.id, Credit, w.balance.amount, 0, w.balance.amount)
  }

  function OpeningEvents(w: WalletRow): seq<Event> {
    [WalletOpened(w.id), OpeningBalance(w.id, w.playerId, w.balance.amount, w.balance.currency, w.balance.amount, w.version)]
  }

  function Welcomed(db: Db, w: WalletRow): Db {
    db.(wallets := db.wallets[w.id := w], byOwner := db.byOwner[(w.playerId, w.balance.currency) := w.id])
  }

  /** An opening succeeds if the id is free and the player has no wallet in the currency; with money, also
      if the three keys of its transaction are free. */
  function OpeningOf(db: Db, w: WalletRow): Result<Db, Error> {
    if w.id in db.wallets || (w.playerId, w.balance.currency) in db.byOwner then Err(StatementFailed)
    else if w.balance.amount == 0 then Ok(Welcomed(db, w))
    else if || "tx_opening_" + w.id in db.txs || ("INTERNAL", "opening_" + w.id) in db.byExt || "opening:" + w.id in db.byKey
    then Err(DuplicateTransaction)
    else
      var filed := Filed(Welcomed(db, w), OpeningRow(w), OpeningEvents(w));
      Ok(filed.(ledger := db.ledger + [OpeningEntry(w)]))
  }

  lemma EmptyOpening(db: Db, w: WalletRow)
    requires NewWallet(w) && w.balance.amount == 0
    ensures Open(db, w) == OpeningOf(db, w)
  {
    hide Run;
    Run1(db, InsWallet(w));
  }

  lemma TakenKeyFails(db: Db, w: WalletRow)
    requires NewWallet(w) && w.balance.amount > 0
    requires w.id in db.wallets || OwnerOf(w) in db.byOwner || !Fresh(db, OpeningTx(w))
    ensures Open(db, w) ==
            Err(if w.id in db.wallets || OwnerOf(w) in db.byOwner then StatementFailed else DuplicateTransaction)
  {
    hide Run, CurrencyOk;
    var ws := OpenWrites(w);
    Run5(db, ws[0], ws[1], ws[2], ws[3], ws[4]);
  }

  lemma FreeKeysOpen(db: Db, w: WalletRow)
    requires Inv(db) && NewWallet(w) && w.balance.amount > 0
    requires w.id !in db.wallets && OwnerOf(w) !in db.byOwner && Fresh(db, OpeningTx(w))
    ensures Open(db, w).Ok?
  {
    hide KeysOk, RowsOk, LedgerOk, WalletsOk, EventsOk, Run, CurrencyOk;
    var ws := OpenWrites(w);
    UnprocessedEntryNew(db, OpeningTx(w).id);
    Run5(db, ws[0], ws[1], ws[2], ws[3], ws[4]);
  }

  lemma FundedOpening(db: Db, w: WalletRow)
    requires Inv(db) && NewWallet(w) && w.balance.amount > 0
    ensures Open(db, w) == OpeningOf(db, w)
  {
    hide Inv, Open, CurrencyOk;
    assert "led_" + ("tx_opening_" + w.id) == "led_tx_opening_" + w.id;
    if w.id in db.wallets || OwnerOf(w) in db.byOwner || !Fresh(db, OpeningTx(w)) {
      TakenKeyFails(db, w);
    } else {
      FreeKeysOpen(db, w);
      OpenEffect(db, w);
    }
  }

  /** Every opening comes to that. */
  lemma OpenIsOpening(db: Db, w: WalletRow)
    requires Inv(db) && NewWallet(w)
    ensures Open(db, w) == OpeningOf(db, w)
  {
    hide Inv, Open, OpeningOf, CurrencyOk;
    if w.balance.amount == 0 { EmptyOpening(db, w); } else { FundedOpening(db, w); }
  }

  lemma OpenedTables(db: Db, w: WalletRow)
    requires OpeningOf(db, w).Ok?
    ensures var d := OpeningOf(db, w).value;
            && w.id !in db.wallets && d.wallets == db.wallets[w.id := w]
            && (w.balance.amount == 0 ==> d.ledger == db.ledger && d.outbox == db.outbox && d.txs == db.txs)
            && (w.balance.amount != 0 ==>
                  d.ledger == db.ledger + [OpeningEntry(w)] && d.txs == db.txs["tx_opening_" + w.id := OpeningRow(w)])
  {
    hide OpeningEntry, OpeningEvents, Print;
  }

  lemma OpenedEntries(db: Db, w: WalletRow)
    requires Inv(db) && OpeningOf(db, w).Ok?
    ensures EntriesOf(OpeningOf(db, w).value.ledger, w.id) == if w.balance.amount == 0 then [] else [OpeningEntry(w)]
  {
    hide Inv, OpeningOf;
    OpenedTables(db, w);
    NoTraces(db, w.id);
    EntriesSnoc(db.ledger, OpeningEntry(w), w.id);
  }

  /** From the request to the tables: the stored wallet has the requested balance, and if that is not nothing
      there is one entry of the wallet, which credits exactly that. */
  lemma RequestedBalanceIsOpened(db: Db, r: OpenRequest, supported: seq<string>)
    requires Inv(db) && PrepareOpen(r, supported).Ok? && Open(db, PrepareOpen(r, supported).value).Ok?
    ensures var w := PrepareOpen(r, supported).value;
            var d := Open(db, w).value;
            && w.playerId == r.playerId && Parse(r.amount, r.currency) == Ok(w.balance)
            && w.id !in db.wallets && d.wallets == db.wallets[w.id := w]
            && EntriesOf(d.ledger, w.id) == (if w.balance.amount == 0 then [] else [OpeningEntry(w)])
            && (w.balance.amount == 0 ==> d.ledger == db.ledger && d.outbox == db.outbox && d.txs == db.txs)
            && (w.balance.amount != 0 ==> d.txs == db.txs["tx_opening_" + w.id := OpeningRow(w)])
  {
    hide Inv, Open, OpeningOf, EntriesOf, Parse, PrepareOpen, NewWallet, OpeningRow, OpeningEntry;
    var w := PrepareOpen(r, supported).value;
    var currency := PreparedWallet(r, supported);
    PrepareOpenGivesNewWallet(r, supported);
    OpenIsOpening(db, w);
    OpenedTables(db, w);
    OpenedEntries(db, w);
  }
}
