/** Each use case, as an atomic step, keeps the invariant and only ever adds: rows are never lost, the
    ledger and the event stream grow at the end, and a terminal row never changes. */
module Preservation {
  import opened Amounts
  import opened Records
  import opened Tables
  import opened Steps
  import opened Invariants

  // ---------- Statement lists, unrolled ----------

  lemma Run1(db: Db, a: Write)
    ensures Run(db, [a]) == match Check(db, a) case Some(e) => Err(e) case None => Ok(Apply(db, a))
  {
    RunCons(db, a, []);
    assert [a] + [] == [a];
  }

  lemma Run2(db: Db, a: Write, b: Write)
    ensures Run(db, [a, b]) == match Check(db, a) case Some(e) => Err(e) case None => Run(Apply(db, a), [b])
  {
    RunCons(db, a, [b]);
    assert [a] + [b] == [a, b];
  }

  lemma Run5(db: Db, a: Write, b: Write, c: Write, d: Write, e: Write)
    ensures Run(db, [a, b, c, d, e]) ==
            match Check(db, a) case Some(x) => Err(x) case None =>
            var db1 := Apply(db, a);
            match Check(db1, b) case Some(x) => Err(x) case None =>
            var db2 := Apply(db1, b);
            match Check(db2, c) case Some(x) => Err(x) case None =>
            var db3 := Apply(db2, c);
            match Check(db3, d) case Some(x) => Err(x) case None =>
            var db4 := Apply(db3, d);
            match Check(db4, e) case Some(x) => Err(x) case None => Ok(Apply(db4, e))
  {
    RunCons(db, a, [b, c, d, e]);
    assert [a] + [b, c, d, e] == [a, b, c, d, e];
    var db1 := Apply(db, a);
    RunCons(db1, b, [c, d, e]);
    assert [b] + [c, d, e] == [b, c, d, e];
    var db2 := Apply(db1, b);
    RunCons(db2, c, [d, e]);
    assert [c] + [d, e] == [c, d, e];
    var db3 := Apply(db2, c);
    Run2(db3, d, e);
    Run1(Apply(db3, d), e);
  }

  // ---------- Effects of the plans ----------

  /** A wallet row after a debit or credit: only the amount and the version differ. */
  predicate Restated(w: WalletRow, w': WalletRow) {
    w' == w.(balance := w.balance.(amount := w'.balance.amount), version := Bump(w.version))
  }

  predicate EntryNew(db: Db, id: string) {
    forall x :: x in db.ledger ==> x.txId != id && x.id != "led_" + id
  }

  lemma UnprocessedEntryNew(db: Db, id: string)
    requires LedgerOk(db.txs, db.ledger) && Unprocessed(db.txs, id)
    ensures EntryNew(db, id)
  {
    forall x | x in db.ledger ensures x.txId != id && x.id != "led_" + id {
      assert EntryMatches(db.txs, x);
      assert ("led_" + id)[4..] == id && x.id[4..] == x.txId;
    }
  }

  function MoveEntry(t: TxRow, w: WalletRow, w': WalletRow, dir: Direction): Entry {
    EntryFor(t, dir, w.balance.amount, w'.balance.amount)
  }

  /** The five statements of a submitted movement succeed exactly when the three keys are free and the
      version does not run over; the schema's other checks never fire. */
  lemma MovePlanRuns(db: Db, t: TxRow, w: WalletRow, w': WalletRow, dir: Direction)
    requires t.walletId in db.wallets && db.wallets[t.walletId] == w && w.id == t.walletId
    requires Restated(w, w') && w.version > 0 && EntryChecks(MoveEntry(t, w, w', dir)) && EntryNew(db, t.id)
    ensures var e := MoveEntry(t, w, w', dir);
            Run(db, MoveWrites(t, w, w', dir)) ==
            if !Fresh(db, t) then Err(DuplicateTransaction)
            else if w.version == MAX then Err(StatementFailed)
            else Ok(Moved(db, t.(status := Processed), w', e,
                          [EventFor(e, t.money.currency, w'.version), TxProcessed(t.id)]))
  {
    var e := MoveEntry(t, w, w', dir);
    var t' := t.(status := Processed);
    var change, done := EventFor(e, t.money.currency, w'.version), TxProcessed(t.id);
    Run5(db, InsTx(t'), UpdWallet(w', w.version), InsEntry(e), InsEvent(change), InsEvent(done));
    assert db.outbox + [change] + [done] == db.outbox + [change, done];
  }

  lemma SettlePlanRuns(db: Db, t: TxRow, w: WalletRow, w': WalletRow)
    requires t.id in db.txs && db.txs[t.id] == t
    requires ExtOf(t) in db.byExt && db.byExt[ExtOf(t)] == t.id && t.idemKey in db.byKey && db.byKey[t.idemKey] == t.id
    requires t.walletId in db.wallets && db.wallets[t.walletId] == w && w.id == t.walletId
    requires Restated(w, w') && w.version > 0 && EntryChecks(MoveEntry(t, w, w', Credit)) && EntryNew(db, t.id)
    ensures var e := MoveEntry(t, w, w', Credit);
            Run(db, SettleWrites(t, w, w')) ==
            if w.version == MAX then Err(StatementFailed)
            else Ok(Moved(db, t.(status := Processed), w', e,
                          [TxProcessed(t.id), EventFor(e, t.money.currency, w'.version)]))
  {
    var e := MoveEntry(t, w, w', Credit);
    var t' := t.(status := Processed);
    var change, done := EventFor(e, t.money.currency, w'.version), TxProcessed(t.id);
    Run5(db, UpdTx(t'), UpdWallet(w', w.version), InsEntry(e), InsEvent(done), InsEvent(change));
    assert db.outbox + [done] + [change] == db.outbox + [done, change];
    assert db.byExt[ExtOf(t') := t.id] == db.byExt && db.byKey[t.idemKey := t.id] == db.byKey;
  }

  lemma RecordPlanRuns(db: Db, t: TxRow, ev: Event)
    requires t.walletId in db.wallets
    ensures Run(db, [InsTx(t), InsEvent(ev)]) ==
            if Fresh(db, t) then Ok(Recorded(db, t, [ev])) else Err(DuplicateTransaction)
  {
    Run2(db, InsTx(t), InsEvent(ev));
    Run1(PutTx(db, t), InsEvent(ev));
  }

  lemma ShelvePlanRuns(db: Db, row: TxRow, read: Option<TxRow>)
    requires row.id in db.txs && db.txs[row.id] == row
    requires ExtOf(row) in db.byExt && db.byExt[ExtOf(row)] == row.id && row.idemKey in db.byKey && db.byKey[row.idemKey] == row.id
    ensures Run(db, ShelveWrites(row, read)) ==
            Ok(if read.None? then db else Recorded(db, row.(status := Rejected, failureCode := "INVALID_REFERENCE"), []))
  {
    var row' := if read.None? then row else row.(status := Rejected, failureCode := "INVALID_REFERENCE");
    Run1(db, UpdTx(row'));
    assert db.byExt[ExtOf(row') := row.id] == db.byExt && db.byKey[row'.idemKey := row.id] == db.byKey;
    assert db.outbox + [] == db.outbox;
    assert read.None? ==> db.txs[row.id := row] == db.txs;
  }

  lemma DebitMoves(w: WalletRow, t: TxRow)
    requires w.balance.amount >= 0 && DebitRow(w, t.money).Ok?
    ensures var w' := DebitRow(w, t.money).value;
            Restated(w, w') && EntryChecks(MoveEntry(t, w, w', Debit)) && t.money.currency == w.balance.currency
  {
    SubtractExact(w.balance, t.money);
  }

  lemma CreditMoves(w: WalletRow, t: TxRow)
    requires w.balance.amount >= 0 && CreditRow(w, t.money).Ok?
    ensures var w' := CreditRow(w, t.money).value;
            Restated(w, w') && EntryChecks(MoveEntry(t, w, w', Credit)) && t.money.currency == w.balance.currency
  {
    AddExact(w.balance, t.money);
  }

  // ---------- The inbox ----------

  lemma InboxKeeps(db: Db, db': Db)
    requires Inv(db) && db' == db.(inbox := db'.inbox)
    ensures Inv(db')
  {
    KeysFrame(db, db');
  }

  function WithInbox(db: Db, inbox: Option<Claim>): Db {
    if inbox.Some? then Apply(db, InsInbox(inbox.value)) else db
  }

  lemma RunInbox(db: Db, inbox: Option<Claim>, ws: seq<Write>)
    requires inbox.Some? ==> MessageOf(inbox.value) !in db.inbox
    ensures Run(db, InboxWrites(inbox) + ws) == Run(WithInbox(db, inbox), ws)
    ensures Run(db, InboxWrites(inbox)) == Ok(WithInbox(db, inbox))
  {
    RunAppend(db, InboxWrites(inbox), ws);
    if inbox.Some? { Run1(db, InsInbox(inbox.value)); }
  }

  // ---------- A submitted transaction ----------

  lemma WalletFacts(db: Db, id: string)
    requires Inv(db) && id in db.wallets
    ensures db.wallets[id].id == id && db.wallets[id].balance.amount >= 0 && db.wallets[id].version > 0
  {
    assert WalletOk(db.txs, db.ledger, db.outbox, db.wallets[id]);
  }

  lemma RecordPlanKeeps(db: Db, t: TxRow, t': TxRow, ev: Event)
    requires Inv(db) && t.walletId in db.wallets && t' == t.(status := t'.status, failureCode := t'.failureCode)
    requires RowOk(t') && !Moves(t') && t.kind != Opening && EventsFor(t', [ev])
    requires Run(db, [InsTx(t'), InsEvent(ev)]).Ok?
    ensures Inv(Run(db, [InsTx(t'), InsEvent(ev)]).value)
  {
    RecordPlanRuns(db, t', ev);
    RecordKeeps(db, t', [ev]);
  }

  lemma MovePlanKeeps(db: Db, t: TxRow, w: WalletRow, w': WalletRow, dir: Direction)
    requires Inv(db) && NewRow(t) && t.walletId in db.wallets && db.wallets[t.walletId] == w
    requires t.kind != Loss && (dir == Debit <==> t.kind == Bet) && t.money.currency == w.balance.currency
    requires Restated(w, w') && EntryChecks(MoveEntry(t, w, w', dir))
    requires Run(db, MoveWrites(t, w, w', dir)).Ok?
    ensures Inv(Run(db, MoveWrites(t, w, w', dir)).value)
  {
    hide KeysOk, RowsOk, LedgerOk, WalletsOk, EventsOk;
    WalletFacts(db, t.walletId);
    var t', e := t.(status := Processed), MoveEntry(t, w, w', dir);
    if t.id in db.txs {
      Run5(db, MoveWrites(t, w, w', dir)[0], MoveWrites(t, w, w', dir)[1], MoveWrites(t, w, w', dir)[2],
           MoveWrites(t, w, w', dir)[3], MoveWrites(t, w, w', dir)[4]);
    } else {
      UnprocessedEntryNew(db, t.id);
      MovePlanRuns(db, t, w, w', dir);
      MoveKeeps(db, t', w', e, [EventFor(e, t.money.currency, w'.version), TxProcessed(t.id)]);
    }
  }

  /** A plan that runs keeps the invariant, whatever reference it went by. */
  lemma PlanKeeps(db: Db, t: TxRow, read: Option<TxRow>)
    requires Inv(db) && NewRow(t) && t.walletId in db.wallets
    requires Decide(t, db.wallets[t.walletId], read).Plan?
    requires Run(db, Decide(t, db.wallets[t.walletId], read).writes).Ok?
    ensures Inv(Run(db, Decide(t, db.wallets[t.walletId], read).writes).value)
  {
    hide KeysOk, RowsOk, LedgerOk, WalletsOk, EventsOk;
    var w := db.wallets[t.walletId];
    WalletFacts(db, t.walletId);
    match Decide(t, w, read) {
      case Plan(writes, out) =>
        if |writes| == 2 {
          RecordPlanKeeps(db, t, writes[0].tx, writes[1].event);
        } else if t.kind == Bet {
          DebitMoves(w, t);
          MovePlanKeeps(db, t, w, DebitRow(w, t.money).value, Debit);
        } else {
          CreditMoves(w, t);
          MovePlanKeeps(db, t, w, CreditRow(w, t.money).value, Credit);
        }
    }
  }

  /** Submitting a transaction keeps the invariant. */
  lemma WagerKeeps(db: Db, t: TxRow, inbox: Option<Claim>, read: Option<TxRow>)
    requires Inv(db) && NewRow(t) && WagerStep(db, t, inbox, read).Ok?
    ensures Inv(WagerStep(db, t, inbox, read).value.0)
  {
    hide KeysOk, RowsOk, LedgerOk, WalletsOk, EventsOk;
    if !(inbox.Some? && MessageOf(inbox.value) in db.inbox) {
      var db1 := WithInbox(db, inbox);
      RunInbox(db, inbox, []);
      InboxKeeps(db, db1);
      if Existing(db, t) == Absent {
        RunInbox(db, inbox, Decide(t, db.wallets[t.walletId], read).writes);
        PlanKeeps(db1, t, read);
      }
    }
  }

  // ---------- A parked transaction ----------

  lemma RowFacts(db: Db, id: string)
    requires KeysOk(db) && RowsOk(db) && id in db.txs
    ensures var row := db.txs[id];
            row.id == id && RowOk(row) && row.walletId in db.wallets
            && ExtOf(row) in db.byExt && db.byExt[ExtOf(row)] == id
            && row.idemKey in db.byKey && db.byKey[row.idemKey] == id
  {
  }

  lemma ShelveKeeps(db: Db, id: string, read: Option<TxRow>)
    requires Inv(db) && id in db.txs && db.txs[id].status == PendingReference
    ensures Run(db, ShelveWrites(db.txs[id], read)).Ok? && Inv(Run(db, ShelveWrites(db.txs[id], read)).value)
  {
    hide KeysOk, RowsOk, LedgerOk, WalletsOk, EventsOk;
    RowFacts(db, id);
    var row := db.txs[id];
    ShelvePlanRuns(db, row, read);
    if read.Some? { RecordKeeps(db, row.(status := Rejected, failureCode := "INVALID_REFERENCE"), []); }
  }

  lemma SettleKeeps(db: Db, id: string)
    requires Inv(db) && id in db.txs && db.txs[id].status == PendingReference && db.txs[id].walletId in db.wallets
    requires CreditRow(db.wallets[db.txs[id].walletId], db.txs[id].money).Ok?
    ensures var row, w := db.txs[id], db.wallets[db.txs[id].walletId];
            var w' := CreditRow(w, row.money).value;
            Run(db, SettleWrites(row, w, w')).Ok? ==> Inv(Run(db, SettleWrites(row, w, w')).value)
  {
    hide KeysOk, RowsOk, LedgerOk, WalletsOk, EventsOk;
    RowFacts(db, id);
    var row := db.txs[id];
    var w := db.wallets[row.walletId];
    WalletFacts(db, row.walletId);
    CreditMoves(w, row);
    var w' := CreditRow(w, row.money).value;
    var e := MoveEntry(row, w, w', Credit);
    UnprocessedEntryNew(db, id);
    SettlePlanRuns(db, row, w, w');
    if w.version < MAX {
      MoveKeeps(db, row.(status := Processed), w', e, [TxProcessed(id), EventFor(e, row.money.currency, w'.version)]);
    }
  }

  /** Resolving a parked transaction keeps the invariant. */
  lemma ResolveKeeps(db: Db, id: string, read: Option<TxRow>)
    requires Inv(db) && ResolveStep(db, id, read).Ok?
    ensures Inv(ResolveStep(db, id, read).value)
  {
    if id in db.txs && db.txs[id].status == PendingReference {
      if read.None? || read.value.status != Processed { ShelveKeeps(db, id, read); } else { SettleKeeps(db, id); }
    }
  }

  // ---------- Opening a wallet ----------

  function WithWallet(db: Db, w: WalletRow): Db { Apply(db, InsWallet(w)) }

  lemma OpenEffect(db: Db, w: WalletRow)
    requires Open(db, w).Ok?
    ensures w.id !in db.wallets && OwnerOf(w) !in db.byOwner
    ensures w.balance.amount == 0 ==> Open(db, w).value == WithWallet(db, w)
    ensures w.balance.amount != 0 ==>
              var t := OpeningTx(w);
              Fresh(db, t) &&
              Open(db, w).value ==
              PutTx(WithWallet(db, w), t).(ledger := db.ledger + [EntryFor(t, Credit, 0, w.balance.amount)],
                                           outbox := db.outbox + [OpenWrites(w)[3].event, OpenWrites(w)[4].event])
  {
    var ws := OpenWrites(w);
    if w.balance.amount == 0 {
      Run1(db, ws[0]);
    } else {
      Run5(db, ws[0], ws[1], ws[2], ws[3], ws[4]);
      assert db.outbox + [ws[3].event] + [ws[4].event] == db.outbox + [ws[3].event, ws[4].event];
    }
  }

  lemma NewWalletKeys(db: Db, w: WalletRow)
    requires KeysOk(db) && RowsOk(db) && w.id !in db.wallets && OwnerOf(w) !in db.byOwner
    ensures KeysOk(WithWallet(db, w)) && RowsOk(WithWallet(db, w))
  {
  }

  /** Nothing speaks of a wallet that does not exist. */
  lemma NoTraces(db: Db, id: string)
    requires Inv(db) && id !in db.wallets
    ensures EntriesOf(db.ledger, id) == [] && ChangesOf(db.outbox, id) == []
  {
    ChangesAbsent(db.outbox, id);
    EntriesOfMembers(db.ledger, id);
    var es := EntriesOf(db.ledger, id);
    if es != [] {
      assert es[0] in es;
      assert EntryMatches(db.txs, es[0]);
      RowFacts(db, es[0].txId);
    }
  }

  lemma OpenEmptyKeeps(db: Db, w: WalletRow)
    requires Inv(db) && NewWallet(w) && w.balance.amount == 0 && w.id !in db.wallets && OwnerOf(w) !in db.byOwner
    ensures Inv(WithWallet(db, w))
  {
    hide KeysOk, RowsOk, LedgerOk;
    NewWalletKeys(db, w);
    NoTraces(db, w.id);
    assert WalletOk(db.txs, db.ledger, db.outbox, w);
  }

  lemma OpenFundedTables(txs: TxTable, ledger: seq<Entry>, wallets: set<string>, outbox: seq<Event>, w: WalletRow, evs: seq<Event>)
    requires LedgerOk(txs, ledger) && EventsOk(txs, wallets, outbox) && w.balance.amount > 0 && OpeningTx(w).id !in txs
    requires forall e :: e in evs ==> e.WalletOpened? || e.OpeningBalance?
    ensures var t := OpeningTx(w);
            LedgerOk(txs[t.id := t], ledger + [EntryFor(t, Credit, 0, w.balance.amount)])
            && EventsOk(txs[t.id := t], wallets + {w.id}, outbox + evs)
  {
    var t := OpeningTx(w);
    UnprocessedCounts(txs, ledger, outbox, wallets, t.id);
    PutKeepsLedger(txs, ledger, t, [EntryFor(t, Credit, 0, w.balance.amount)]);
    CountProcessedAbsent(evs, t.id);
    PutKeepsEvents(txs, wallets, outbox, t, evs);
  }

  lemma OpenFundedNew(txs: TxTable, ledger: seq<Entry>, outbox: seq<Event>, w: WalletRow)
    requires NewWallet(w) && w.balance.amount > 0
    requires EntriesOf(ledger, w.id) == [EntryFor(OpeningTx(w), Credit, 0, w.balance.amount)] && ChangesOf(outbox, w.id) == []
    requires OpeningTx(w).id in txs && txs[OpeningTx(w).id] == OpeningTx(w)
    ensures WalletOk(txs, ledger, outbox, w)
  {
    assert Mirrors(txs, [EntryFor(OpeningTx(w), Credit, 0, w.balance.amount)], [], w);
  }

  lemma OpenFundedWallets(db: Db, w: WalletRow, evs: seq<Event>, db': Db)
    requires WalletsOk(db) && LedgerOk(db.txs, db.ledger) && OpeningTx(w).id !in db.txs
    requires EntriesOf(db.ledger, w.id) == [] && ChangesOf(db.outbox, w.id) == []
    requires forall i :: i in db.wallets ==> db.wallets[i].id == i
    requires NewWallet(w) && w.balance.amount > 0
    requires forall e :: e in evs ==> e.WalletOpened? || e.OpeningBalance?
    requires db'.wallets == db.wallets[w.id := w] && db'.txs == db.txs[OpeningTx(w).id := OpeningTx(w)]
    requires db'.ledger == db.ledger + [EntryFor(OpeningTx(w), Credit, 0, w.balance.amount)] && db'.outbox == db.outbox + evs
    ensures WalletsOk(db')
  {
    hide LedgerOk, WalletOk;
    var t := OpeningTx(w);
    var e := EntryFor(t, Credit, 0, w.balance.amount);
    forall i | i in db'.wallets ensures WalletOk(db'.txs, db'.ledger, db'.outbox, db'.wallets[i]) {
      EntriesSnoc(db.ledger, e, i);
      AppendEvents(db.outbox, evs, i, "");
      ChangesAbsent(evs, i);
      if i == w.id {
        OpenFundedNew(db'.txs, db'.ledger, db'.outbox, w);
      } else {
        PutKeepsWallet(db.txs, db.ledger, db.outbox, db.wallets[i], t, db'.ledger, db'.outbox);
      }
    }
  }

  lemma OpenFundedKeys(db: Db, w: WalletRow, db': Db)
    requires KeysOk(db) && RowsOk(db) && w.balance.amount > 0 && w.id !in db.wallets && OwnerOf(w) !in db.byOwner
    requires Fresh(db, OpeningTx(w))
    requires db' == PutTx(WithWallet(db, w), OpeningTx(w)).(ledger := db'.ledger, outbox := db'.outbox)
    ensures KeysOk(db') && RowsOk(db') && db'.wallets.Keys == db.wallets.Keys + {w.id}
  {
    hide KeysOk, RowsOk;
    NewWalletKeys(db, w);
    PutKeeps(WithWallet(db, w), OpeningTx(w));
    KeysFrame(PutTx(WithWallet(db, w), OpeningTx(w)), db');
  }

  /** Opening a wallet keeps the invariant. */
  lemma OpenKeeps(db: Db, w: WalletRow)
    requires Inv(db) && NewWallet(w) && Open(db, w).Ok?
    ensures Inv(Open(db, w).value)
  {
    hide KeysOk, RowsOk, LedgerOk, WalletsOk, EventsOk;
    OpenEffect(db, w);
    if w.balance.amount == 0 {
      OpenEmptyKeeps(db, w);
    } else {
      var db', evs := Open(db, w).value, [OpenWrites(w)[3].event, OpenWrites(w)[4].event];
      OpenFundedKeys(db, w, db');
      OpenFundedTables(db.txs, db.ledger, db.wallets.Keys, db.outbox, w, evs);
      NoTraces(db, w.id);
      forall i | i in db.wallets ensures db.wallets[i].id == i { WalletFacts(db, i); }
      OpenFundedWallets(db, w, evs, db');
    }
  }
}
