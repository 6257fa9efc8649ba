/** What every committed state keeps: consistent keys, one ledger entry for each money movement, a
    balance chain per wallet, and an event stream that mirrors it. */
module Invariants {
  import opened Amounts
  import opened Records
  import opened Tables

  // ---------- Keys and rows ----------

  ghost predicate KeysOk(db: Db) {
    && (forall i :: i in db.wallets ==>
          db.wallets[i].id == i && OwnerOf(db.wallets[i]) in db.byOwner && db.byOwner[OwnerOf(db.wallets[i])] == i)
    && (forall i :: i in db.txs ==>
          && db.txs[i].id == i && db.txs[i].walletId in db.wallets
          && ExtOf(db.txs[i]) in db.byExt && db.byExt[ExtOf(db.txs[i])] == i
          && db.txs[i].idemKey in db.byKey && db.byKey[db.txs[i].idemKey] == i)
    && (forall k :: k in db.byExt ==> db.byExt[k] in db.txs && ExtOf(db.txs[db.byExt[k]]) == k)
    && (forall k :: k in db.byKey ==> db.byKey[k] in db.txs && db.txs[db.byKey[k]].idemKey == k)
  }

  /** Only three statuses are ever committed, each with its own causes. */
  predicate RowOk(t: TxRow) {
    && t.hash == PayloadOf(t) && AmountRule(t)
    && match t.status
       case Processed => true
       case PendingReference => IsReversal(t.kind)
       case Rejected => t.kind == Bet || IsReversal(t.kind)
       case _ => false
  }

  ghost predicate RowsOk(db: Db) { forall i {:trigger RowOk(db.txs[i])} :: i in db.txs ==> RowOk(db.txs[i]) }

  // ---------- The ledger and the transactions ----------

  type TxTable = map<string, TxRow>

  /** The rows that move money. */
  predicate Moves(t: TxRow) { t.status == Processed && t.kind != Loss }

  function Count(ledger: seq<Entry>, id: string): nat {
    if ledger == [] then 0
    else Count(ledger[..|ledger| - 1], id) + if ledger[|ledger| - 1].txId == id then 1 else 0
  }

  predicate EntryFits(t: TxRow, e: Entry) {
    Moves(t) && e.id == "led_" + t.id && e.txId == t.id && e.walletId == t.walletId && e.amount == t.money.amount
    && (e.direction == Debit <==> t.kind == Bet) && EntryChecks(e)
  }

  predicate EntryMatches(txs: TxTable, e: Entry) {
    e.txId in txs && EntryFits(txs[e.txId], e)
  }

  predicate CountFits(txs: TxTable, ledger: seq<Entry>, i: string)
    requires i in txs
  {
    Count(ledger, i) == if Moves(txs[i]) then 1 else 0
  }

  ghost predicate LedgerOk(txs: TxTable, ledger: seq<Entry>) {
    && (forall e :: e in ledger ==> EntryMatches(txs, e))
    && (forall i :: i in txs ==> CountFits(txs, ledger, i))
  }

  // ---------- Each wallet ----------

  function EntriesOf(ledger: seq<Entry>, walletId: string): seq<Entry> {
    if ledger == [] then []
    else
      var e := ledger[|ledger| - 1];
      EntriesOf(ledger[..|ledger| - 1], walletId) + if e.walletId == walletId then [e] else []
  }

  /** The balance changes that the wager use case announced for a wallet. */
  function ChangesOf(outbox: seq<Event>, walletId: string): seq<Event> {
    if outbox == [] then []
    else
      var e := outbox[|outbox| - 1];
      ChangesOf(outbox[..|outbox| - 1], walletId) + if e.BalanceChanged? && e.walletId == walletId then [e] else []
  }

  predicate Chain(es: seq<Entry>, balance: int64) {
    && (forall k :: 0 <= k < |es| ==> EntryChecks(es[k]))
    && (forall k :: 0 < k < |es| ==> es[k].before == es[k - 1].after)
    && (es != [] ==> es[0].before == 0)
    && balance == if es == [] then 0 else es[|es| - 1].after
  }

  predicate IsOpening(txs: TxTable, e: Entry) { e.txId in txs && txs[e.txId].kind == Opening }

  /** 1 if the wallet was opened with money, in which case its first entry is the opening. */
  function Offset(txs: TxTable, es: seq<Entry>): (n: nat)
    ensures n <= 1 && n <= |es|
  {
    if es != [] && IsOpening(txs, es[0]) then 1 else 0
  }

  predicate ChangeMatches(c: Event, e: Entry, currency: string, version: int) {
    Fits(version) && c == EventFor(e, currency, version as int64)
  }

  /** `es` is the wallet's part of the ledger and `cs` its part of the event stream. */
  ghost predicate Mirrors(txs: TxTable, es: seq<Entry>, cs: seq<Event>, w: WalletRow) {
    var n := Offset(txs, es);
    && Chain(es, w.balance.amount)
    && (forall k :: 0 < k < |es| ==> !IsOpening(txs, es[k]))
    && w.version as int == 1 + |es| - n
    && |cs| == |es| - n
    && (forall k :: 0 <= k < |cs| ==> ChangeMatches(cs[k], es[n + k], w.balance.currency, 2 + k))
  }

  ghost predicate WalletOk(txs: TxTable, ledger: seq<Entry>, outbox: seq<Event>, w: WalletRow) {
    CurrencyOk(w.balance.currency) && Rehydrates(w) && Mirrors(txs, EntriesOf(ledger, w.id), ChangesOf(outbox, w.id), w)
  }

  ghost predicate WalletsOk(db: Db) {
    forall i {:trigger WalletOk(db.txs, db.ledger, db.outbox, db.wallets[i])} ::
      i in db.wallets ==> WalletOk(db.txs, db.ledger, db.outbox, db.wallets[i])
  }

  // ---------- Processed events ----------

  function CountProcessed(outbox: seq<Event>, id: string): nat {
    if outbox == [] then 0
    else CountProcessed(outbox[..|outbox| - 1], id) + if outbox[|outbox| - 1] == TxProcessed(id) then 1 else 0
  }

  predicate ProcessedFits(txs: TxTable, outbox: seq<Event>, i: string)
    requires i in txs
  {
    CountProcessed(outbox, i) == if txs[i].status == Processed && txs[i].kind != Opening then 1 else 0
  }

  ghost predicate EventsOk(txs: TxTable, wallets: set<string>, outbox: seq<Event>) {
    && (forall e :: e in outbox && e.TxProcessed? ==> e.txId in txs)
    && (forall e :: e in outbox && e.BalanceChanged? ==> e.walletId in wallets)
    && (forall i :: i in txs ==> ProcessedFits(txs, outbox, i))
  }

  ghost predicate Inv(db: Db) {
    KeysOk(db) && RowsOk(db) && LedgerOk(db.txs, db.ledger) && WalletsOk(db)
    && EventsOk(db.txs, db.wallets.Keys, db.outbox)
  }

  lemma KeyedRow(db: Db, id: string)
    requires KeysOk(db)
    ensures id in db.txs ==> db.txs[id].id == id
  {
  }

  lemma WalletKeyed(db: Db, id: string)
    requires KeysOk(db)
    ensures id in db.wallets ==> db.wallets[id].id == id
  {
  }

  /** A lookup by provider and external id finds the stored row that has them, and misses only if there
      is none. */
  lemma ExternalIdLookup(db: Db, key: (string, string))
    requires KeysOk(db)
    ensures match FindByExternalId(db, key)
            case None => forall i :: i in db.txs ==> ExtOf(db.txs[i]) != key
            case Some(row) => row.id in db.txs && db.txs[row.id] == row && ExtOf(row) == key
                              && forall i :: i in db.txs && ExtOf(db.txs[i]) == key ==> i == row.id
  {
  }

  /** So does a lookup by idempotency key. */
  lemma IdempotencyKeyLookup(db: Db, key: string)
    requires KeysOk(db)
    ensures match FindByIdempotencyKey(db, key)
            case None => forall i :: i in db.txs ==> db.txs[i].idemKey != key
            case Some(row) => row.id in db.txs && db.txs[row.id] == row && row.idemKey == key
                              && forall i :: i in db.txs && db.txs[i].idemKey == key ==> i == row.id
  {
  }

  /** Every stored wallet can be read back. */
  ghost predicate WalletsRead(db: Db) { forall i :: i in db.wallets ==> Rehydrates(db.wallets[i]) }

  lemma InvReads(db: Db)
    requires Inv(db)
    ensures KeysOk(db) && WalletsRead(db)
  {
    forall i | i in db.wallets ensures Rehydrates(db.wallets[i]) { assert WalletOk(db.txs, db.ledger, db.outbox, db.wallets[i]); }
  }

  lemma InvEmpty()
    ensures Inv(EMPTY_DB)
  {
  }

  // ---------- Counting lemmas ----------

  lemma {:induction false} CountAbsent(ledger: seq<Entry>, id: string)
    requires forall e :: e in ledger ==> e.txId != id
    ensures Count(ledger, id) == 0
  {
    if ledger != [] { CountAbsent(ledger[..|ledger| - 1], id); }
  }

  lemma {:induction false} CountProcessedAbsent(outbox: seq<Event>, id: string)
    requires forall e :: e in outbox && e.TxProcessed? ==> e.txId != id
    ensures CountProcessed(outbox, id) == 0
  {
    if outbox != [] { CountProcessedAbsent(outbox[..|outbox| - 1], id); }
  }

  lemma CountSnoc(ledger: seq<Entry>, e: Entry, id: string)
    ensures Count(ledger + [e], id) == Count(ledger, id) + if e.txId == id then 1 else 0
  {
    assert (ledger + [e])[..|ledger|] == ledger;
  }

  lemma EntriesSnoc(ledger: seq<Entry>, e: Entry, w: string)
    ensures EntriesOf(ledger + [e], w) == EntriesOf(ledger, w) + if e.walletId == w then [e] else []
  {
    assert (ledger + [e])[..|ledger|] == ledger;
  }

  lemma OutboxSnoc(outbox: seq<Event>, e: Event, w: string, id: string)
    ensures ChangesOf(outbox + [e], w) == ChangesOf(outbox, w) + if e.BalanceChanged? && e.walletId == w then [e] else []
    ensures CountProcessed(outbox + [e], id) == CountProcessed(outbox, id) + if e == TxProcessed(id) then 1 else 0
  {
    assert (outbox + [e])[..|outbox|] == outbox;
  }

  lemma {:induction false} EntriesOfMembers(ledger: seq<Entry>, w: string)
    ensures forall e :: e in EntriesOf(ledger, w) <==> e in ledger && e.walletId == w
  {
    if ledger != [] {
      EntriesOfMembers(ledger[..|ledger| - 1], w);
      assert ledger == ledger[..|ledger| - 1] + [ledger[|ledger| - 1]];
    }
  }

  lemma {:induction false} ChangesAbsent(outbox: seq<Event>, w: string)
    requires forall e :: e in outbox && e.BalanceChanged? ==> e.walletId != w
    ensures ChangesOf(outbox, w) == []
  {
    if outbox != [] { ChangesAbsent(outbox[..|outbox| - 1], w); }
  }

  lemma {:induction false} AppendChanges(outbox: seq<Event>, evs: seq<Event>, w: string)
    ensures ChangesOf(outbox + evs, w) == ChangesOf(outbox, w) + ChangesOf(evs, w)
  {
    if evs == [] {
      assert outbox + evs == outbox;
    } else {
      var front := evs[..|evs| - 1];
      AppendChanges(outbox, front, w);
      assert (outbox + evs)[..|outbox + evs| - 1] == outbox + front;
    }
  }

  lemma {:induction false} AppendProcessed(outbox: seq<Event>, evs: seq<Event>, id: string)
    ensures CountProcessed(outbox + evs, id) == CountProcessed(outbox, id) + CountProcessed(evs, id)
  {
    if evs == [] {
      assert outbox + evs == outbox;
    } else {
      var front := evs[..|evs| - 1];
      AppendProcessed(outbox, front, id);
      assert (outbox + evs)[..|outbox + evs| - 1] == outbox + front;
    }
  }

  lemma AppendEvents(outbox: seq<Event>, evs: seq<Event>, w: string, id: string)
    ensures ChangesOf(outbox + evs, w) == ChangesOf(outbox, w) + ChangesOf(evs, w)
    ensures CountProcessed(outbox + evs, id) == CountProcessed(outbox, id) + CountProcessed(evs, id)
  {
    AppendChanges(outbox, evs, w);
    AppendProcessed(outbox, evs, id);
  }

  // ---------- Putting a row ----------

  /** A row may be put into the table when it is new on all three keys, or when it settles the parked
      row of the same id. */
  predicate Fresh(db: Db, t: TxRow) { t.id !in db.txs && ExtOf(t) !in db.byExt && t.idemKey !in db.byKey }

  predicate Settles(db: Db, t: TxRow) {
    t.id in db.txs && db.txs[t.id].status == PendingReference
    && t == db.txs[t.id].(status := t.status, failureCode := t.failureCode)
  }

  predicate Puttable(db: Db, t: TxRow) {
    (Fresh(db, t) || Settles(db, t)) && RowOk(t) && t.walletId in db.wallets
  }

  lemma PutFreshKeys(db: Db, t: TxRow)
    requires KeysOk(db) && Fresh(db, t) && t.walletId in db.wallets
    ensures KeysOk(PutTx(db, t))
  {
  }

  lemma PutSettledKeys(db: Db, t: TxRow)
    requires KeysOk(db) && Settles(db, t)
    ensures KeysOk(PutTx(db, t))
  {
  }

  /** No entry and no processed event speaks of the row yet. */
  predicate Unprocessed(txs: TxTable, id: string) { id in txs ==> txs[id].status != Processed }

  /** Putting an unprocessed row leaves the entries of other rows, and the openings, as they were. */
  lemma PutMatches(txs: TxTable, t: TxRow, e: Entry)
    requires Unprocessed(txs, t.id) && EntryMatches(txs, e)
    ensures e.txId != t.id && EntryMatches(txs[t.id := t], e)
    ensures IsOpening(txs[t.id := t], e) == IsOpening(txs, e)
  {
  }

  lemma PutKeepsWallet(txs: TxTable, ledger: seq<Entry>, outbox: seq<Event>, w: WalletRow,
                       t: TxRow, ledger': seq<Entry>, outbox': seq<Event>)
    requires LedgerOk(txs, ledger) && Unprocessed(txs, t.id) && WalletOk(txs, ledger, outbox, w)
    requires EntriesOf(ledger', w.id) == EntriesOf(ledger, w.id)
    requires ChangesOf(outbox', w.id) == ChangesOf(outbox, w.id)
    ensures WalletOk(txs[t.id := t], ledger', outbox', w)
  {
    EntriesOfMembers(ledger, w.id);
    var es := EntriesOf(ledger, w.id);
    forall k | 0 <= k < |es| ensures IsOpening(txs[t.id := t], es[k]) == IsOpening(txs, es[k]) {
      assert es[k] in es;
      PutMatches(txs, t, es[k]);
    }
  }

  lemma UnprocessedCounts(txs: TxTable, ledger: seq<Entry>, outbox: seq<Event>, wallets: set<string>, id: string)
    requires LedgerOk(txs, ledger) && EventsOk(txs, wallets, outbox) && Unprocessed(txs, id)
    ensures Count(ledger, id) == 0 && CountProcessed(outbox, id) == 0
  {
    if id in txs {
      assert CountFits(txs, ledger, id) && ProcessedFits(txs, outbox, id);
    } else {
      CountAbsent(ledger, id);
      CountProcessedAbsent(outbox, id);
    }
  }

  lemma FitsOwn(t: TxRow, e: Entry)
    ensures EntryFits(t, e) ==> e.txId == t.id
  {
  }

  lemma PutKeepsLedger(txs: TxTable, ledger: seq<Entry>, t: TxRow, es: seq<Entry>)
    requires LedgerOk(txs, ledger) && Unprocessed(txs, t.id) && Count(ledger, t.id) == 0
    requires if Moves(t) then |es| == 1 && EntryFits(t, es[0]) else es == []
    ensures LedgerOk(txs[t.id := t], ledger + es)
  {
    hide EntryFits;
    var txs' := txs[t.id := t];
    forall e | e in ledger + es ensures EntryMatches(txs', e) {
      if e in ledger { PutMatches(txs, t, e); } else { FitsOwn(t, e); }
    }
    forall i | i in txs' ensures CountFits(txs', ledger + es, i) {
      assert i != t.id ==> CountFits(txs, ledger, i);
      if es == [] { assert ledger + es == ledger; } else { FitsOwn(t, es[0]); CountSnoc(ledger, es[0], i); }
    }
  }

  lemma PutKeepsEvents(txs: TxTable, wallets: set<string>, outbox: seq<Event>, t: TxRow, evs: seq<Event>)
    requires EventsOk(txs, wallets, outbox) && Unprocessed(txs, t.id) && CountProcessed(outbox, t.id) == 0
    requires forall e :: e in evs && e.TxProcessed? ==> e.txId == t.id
    requires forall e :: e in evs && e.BalanceChanged? ==> e.walletId in wallets
    requires CountProcessed(evs, t.id) == if t.status == Processed && t.kind != Opening then 1 else 0
    ensures EventsOk(txs[t.id := t], wallets, outbox + evs)
  {
    var txs' := txs[t.id := t];
    forall i | i in txs' ensures ProcessedFits(txs', outbox + evs, i) {
      assert i != t.id ==> ProcessedFits(txs, outbox, i);
      AppendEvents(outbox, evs, "", i);
      if i != t.id { CountProcessedAbsent(evs, i); }
    }
  }

  // ---------- Recording a row that moves no money ----------

  /** The events a use case sends besides a balance change. */
  predicate EventsFor(t: TxRow, evs: seq<Event>) {
    if t.status == Processed then evs == [TxProcessed(t.id)]
    else forall e :: e in evs ==> e.TxRejected? || e.TxParked?
  }

  lemma EventsForCounts(t: TxRow, evs: seq<Event>, w: string)
    requires EventsFor(t, evs)
    ensures CountProcessed(evs, t.id) == if t.status == Processed then 1 else 0
    ensures ChangesOf(evs, w) == []
  {
    ChangesAbsent(evs, w);
    if t.status == Processed {
      OutboxSnoc([], TxProcessed(t.id), w, t.id);
      assert [] + evs == evs;
    } else {
      CountProcessedAbsent(evs, t.id);
    }
  }

  function Recorded(db: Db, t: TxRow, evs: seq<Event>): Db {
    PutTx(db, t).(outbox := db.outbox + evs)
  }

  lemma PutKeeps(db: Db, t: TxRow)
    requires KeysOk(db) && RowsOk(db) && Puttable(db, t)
    ensures KeysOk(PutTx(db, t)) && RowsOk(PutTx(db, t)) && Unprocessed(db.txs, t.id)
  {
    if Fresh(db, t) { PutFreshKeys(db, t); } else { PutSettledKeys(db, t); }
  }

  lemma RecordKeepsWallets(db: Db, t: TxRow, evs: seq<Event>, db': Db)
    requires WalletsOk(db) && LedgerOk(db.txs, db.ledger) && Unprocessed(db.txs, t.id) && EventsFor(t, evs)
    requires db'.wallets == db.wallets && db'.txs == db.txs[t.id := t]
    requires db'.ledger == db.ledger && db'.outbox == db.outbox + evs
    ensures WalletsOk(db')
  {
    forall i | i in db.wallets ensures WalletOk(db'.txs, db'.ledger, db'.outbox, db.wallets[i]) {
      var w := db.wallets[i];
      AppendEvents(db.outbox, evs, w.id, "");
      EventsForCounts(t, evs, w.id);
      PutKeepsWallet(db.txs, db.ledger, db.outbox, w, t, db'.ledger, db'.outbox);
    }
  }

  lemma RecordKeepsTables(db: Db, t: TxRow, evs: seq<Event>)
    requires LedgerOk(db.txs, db.ledger) && EventsOk(db.txs, db.wallets.Keys, db.outbox)
    requires Unprocessed(db.txs, t.id) && !Moves(t) && t.kind != Opening && EventsFor(t, evs)
    ensures LedgerOk(db.txs[t.id := t], db.ledger)
    ensures EventsOk(db.txs[t.id := t], db.wallets.Keys, db.outbox + evs)
  {
    UnprocessedCounts(db.txs, db.ledger, db.outbox, db.wallets.Keys, t.id);
    PutKeepsLedger(db.txs, db.ledger, t, []);
    assert db.ledger + [] == db.ledger;
    EventsForCounts(t, evs, "");
    PutKeepsEvents(db.txs, db.wallets.Keys, db.outbox, t, evs);
  }

  /** The keys do not look at the ledger, the events or the inbox. */
  lemma KeysFrame(db: Db, db': Db)
    requires KeysOk(db) && RowsOk(db)
    requires db'.wallets == db.wallets && db'.byOwner == db.byOwner
    requires db'.txs == db.txs && db'.byExt == db.byExt && db'.byKey == db.byKey
    ensures KeysOk(db') && RowsOk(db')
  {
  }

  lemma RecordKeepsKeys(db: Db, t: TxRow, evs: seq<Event>)
    requires KeysOk(db) && RowsOk(db) && Puttable(db, t)
    ensures KeysOk(Recorded(db, t, evs)) && RowsOk(Recorded(db, t, evs)) && Unprocessed(db.txs, t.id)
  {
    PutKeeps(db, t);
    KeysFrame(PutTx(db, t), Recorded(db, t, evs));
  }

  /** Recording a row that moves no money keeps the invariant. */
  lemma RecordKeeps(db: Db, t: TxRow, evs: seq<Event>)
    requires Inv(db) && Puttable(db, t) && !Moves(t) && t.kind != Opening && EventsFor(t, evs)
    ensures Inv(Recorded(db, t, evs))
  {
    RecordKeepsKeys(db, t, evs);
    RecordKeepsTables(db, t, evs);
    RecordKeepsWallets(db, t, evs, Recorded(db, t, evs));
  }

  // ---------- Moving money ----------

  /** The wallet row and the entry that a movement writes. */
  predicate MoveOk(w: WalletRow, t: TxRow, w': WalletRow, e: Entry) {
    && EntryFits(t, e) && t.kind != Opening && t.walletId == w.id
    && e.before == w.balance.amount && e.after == w'.balance.amount
    && t.money.currency == w.balance.currency
    && w.version < MAX && w' == w.(balance := w.balance.(amount := w'.balance.amount), version := w.version + 1)
  }

  function Moved(db: Db, t: TxRow, w': WalletRow, e: Entry, evs: seq<Event>): Db {
    PutTx(db, t).(wallets := db.wallets[w'.id := w'], ledger := db.ledger + [e], outbox := db.outbox + evs)
  }

  /** Both orders in which the two use cases send the two events of a movement. */
  predicate MoveEvents(t: TxRow, w': WalletRow, e: Entry, evs: seq<Event>) {
    var change := EventFor(e, t.money.currency, w'.version);
    evs == [change, TxProcessed(t.id)] || evs == [TxProcessed(t.id), change]
  }

  lemma MoveEventCounts(t: TxRow, w': WalletRow, e: Entry, evs: seq<Event>, i: string)
    requires MoveEvents(t, w', e, evs)
    ensures CountProcessed(evs, t.id) == 1
    ensures ChangesOf(evs, i) == if i == e.walletId then [EventFor(e, t.money.currency, w'.version)] else []
  {
    var a, b := evs[0], evs[1];
    assert evs == [a] + [b] && [a] == [] + [a];
    OutboxSnoc([], a, i, t.id);
    OutboxSnoc([a], b, i, t.id);
  }

  lemma ChainSnoc(es: seq<Entry>, e: Entry, balance: int64)
    requires Chain(es, balance) && EntryChecks(e) && e.before == balance
    ensures Chain(es + [e], e.after)
  {
  }

  /** One more link in the chain, one more version, one more event. */
  lemma MirrorsSnoc(txs: TxTable, es: seq<Entry>, cs: seq<Event>, w: WalletRow, e: Entry, w': WalletRow, c: Event)
    requires Mirrors(txs, es, cs, w) && !IsOpening(txs, e) && EntryChecks(e)
    requires e.before == w.balance.amount && e.after == w'.balance.amount
    requires w'.balance.currency == w.balance.currency && w.version < MAX && w'.version == w.version + 1
    requires c == EventFor(e, w.balance.currency, w'.version)
    ensures Mirrors(txs, es + [e], cs + [c], w')
  {
    var n, es', cs' := Offset(txs, es), es + [e], cs + [c];
    ChainSnoc(es, e, w.balance.amount);
    forall k | 0 <= k < |cs'| ensures ChangeMatches(cs'[k], es'[n + k], w.balance.currency, 2 + k) {
      assert k < |cs| ==> ChangeMatches(cs[k], es[n + k], w.balance.currency, 2 + k);
    }
  }

  lemma MoveKeepsMover(txs: TxTable, ledger: seq<Entry>, outbox: seq<Event>, w: WalletRow,
                       t: TxRow, w': WalletRow, e: Entry, evs: seq<Event>)
    requires LedgerOk(txs, ledger) && Unprocessed(txs, t.id) && WalletOk(txs, ledger, outbox, w)
    requires MoveOk(w, t, w', e) && MoveEvents(t, w', e, evs)
    ensures WalletOk(txs[t.id := t], ledger + [e], outbox + evs, w')
  {
    var es, cs := EntriesOf(ledger, w.id), ChangesOf(outbox, w.id);
    var change := EventFor(e, w.balance.currency, w'.version);
    PutKeepsWallet(txs, ledger, outbox, w, t, ledger, outbox);
    EntriesSnoc(ledger, e, w.id);
    AppendEvents(outbox, evs, w.id, "");
    MoveEventCounts(t, w', e, evs, w.id);
    MirrorsSnoc(txs[t.id := t], es, cs, w, e, w', change);
  }

  lemma MoveWalletKeys(db: Db, w': WalletRow, db': Db)
    requires KeysOk(db) && RowsOk(db) && w'.id in db.wallets && OwnerOf(w') == OwnerOf(db.wallets[w'.id])
    requires db'.wallets == db.wallets[w'.id := w'] && db'.byOwner == db.byOwner
    requires db'.txs == db.txs && db'.byExt == db.byExt && db'.byKey == db.byKey
    ensures KeysOk(db') && RowsOk(db')
  {
  }

  lemma MoveKeepsKeys(db: Db, t: TxRow, w': WalletRow, e: Entry, evs: seq<Event>)
    requires KeysOk(db) && RowsOk(db) && Puttable(db, t) && MoveOk(db.wallets[t.walletId], t, w', e)
    ensures KeysOk(Moved(db, t, w', e, evs)) && RowsOk(Moved(db, t, w', e, evs)) && Unprocessed(db.txs, t.id)
    ensures Moved(db, t, w', e, evs).wallets.Keys == db.wallets.Keys
  {
    PutKeeps(db, t);
    MoveWalletKeys(PutTx(db, t), w', Moved(db, t, w', e, evs));
  }

  lemma MoveKeepsTables(db: Db, t: TxRow, w': WalletRow, e: Entry, evs: seq<Event>)
    requires LedgerOk(db.txs, db.ledger) && EventsOk(db.txs, db.wallets.Keys, db.outbox) && Unprocessed(db.txs, t.id)
    requires t.walletId in db.wallets && MoveOk(db.wallets[t.walletId], t, w', e) && MoveEvents(t, w', e, evs)
    ensures LedgerOk(db.txs[t.id := t], db.ledger + [e])
    ensures EventsOk(db.txs[t.id := t], db.wallets.Keys, db.outbox + evs)
  {
    UnprocessedCounts(db.txs, db.ledger, db.outbox, db.wallets.Keys, t.id);
    PutKeepsLedger(db.txs, db.ledger, t, [e]);
    MoveEventCounts(t, w', e, evs, "");
    PutKeepsEvents(db.txs, db.wallets.Keys, db.outbox, t, evs);
  }

  lemma MoveKeepsWallets(db: Db, t: TxRow, w': WalletRow, e: Entry, evs: seq<Event>, db': Db)
    requires WalletsOk(db) && LedgerOk(db.txs, db.ledger) && Unprocessed(db.txs, t.id)
    requires KeysOk(db) && t.walletId in db.wallets && MoveOk(db.wallets[t.walletId], t, w', e) && MoveEvents(t, w', e, evs)
    requires db'.wallets == db.wallets[w'.id := w'] && db'.txs == db.txs[t.id := t]
    requires db'.ledger == db.ledger + [e] && db'.outbox == db.outbox + evs
    ensures WalletsOk(db')
  {
    MoveKeepsMover(db.txs, db.ledger, db.outbox, db.wallets[t.walletId], t, w', e, evs);
    forall i | i in db'.wallets ensures WalletOk(db'.txs, db'.ledger, db'.outbox, db'.wallets[i]) {
      if i != w'.id {
        var w := db.wallets[i];
        EntriesSnoc(db.ledger, e, w.id);
        AppendEvents(db.outbox, evs, w.id, "");
        MoveEventCounts(t, w', e, evs, w.id);
        PutKeepsWallet(db.txs, db.ledger, db.outbox, w, t, db'.ledger, db'.outbox);
      }
    }
  }

  /** A movement keeps the invariant. */
  lemma MoveKeeps(db: Db, t: TxRow, w': WalletRow, e: Entry, evs: seq<Event>)
    requires Inv(db) && Puttable(db, t) && MoveOk(db.wallets[t.walletId], t, w', e) && MoveEvents(t, w', e, evs)
    ensures Inv(Moved(db, t, w', e, evs))
  {
    MoveKeepsKeys(db, t, w', e, evs);
    MoveKeepsTables(db, t, w', e, evs);
    MoveKeepsWallets(db, t, w', e, evs, Moved(db, t, w', e, evs));
  }
}
