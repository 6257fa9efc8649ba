/** What no committed step ever undoes, and what can be read off a reachable state. */
module Evolution {
  import opened Amounts
  import opened Records
  import opened Tables
  import opened Steps
  import opened Invariants
  import opened Preservation

  // ---------- Growth ----------

  /** A parked row may settle once; every other row is final. */
  predicate RowEvolves(r: TxRow, r': TxRow) {
    r' == r
    || (r.status == PendingReference && Terminal(r'.status) && r' == r.(status := r'.status, failureCode := r'.failureCode))
  }

  predicate WalletEvolves(w: WalletRow, w': WalletRow) {
    w'.id == w.id && OwnerOf(w') == OwnerOf(w)
  }

  ghost predicate TablesEvolve(db: Db, db': Db) {
    && (forall i :: i in db.wallets ==> i in db'.wallets && WalletEvolves(db.wallets[i], db'.wallets[i]))
    && (forall i :: i in db.txs ==> i in db'.txs && RowEvolves(db.txs[i], db'.txs[i]))
  }

  ghost predicate IndexesEvolve(db: Db, db': Db) {
    && (forall k :: k in db.byExt ==> k in db'.byExt && db'.byExt[k] == db.byExt[k])
    && (forall k :: k in db.byKey ==> k in db'.byKey && db'.byKey[k] == db.byKey[k])
    && (forall k :: k in db.inbox ==> k in db'.inbox && db'.inbox[k] == db.inbox[k])
  }

  ghost predicate Evolves(db: Db, db': Db) {
    TablesEvolve(db, db') && IndexesEvolve(db, db') && db.ledger <= db'.ledger && db.outbox <= db'.outbox
  }

  lemma EvolvesTransitive(a: Db, b: Db, c: Db)
    requires Evolves(a, b) && Evolves(b, c)
    ensures Evolves(a, c)
  {
    forall i | i in a.txs ensures i in c.txs && RowEvolves(a.txs[i], c.txs[i]) {
      assert RowEvolves(a.txs[i], b.txs[i]) && RowEvolves(b.txs[i], c.txs[i]);
    }
  }

  /** The only update of a transaction row that the use cases issue: of a row they have found parked. */
  predicate Gentle(db: Db, w: Write) {
    w.UpdTx? && w.tx.id in db.txs ==> RowEvolves(db.txs[w.tx.id], w.tx)
  }

  lemma AppendEvolves(db: Db, w: Write)
    requires Check(db, w) == None && (w.InsInbox? || w.InsEntry? || w.InsEvent?)
    ensures Evolves(db, Apply(db, w))
  {
    hide EntryFree, EntryChecks;
  }

  lemma WalletTableEvolves(db: Db, w: Write)
    requires w.InsWallet? ==> w.wallet.id !in db.wallets
    requires w.InsWallet? || w.UpdWallet?
    ensures TablesEvolve(db, Apply(db, w))
  {
  }

  lemma SameIndexes(db: Db, db': Db)
    requires db'.byExt == db.byExt && db'.byKey == db.byKey && db'.inbox == db.inbox
    ensures IndexesEvolve(db, db')
  {
  }

  lemma WalletWriteEvolves(db: Db, w: Write)
    requires Check(db, w) == None && (w.InsWallet? || w.UpdWallet?)
    ensures Evolves(db, Apply(db, w))
  {
    hide IndexesEvolve, TablesEvolve;
    var db' := Apply(db, w);
    assert TablesEvolve(db, db') by { WalletTableEvolves(db, w); }
    assert IndexesEvolve(db, db') by { SameIndexes(db, db'); }
  }

  lemma UpdateEvolves(db: Db, t: TxRow)
    requires t.id in db.txs ==> RowEvolves(db.txs[t.id], t)
    ensures Evolves(db, Apply(db, UpdTx(t)))
  {
  }

  lemma PutEvolves(db: Db, t: TxRow)
    requires Fresh(db, t)
    ensures Evolves(db, PutTx(db, t))
  {
  }

  lemma ApplyEvolves(db: Db, w: Write)
    requires Check(db, w) == None && Gentle(db, w)
    ensures Evolves(db, Apply(db, w))
  {
    hide Evolves;
    match w {
      case InsTx(t) => PutEvolves(db, t);
      case UpdTx(t) => UpdateEvolves(db, t);
      case InsWallet(_) => WalletWriteEvolves(db, w);
      case UpdWallet(_, _) => WalletWriteEvolves(db, w);
      case _ => AppendEvolves(db, w);
    }
  }

  lemma EvolvesReflexive(db: Db)
    ensures Evolves(db, db)
  {
  }

  lemma {:induction false} RunEvolves(db: Db, ws: seq<Write>)
    requires Run(db, ws).Ok?
    requires forall k :: 0 < k < |ws| ==> !ws[k].UpdTx?
    requires ws != [] ==> Gentle(db, ws[0])
    ensures Evolves(db, Run(db, ws).value)
  {
    hide Evolves, Check, Apply;
    if ws == [] {
      EvolvesReflexive(db);
    } else {
      var front := ws[..|ws| - 1];
      RunEvolves(db, front);
      var d := Run(db, front).value;
      assert front == [] ==> d == db;
      ApplyEvolves(d, ws[|ws| - 1]);
      EvolvesTransitive(db, d, Run(db, ws).value);
    }
  }

  /** The two shapes of a plan: a row and an event, or the five statements of a movement. */
  lemma PlanCases(t: TxRow, w: WalletRow, read: Option<TxRow>) returns (w': WalletRow, dir: Direction)
    requires Decide(t, w, read).Plan?
    ensures var ws := Decide(t, w, read).writes;
            || (|ws| == 2 && ws[0].InsTx? && ws[1].InsEvent?
                && ws[0].tx == t.(status := ws[0].tx.status, failureCode := ws[0].tx.failureCode))
            || (ws == MoveWrites(t, w, w', dir) && w'.id == w.id)
  {
    hide MoveWrites, Subtract, Add;
    w', dir := w, Credit;
    if t.kind == Bet && DebitRow(w, t.money).Ok? {
      w', dir := DebitRow(w, t.money).value, Debit;
    } else if t.kind != Bet && CreditRow(w, t.money).Ok? {
      w' := CreditRow(w, t.money).value;
    }
  }

  /** A plan first inserts its own row, and then neither claims a message nor touches another row. */
  lemma PlanShape(t: TxRow, w: WalletRow, read: Option<TxRow>)
    requires Decide(t, w, read).Plan?
    ensures var ws := Decide(t, w, read).writes;
            ws != [] && ws[0].InsTx? && ws[0].tx == t.(status := ws[0].tx.status, failureCode := ws[0].tx.failureCode)
            && forall k :: 0 < k < |ws| ==> ws[k].UpdWallet? || ws[k].InsEntry? || ws[k].InsEvent?
  {
    hide Decide;
    var _, _ := PlanCases(t, w, read);
  }

  /** What a submission that is not a repeated message runs. */
  lemma WagerRuns(db: Db, t: TxRow, inbox: Option<Claim>, read: Option<TxRow>) returns (ws: seq<Write>)
    requires WagerStep(db, t, inbox, read).Ok?
    requires !(inbox.Some? && MessageOf(inbox.value) in db.inbox)
    ensures Run(db, InboxWrites(inbox) + ws) == Ok(WagerStep(db, t, inbox, read).value.0)
    ensures Run(WithInbox(db, inbox), ws) == Ok(WagerStep(db, t, inbox, read).value.0)
    ensures Existing(db, t).Same? || Existing(db, t).Absent?
    ensures Existing(db, t).Same? ==> ws == []
    ensures Existing(db, t).Absent? ==>
              ws != [] && ws[0].InsTx? && ws[0].tx == t.(status := ws[0].tx.status, failureCode := ws[0].tx.failureCode)
    ensures forall k :: 0 <= k < |ws| ==> !ws[k].UpdTx? && !ws[k].InsInbox?
  {
    hide Decide, Run, Existing, AnswerFrom;
    ws := [];
    if Existing(db, t).Absent? {
      PlanShape(t, db.wallets[t.walletId], read);
      ws := Decide(t, db.wallets[t.walletId], read).writes;
    }
    RunInbox(db, inbox, ws);
    assert InboxWrites(inbox) + [] == InboxWrites(inbox);
  }

  lemma WagerEvolves(db: Db, t: TxRow, inbox: Option<Claim>, read: Option<TxRow>)
    requires WagerStep(db, t, inbox, read).Ok?
    ensures Evolves(db, WagerStep(db, t, inbox, read).value.0)
  {
    hide Evolves, Run, Check, Apply, Decide, Existing;
    EvolvesReflexive(db);
    if !(inbox.Some? && MessageOf(inbox.value) in db.inbox) {
      var ws := WagerRuns(db, t, inbox, read);
      RunEvolves(db, InboxWrites(inbox) + ws);
    }
  }

  lemma ResolveEvolves(db: Db, id: string, read: Option<TxRow>)
    requires KeysOk(db) && ResolveStep(db, id, read).Ok?
    ensures Evolves(db, ResolveStep(db, id, read).value)
  {
    hide Evolves, Run, Check, Apply;
    EvolvesReflexive(db);
    if id in db.txs && db.txs[id].status == PendingReference {
      var row := db.txs[id];
      if read.None? || read.value.status != Processed {
        RunEvolves(db, ShelveWrites(row, read));
      } else {
        var w := db.wallets[row.walletId];
        RunEvolves(db, SettleWrites(row, w, CreditRow(w, row.money).value));
      }
    }
  }

  lemma OpenEvolves(db: Db, w: WalletRow)
    requires Open(db, w).Ok?
    ensures Evolves(db, Open(db, w).value)
  {
    RunEvolves(db, OpenWrites(w));
  }

  // ---------- Conservation ----------

  function Sum(es: seq<Entry>): int {
    if es == [] then 0 else Sum(es[..|es| - 1]) + Signed(es[|es| - 1])
  }

  lemma {:induction false} ChainSum(es: seq<Entry>, balance: int64)
    requires Chain(es, balance)
    ensures balance as int == Sum(es)
  {
    if es != [] {
      var front, e := es[..|es| - 1], es[|es| - 1];
      ChainSum(front, e.before);
    }
  }

  /** In every state that keeps the invariant a wallet's balance is the signed sum of its ledger
      entries and is not negative. */
  lemma Conservation(db: Db, id: string)
    requires Inv(db) && id in db.wallets
    ensures db.wallets[id].balance.amount as int == Sum(EntriesOf(db.ledger, id)) >= 0
  {
    WalletFacts(db, id);
    assert WalletOk(db.txs, db.ledger, db.outbox, db.wallets[id]);
    ChainSum(EntriesOf(db.ledger, id), db.wallets[id].balance.amount);
  }

  lemma {:induction false} CountZero(ledger: seq<Entry>, id: string)
    requires Count(ledger, id) == 0
    ensures forall j :: 0 <= j < |ledger| ==> ledger[j].txId != id
  {
    if ledger != [] { CountZero(ledger[..|ledger| - 1], id); }
  }

  lemma {:induction false} CountOne(ledger: seq<Entry>, id: string) returns (k: nat)
    requires Count(ledger, id) == 1
    ensures k < |ledger| && ledger[k].txId == id
    ensures forall j :: 0 <= j < |ledger| && ledger[j].txId == id ==> j == k
  {
    var front := ledger[..|ledger| - 1];
    if ledger[|ledger| - 1].txId == id {
      CountZero(front, id);
      k := |ledger| - 1;
    } else {
      k := CountOne(front, id);
      assert ledger[k] == front[k];
    }
  }

  /** Exactly one entry for each row that moves money, with its wallet, amount and direction; none for
      any other row. */
  lemma {:induction false} OneEntryPerMovement(db: Db, id: string)
    requires Inv(db) && id in db.txs
    ensures Count(db.ledger, id) == if Moves(db.txs[id]) then 1 else 0
    ensures Moves(db.txs[id]) ==>
              exists k :: 0 <= k < |db.ledger| && EntryFits(db.txs[id], db.ledger[k])
                          && forall j :: 0 <= j < |db.ledger| && db.ledger[j].txId == id ==> j == k
    ensures !Moves(db.txs[id]) ==> forall e :: e in db.ledger ==> e.txId != id
  {
    hide KeysOk, RowsOk, WalletsOk, EventsOk;
    assert CountFits(db.txs, db.ledger, id);
    if Moves(db.txs[id]) {
      var k := CountOne(db.ledger, id);
      assert db.ledger[k] in db.ledger && EntryMatches(db.txs, db.ledger[k]);
    } else {
      forall e | e in db.ledger ensures e.txId != id { assert EntryMatches(db.txs, e); }
    }
  }

  lemma MirrorsSizes(txs: TxTable, es: seq<Entry>, cs: seq<Event>, w: WalletRow)
    requires Mirrors(txs, es, cs, w)
    ensures |cs| == w.version as int - 1 == |es| - Offset(txs, es)
    ensures forall k :: 0 < k < |es| ==> es[k].before == es[k - 1].after
    ensures es != [] ==> es[|es| - 1].after == w.balance.amount
  {
  }

  /** What the change says, under this version, is what the entry says: its wallet, transaction, direction,
      amount and balances. */
  predicate Announces(c: Event, e: Entry, cur: string, version: int) {
    && c.BalanceChanged? && c.version as int == version && c.currency == cur
    && c.walletId == e.walletId && c.txId == e.txId && c.direction == e.direction
    && Parse(c.printedAmount, cur) == Ok(Money(e.amount, cur))
    && Parse(c.printedBefore, cur) == Ok(Money(e.before, cur)) && Parse(c.printedAfter, cur) == Ok(Money(e.after, cur))
  }

  lemma StreamLink(txs: TxTable, es: seq<Entry>, cs: seq<Event>, w: WalletRow, k: nat)
    requires Mirrors(txs, es, cs, w) && CurrencyOk(w.balance.currency) && k < |cs|
    ensures Announces(cs[k], es[Offset(txs, es) + k], w.balance.currency, k + 2)
  {
    hide Parse, Print;
    var e := es[Offset(txs, es) + k];
    assert ChangeMatches(cs[k], e, w.balance.currency, 2 + k) && EntryChecks(e);
    ParsePrint(e.amount, w.balance.currency);
    ParsePrint(e.before, w.balance.currency);
    ParsePrint(e.after, w.balance.currency);
  }

  lemma StreamLinks(es: seq<Entry>, cs: seq<Event>, w: WalletRow)
    requires |cs| <= |es| && (es != [] ==> es[|es| - 1].after == w.balance.amount)
    requires forall k :: 0 < k < |es| ==> es[k].before == es[k - 1].after
    requires forall k :: 0 <= k < |cs| ==> cs[k].BalanceChanged?
    requires forall k :: 0 <= k < |cs| ==> Announces(cs[k], es[|es| - |cs| + k], w.balance.currency, k + 2)
    ensures forall k :: 0 < k < |cs| ==>
              Parse(cs[k].printedBefore, w.balance.currency) == Parse(cs[k - 1].printedAfter, w.balance.currency)
    ensures cs != [] ==> Parse(cs[|cs| - 1].printedAfter, w.balance.currency) == Ok(w.balance)
  {
    hide Parse;
    forall k | 0 < k < |cs|
      ensures Parse(cs[k].printedBefore, w.balance.currency) == Parse(cs[k - 1].printedAfter, w.balance.currency)
    {
      var n := |es| - |cs|;
      assert Announces(cs[k], es[n + k], w.balance.currency, k + 2) && Announces(cs[k - 1], es[n + (k - 1)], w.balance.currency, k + 1);
      assert es[n + k].before == es[n + k - 1].after;
    }
  }

  /** The announced balance changes of a wallet are its ledger entries, one for each but an opening: they
      carry the versions 2, 3, ... once each, name the transaction and the direction of the entry, and print
      its amount and balances. So each meets the next, and the last gives the stored balance. */
  lemma EventStreamRebuilds(db: Db, id: string)
    requires Inv(db) && id in db.wallets
    ensures var w, cs, es := db.wallets[id], ChangesOf(db.outbox, id), EntriesOf(db.ledger, id);
            var cur, n := w.balance.currency, |es| - |cs|;
            && |cs| == w.version as int - 1
            && n == (if es != [] && IsOpening(db.txs, es[0]) then 1 else 0)
            && (forall k :: 0 <= k < |cs| ==> cs[k].BalanceChanged?)
            && (forall k :: 0 <= k < |cs| ==> Announces(cs[k], es[n + k], cur, k + 2))
            && (forall k :: 0 < k < |cs| ==> Parse(cs[k].printedBefore, cur) == Parse(cs[k - 1].printedAfter, cur))
            && (cs != [] ==> Parse(cs[|cs| - 1].printedAfter, cur) == Ok(w.balance))
  {
    hide KeysOk, RowsOk, LedgerOk, EventsOk, Mirrors, Parse, Print, EntriesOf, ChangesOf;
    WalletFacts(db, id);
    var w := db.wallets[id];
    assert WalletOk(db.txs, db.ledger, db.outbox, w);
    var es, cs := EntriesOf(db.ledger, id), ChangesOf(db.outbox, id);
    MirrorsSizes(db.txs, es, cs, w);
    forall k | 0 <= k < |cs| ensures Announces(cs[k], es[|es| - |cs| + k], w.balance.currency, k + 2) {
      StreamLink(db.txs, es, cs, w, k);
    }
    StreamLinks(es, cs, w);
  }

  // ---------- The inbox ----------

  /** A row for the submission with this payload is on record. */
  predicate OnRecord(db: Db, p: Payload) {
    var row := FindByExternalId(db, (p.providerId, p.externalId));
    row.Some? && row.value.hash == p
  }

  ghost predicate InboxOk(db: Db) { forall k :: k in db.inbox ==> OnRecord(db, db.inbox[k]) }

  lemma OnRecordForever(db: Db, db': Db, p: Payload)
    requires Evolves(db, db') && OnRecord(db, p)
    ensures OnRecord(db', p)
  {
  }

  lemma FoundRow(db: Db, key: (string, string))
    requires KeysOk(db) && FindByExternalId(db, key).Some?
    ensures ExtOf(FindByExternalId(db, key).value) == key
    ensures FindByExternalId(db, key).value.id in db.txs && db.txs[FindByExternalId(db, key).value.id] == FindByExternalId(db, key).value
  {
  }

  lemma FoundByKey(db: Db, key: string)
    requires KeysOk(db) && FindByIdempotencyKey(db, key).Some?
    ensures var row := FindByIdempotencyKey(db, key).value;
            row.idemKey == key && row.id in db.txs && db.txs[row.id] == row && FindByExternalId(db, ExtOf(row)) == Some(row)
  {
  }

  /** A row with the hash of a submission is the row under the submission's external id. */
  lemma HashFindsRow(db: Db, t: TxRow)
    requires KeysOk(db) && RowsOk(db) && NewRow(t) && Existing(db, t).Same?
    ensures FindByExternalId(db, ExtOf(t)) == Some(Existing(db, t).row)
    ensures OnRecord(db, t.hash)
  {
    var row := Existing(db, t).row;
    if FindByExternalId(db, ExtOf(t)).None? {
      FoundByKey(db, t.idemKey);
    } else {
      FoundRow(db, ExtOf(t));
    }
    assert RowOk(db.txs[row.id]);
    EqualHashes(row, t);
  }

  /** Looked up with nothing committed in between, a hit by idempotency key alone never replays: it is a
      conflict. */
  lemma KeyAloneConflicts(db: Db, t: TxRow)
    requires KeysOk(db) && RowsOk(db) && NewRow(t)
    requires FindByExternalId(db, ExtOf(t)).None? && FindByIdempotencyKey(db, t.idemKey).Some?
    ensures Existing(db, t) == Clash
    ensures forall inbox: Option<Claim>, read: Option<TxRow> ::
              !(inbox.Some? && MessageOf(inbox.value) in db.inbox) ==> WagerStep(db, t, inbox, read) == Err(Conflict)
  {
    if Existing(db, t).Same? { HashFindsRow(db, t); }
  }

  /** A submission whose id collides with a recorded row of another external id ends in a conflict. */
  lemma IdCollisionConflicts(db: Db, t: TxRow, inbox: Option<Claim>, read: Option<TxRow>)
    requires Inv(db) && NewRow(t) && t.id in db.txs && ExtOf(t) !in db.byExt && t.idemKey !in db.byKey
    requires t.walletId in db.wallets && db.wallets[t.walletId].playerId == t.playerId
    requires Decide(t, db.wallets[t.walletId], read).Plan? && (inbox.Some? ==> MessageOf(inbox.value) !in db.inbox)
    ensures WagerStep(db, t, inbox, read) == Err(Conflict)
  {
    hide Inv, Decide, Run;
    var db1, ws := WithInbox(db, inbox), Decide(t, db.wallets[t.walletId], read).writes;
    PlanShape(t, db.wallets[t.walletId], read);
    RunInbox(db, inbox, ws);
    assert Run(db1, ws) == Err(DuplicateTransaction) by { RunCons(db1, ws[0], ws[1..]); assert [ws[0]] + ws[1..] == ws; }
  }

  lemma InsertRecords(db: Db, t: TxRow)
    requires t.hash == PayloadOf(t)
    ensures OnRecord(Apply(db, InsTx(t)), t.hash)
  {
  }

  /** An accepted submission leaves its row on record, unless its message was seen before. */
  lemma WagerRecords(db: Db, t: TxRow, inbox: Option<Claim>, read: Option<TxRow>)
    requires Inv(db) && NewRow(t) && WagerStep(db, t, inbox, read).Ok?
    requires !(inbox.Some? && MessageOf(inbox.value) in db.inbox)
    ensures OnRecord(WagerStep(db, t, inbox, read).value.0, t.hash)
  {
    hide KeysOk, RowsOk, LedgerOk, WalletsOk, EventsOk, Evolves, OnRecord, WagerStep, Existing, Run, Apply, Check;
    var db' := WagerStep(db, t, inbox, read).value.0;
    WagerEvolves(db, t, inbox, read);
    var ws := WagerRuns(db, t, inbox, read);
    if Existing(db, t).Same? {
      HashFindsRow(db, t);
      OnRecordForever(db, db', t.hash);
    } else {
      var db1 := WithInbox(db, inbox);
      RunCons(db1, ws[0], ws[1..]);
      assert [ws[0]] + ws[1..] == ws;
      InsertRecords(db1, ws[0].tx);
      RunEvolves(Apply(db1, ws[0]), ws[1..]);
      OnRecordForever(Apply(db1, ws[0]), db', t.hash);
    }
  }

  lemma ApplyInboxUntouched(db: Db, w: Write)
    requires !w.InsInbox?
    ensures Apply(db, w).inbox == db.inbox
  {
  }

  lemma {:induction false} RunInboxUntouched(db: Db, ws: seq<Write>)
    requires Run(db, ws).Ok? && forall k :: 0 <= k < |ws| ==> !ws[k].InsInbox?
    ensures Run(db, ws).value.inbox == db.inbox
  {
    hide Check, Apply;
    if ws != [] {
      RunInboxUntouched(db, ws[..|ws| - 1]);
      ApplyInboxUntouched(Run(db, ws[..|ws| - 1]).value, ws[|ws| - 1]);
    }
  }

  lemma WagerInbox(db: Db, t: TxRow, inbox: Option<Claim>, read: Option<TxRow>)
    requires WagerStep(db, t, inbox, read).Ok?
    requires !(inbox.Some? && MessageOf(inbox.value) in db.inbox)
    ensures WagerStep(db, t, inbox, read).value.0.inbox == WithInbox(db, inbox).inbox
  {
    hide WagerStep, Run;
    var ws := WagerRuns(db, t, inbox, read);
    RunInboxUntouched(WithInbox(db, inbox), ws);
  }

  /** Every inbox row comes with a transaction row for the submission that claimed it. */
  lemma WagerKeepsInbox(db: Db, t: TxRow, inbox: Option<Claim>, read: Option<TxRow>)
    requires Inv(db) && InboxOk(db) && NewRow(t) && WagerStep(db, t, inbox, read).Ok?
    requires inbox.Some? ==> inbox.value.payload == t.hash
    ensures InboxOk(WagerStep(db, t, inbox, read).value.0)
  {
    hide KeysOk, RowsOk, LedgerOk, WalletsOk, EventsOk, Evolves, OnRecord;
    var db' := WagerStep(db, t, inbox, read).value.0;
    if !(inbox.Some? && MessageOf(inbox.value) in db.inbox) {
      WagerEvolves(db, t, inbox, read);
      WagerRecords(db, t, inbox, read);
      WagerInbox(db, t, inbox, read);
      forall k | k in db'.inbox ensures OnRecord(db', db'.inbox[k]) {
        if k in db.inbox { OnRecordForever(db, db', db.inbox[k]); }
      }
    }
  }

  /** When a message id determines its data, a duplicate message always finds its transaction: the
      branch that acknowledges a duplicate without a persisted transaction is dead. */
  lemma DuplicateFindsRow(db: Db, t: TxRow, claim: Claim)
    requires Inv(db) && InboxOk(db) && NewRow(t)
    requires MessageOf(claim) in db.inbox && db.inbox[MessageOf(claim)] == t.hash
    ensures FreshRead(db, t, Some(claim)).Some? && FreshRead(db, t, Some(claim)).value.hash == t.hash
    ensures FreshRead(db, t, Some(claim)).value.id in db.txs
    ensures Wager(db, t, Some(claim)).Ok? && Wager(db, t, Some(claim)).value.0 == db
  {
    hide LedgerOk, WalletsOk, EventsOk;
    assert OnRecord(db, t.hash);
    FoundRow(db, ExtOf(t));
  }

  lemma {:induction false} InboxKept(db: Db, db': Db)
    requires InboxOk(db) && Evolves(db, db') && db'.inbox == db.inbox
    ensures InboxOk(db')
  {
    hide Evolves, OnRecord;
    forall k | k in db'.inbox ensures OnRecord(db', db'.inbox[k]) { OnRecordForever(db, db', db.inbox[k]); }
  }

  lemma ResolveInbox(db: Db, id: string, read: Option<TxRow>)
    requires ResolveStep(db, id, read).Ok?
    ensures ResolveStep(db, id, read).value.inbox == db.inbox
  {
    hide Run;
    if id in db.txs && db.txs[id].status == PendingReference {
      var row := db.txs[id];
      if read.None? || read.value.status != Processed {
        RunInboxUntouched(db, ShelveWrites(row, read));
      } else {
        var w := db.wallets[row.walletId];
        RunInboxUntouched(db, SettleWrites(row, w, CreditRow(w, row.money).value));
      }
    }
  }

  lemma OpenInbox(db: Db, w: WalletRow)
    requires Open(db, w).Ok?
    ensures Open(db, w).value.inbox == db.inbox
  {
    hide Run;
    RunInboxUntouched(db, OpenWrites(w));
  }

  lemma InvKeys(db: Db)
    requires Inv(db)
    ensures KeysOk(db)
  {
  }

  lemma EmptyOk()
    ensures Inv(EMPTY_DB) && InboxOk(EMPTY_DB)
  {
    InvEmpty();
  }
}
