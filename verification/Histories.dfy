/** What the committed states of a run say about each other: settled matters stay settled, keys stay
    bound, money moves once, and references are paid before the reversals that name them. */
module Histories {
  import opened Amounts
  import opened Records
  import opened Tables
  import opened Steps
  import opened Invariants
  import opened Preservation
  import opened Evolution
  import opened Interleaving
  import opened Knowledge
  import opened Refinement

  lemma LogStep(s: Sys, i: nat)
    requires SysOk(s) && i + 1 < |s.hist|
    ensures i < |s.log| && ValidProgram(s.log[i].prog) && Atomic(s.hist[i], s.log[i], s.hist[i + 1])
  {
    hide HistOk, ProcOk, Atomic, ReadInTime, ValidProgram;
  }

  lemma NotEmpty(hist: seq<Db>)
    requires HistOk(hist)
    ensures hist != []
  {
  }

  lemma Start(s: Sys)
    requires SysOk(s)
    ensures s.hist != [] && s.hist[0] == EMPTY_DB
  {
    hide HistOk, LogOk, ProcOk;
    assert HistOk(s.hist);
    NotEmpty(s.hist);
  }

  lemma {:induction false} StateOk(s: Sys, i: nat)
    requires SysOk(s) && i < |s.hist|
    ensures Inv(s.hist[i]) && InboxOk(s.hist[i])
  {
    hide SysOk, Inv, InboxOk, Atomic, Evolves;
    if i == 0 {
      Start(s);
      EmptyOk();
    } else {
      StateOk(s, i - 1);
      LogStep(s, i - 1);
      AtomicKeeps(s.hist[i - 1], s.log[i - 1], s.hist[i]);
    }
  }

  lemma {:induction false} StatesEvolve(s: Sys, i: nat, j: nat)
    requires SysOk(s) && i <= j < |s.hist|
    ensures Evolves(s.hist[i], s.hist[j])
  {
    hide SysOk, Inv, InboxOk, Atomic, Evolves;
    if i == j {
      EvolvesReflexive(s.hist[i]);
    } else {
      StatesEvolve(s, i, j - 1);
      StateOk(s, j - 1);
      LogStep(s, j - 1);
      AtomicKeeps(s.hist[j - 1], s.log[j - 1], s.hist[j]);
      EvolvesTransitive(s.hist[i], s.hist[j - 1], s.hist[j]);
    }
  }

  // ---------- Settled matters ----------

  /** Only parked, processed and rejected rows are ever committed, and of those only a parked one ever
      changes again, although the UPDATE of a status is not guarded. */
  lemma TerminalForever(s: Sys, i: nat, j: nat, id: string)
    requires SysOk(s) && i <= j < |s.hist| && id in s.hist[i].txs
    ensures id in s.hist[j].txs && RowEvolves(s.hist[i].txs[id], s.hist[j].txs[id])
    ensures s.hist[i].txs[id].status in {PendingReference, Processed, Rejected}
    ensures s.hist[i].txs[id].status != PendingReference ==> s.hist[j].txs[id] == s.hist[i].txs[id]
  {
    hide SysOk, InboxOk, KeysOk, LedgerOk, WalletsOk, EventsOk;
    StatesEvolve(s, i, j);
    StateOk(s, i);
    assert RowOk(s.hist[i].txs[id]);
  }

  lemma FoundEvolves(db: Db, db': Db, key: (string, string))
    requires Evolves(db, db') && FindByExternalId(db, key).Some?
    ensures FindByExternalId(db', key).Some?
    ensures RowEvolves(FindByExternalId(db, key).value, FindByExternalId(db', key).value)
  {
  }

  lemma ExtStaysBound(db: Db, db': Db, key: (string, string))
    requires Inv(db) && Evolves(db, db') && FindByExternalId(db, key).Some?
    ensures FindByExternalId(db', key).Some?
    ensures var row, row' := FindByExternalId(db, key).value, FindByExternalId(db', key).value;
            row'.id == row.id && row'.hash == row.hash && (row'.hash.providerId, row'.hash.externalId) == key
  {
    hide KeysOk, RowsOk, LedgerOk, WalletsOk, EventsOk, Evolves;
    FoundRow(db, key);
    RowFacts(db, FindByExternalId(db, key).value.id);
    FoundEvolves(db, db', key);
  }

  /** An external id is bound to one row and one payload for ever. */
  lemma ExternalIdBound(s: Sys, i: nat, j: nat, key: (string, string))
    requires SysOk(s) && i <= j < |s.hist| && FindByExternalId(s.hist[i], key).Some?
    ensures FindByExternalId(s.hist[j], key).Some?
    ensures var row, row' := FindByExternalId(s.hist[i], key).value, FindByExternalId(s.hist[j], key).value;
            row'.id == row.id && row'.hash == row.hash && (row'.hash.providerId, row'.hash.externalId) == key
  {
    hide SysOk, InboxOk, Inv, Evolves;
    StatesEvolve(s, i, j);
    StateOk(s, i);
    ExtStaysBound(s.hist[i], s.hist[j], key);
  }

  lemma KeyEvolves(db: Db, db': Db, key: string)
    requires Evolves(db, db') && FindByIdempotencyKey(db, key).Some?
    ensures FindByIdempotencyKey(db', key).Some?
    ensures RowEvolves(FindByIdempotencyKey(db, key).value, FindByIdempotencyKey(db', key).value)
  {
  }

  lemma KeyStaysBound(db: Db, db': Db, key: string)
    requires Inv(db) && Inv(db') && Evolves(db, db') && FindByIdempotencyKey(db, key).Some?
    ensures FindByIdempotencyKey(db', key).Some?
    ensures var row, row' := FindByIdempotencyKey(db, key).value, FindByIdempotencyKey(db', key).value;
            row'.id == row.id && row'.hash == row.hash && row'.idemKey == key
  {
    hide KeysOk, RowsOk, LedgerOk, WalletsOk, EventsOk, Evolves;
    KeyEvolves(db, db', key);
    FoundByKey(db', key);
  }

  /** So is an idempotency key. */
  lemma IdempotencyKeyBound(s: Sys, i: nat, j: nat, key: string)
    requires SysOk(s) && i <= j < |s.hist| && FindByIdempotencyKey(s.hist[i], key).Some?
    ensures FindByIdempotencyKey(s.hist[j], key).Some?
    ensures var row, row' := FindByIdempotencyKey(s.hist[i], key).value, FindByIdempotencyKey(s.hist[j], key).value;
            row'.id == row.id && row'.hash == row.hash && row'.idemKey == key
  {
    hide SysOk, InboxOk, Inv, Evolves;
    StatesEvolve(s, i, j);
    StateOk(s, i);
    StateOk(s, j);
    KeyStaysBound(s.hist[i], s.hist[j], key);
  }

  // ---------- Money moves once ----------

  predicate EntryBetween(db: Db, db': Db, id: string, k: int) {
    |db.ledger| <= k < |db'.ledger| && db'.ledger[k].txId == id
  }

  /** The step from `db` to `db'` writes a ledger entry for the transaction. */
  ghost predicate WritesEntry(db: Db, db': Db, id: string) { exists k :: EntryBetween(db, db', id, k) }

  lemma EntryHasRow(db: Db, k: nat)
    requires Inv(db) && k < |db.ledger|
    ensures db.ledger[k].txId in db.txs
  {
    assert db.ledger[k] in db.ledger;
    assert EntryMatches(db.txs, db.ledger[k]);
  }

  lemma EntryUnique(db: Db, a: nat, b: nat)
    requires Inv(db) && a < |db.ledger| && b < |db.ledger| && db.ledger[a].txId == db.ledger[b].txId
    ensures a == b
  {
    hide Inv;
    EntryHasRow(db, b);
    OneEntryPerMovement(db, db.ledger[b].txId);
    assert db.ledger[b] in db.ledger;
  }

  lemma NoSecondEntry(db: Db, db': Db, id: string, a: nat)
    requires Inv(db') && a < |db.ledger| && a < |db'.ledger| && db'.ledger[a].txId == id
    ensures !WritesEntry(db, db', id)
  {
    hide Inv;
    if WritesEntry(db, db', id) {
      var b :| EntryBetween(db, db', id, b);
      EntryUnique(db', a, b);
    }
  }

  /** At most one commit of a whole run moves money for a transaction, however many workers resolve it
      and however often it is submitted. */
  lemma MovesMoneyOnce(s: Sys, i: nat, j: nat, id: string)
    requires SysOk(s) && i < j && j + 1 < |s.hist| && WritesEntry(s.hist[i], s.hist[i + 1], id)
    ensures !WritesEntry(s.hist[j], s.hist[j + 1], id)
  {
    hide SysOk, InboxOk, Inv;
    StatesEvolve(s, i + 1, j);
    StatesEvolve(s, j, j + 1);
    StateOk(s, j + 1);
    var a: int :| EntryBetween(s.hist[i], s.hist[i + 1], id, a);
    assert s.hist[j].ledger[a] == s.hist[i + 1].ledger[a] && s.hist[j + 1].ledger[a] == s.hist[j].ledger[a];
    NoSecondEntry(s.hist[j], s.hist[j + 1], id, a);
  }

  // ---------- References ----------

  predicate IsProcessed(db: Db, id: string) { id in db.txs && db.txs[id].status == Processed }
  predicate PaidReversal(db: Db, id: string) { IsProcessed(db, id) && IsReversal(db.txs[id].kind) }

  /** The reference is on record as processed. */
  predicate ReferencePaid(db: Db, t: TxRow) {
    var ref := FindByExternalId(db, RefOf(t));
    ref.Some? && ref.value.status == Processed
  }

  lemma ApplyTxsUntouched(db: Db, w: Write)
    requires !w.InsTx? && !w.UpdTx?
    ensures Apply(db, w).txs == db.txs
  {
  }

  lemma {:induction false} RunTxsUntouched(db: Db, ws: seq<Write>)
    requires Run(db, ws).Ok? && forall k :: 0 <= k < |ws| ==> !ws[k].InsTx? && !ws[k].UpdTx?
    ensures Run(db, ws).value.txs == db.txs
  {
    hide Check, Apply;
    if ws != [] {
      RunTxsUntouched(db, ws[..|ws| - 1]);
      ApplyTxsUntouched(Run(db, ws[..|ws| - 1]).value, ws[|ws| - 1]);
    }
  }

  /** A list that starts with a row and then leaves the rows alone changes that row only. */
  lemma OneRowChanges(db: Db, ws: seq<Write>)
    requires Run(db, ws).Ok? && ws != [] && (ws[0].InsTx? || ws[0].UpdTx?)
    requires forall k :: 0 < k < |ws| ==> !ws[k].InsTx? && !ws[k].UpdTx?
    ensures Run(db, ws).value.txs == Apply(db, ws[0]).txs
  {
    hide Check, Apply;
    RunCons(db, ws[0], ws[1..]);
    assert [ws[0]] + ws[1..] == ws;
    RunTxsUntouched(Apply(db, ws[0]), ws[1..]);
  }

  lemma ProcessedNeedsReference(t: TxRow, w: WalletRow, read: Option<TxRow>)
    requires IsReversal(t.kind) && t.status == Pending && Decide(t, w, read).Plan?
    ensures var ws := Decide(t, w, read).writes;
            ws != [] && ws[0].InsTx? && (ws[0].tx.status == Processed ==> read.Some? && read.value.status == Processed)
  {
    hide CreditRow;
  }

  lemma SubmitPays(db: Db, t: TxRow, inbox: Option<Claim>, read: Option<TxRow>, id: string)
    requires NewRow(t) && WagerStep(db, t, inbox, read).Ok? && Earlier(read, FreshRead(db, t, inbox))
    requires var db' := WagerStep(db, t, inbox, read).value.0; PaidReversal(db', id) && !IsProcessed(db, id)
    ensures ReferencePaid(db, WagerStep(db, t, inbox, read).value.0.txs[id])
  {
    hide Decide, Run, Check, Existing, FindByExternalId, AnswerFrom;
    var db' := WagerStep(db, t, inbox, read).value.0;
    if !(inbox.Some? && MessageOf(inbox.value) in db.inbox) {
      var db1 := WithInbox(db, inbox);
      if Existing(db, t).Absent? {
        var w := db.wallets[t.walletId];
        var ws := Decide(t, w, read).writes;
        RunInbox(db, inbox, ws);
        PlanShape(t, w, read);
        OneRowChanges(db1, ws);
        assert id == t.id;
        ProcessedNeedsReference(t, w, read);
      } else {
        RunInbox(db, inbox, []);
      }
    }
  }

  lemma SettlePays(db: Db, row: string, read: Option<TxRow>, id: string)
    requires KeysOk(db) && ResolveStep(db, row, read).Ok? && Earlier(read, ReferenceOf(db, row))
    requires var db' := ResolveStep(db, row, read).value; PaidReversal(db', id) && !IsProcessed(db, id)
    ensures ReferencePaid(db, ResolveStep(db, row, read).value.txs[id])
  {
    hide Run, Check, FindByExternalId, CreditRow, KeysOk;
    KeyedRow(db, row);
    if row in db.txs && db.txs[row].status == PendingReference {
      var t := db.txs[row];
      if read.None? || read.value.status != Processed {
        OneRowChanges(db, ShelveWrites(t, read));
      } else {
        var w := db.wallets[t.walletId];
        OneRowChanges(db, SettleWrites(t, w, CreditRow(w, t.money).value));
        assert id == row;
      }
    }
  }

  lemma OpenPaysNone(db: Db, w: WalletRow, id: string)
    requires Open(db, w).Ok? && PaidReversal(Open(db, w).value, id)
    ensures IsProcessed(db, id)
  {
    hide Open;
    OpenEffect(db, w);
  }

  /** The step that processes a reversal finds its reference processed. */
  lemma AtomicPays(db: Db, op: Op, db': Db, id: string)
    requires Inv(db) && ValidProgram(op.prog) && Atomic(db, op, db') && PaidReversal(db', id) && !IsProcessed(db, id)
    ensures ReferencePaid(db, db'.txs[id])
  {
    hide WagerStep, ResolveStep, Open, ReferencePaid, Earlier, FreshRead, ReferenceOf, KeysOk, RowsOk, LedgerOk, WalletsOk, EventsOk;
    match op.prog {
      case Submit(t, inbox) => SubmitPays(db, t, inbox, op.basis.read, id);
      case Settle(row) => if !op.basis.Idle? { SettlePays(db, row, op.basis.read, id); }
      case OpenUp(w) => OpenPaysNone(db, w, id);
    }
  }

  /** The number of the commit that processed the row. */
  function Moment(hist: seq<Db>, id: string, j: nat): (i: nat)
    requires j < |hist| && IsProcessed(hist[j], id)
    ensures i <= j && IsProcessed(hist[i], id) && (i > 0 ==> !IsProcessed(hist[i - 1], id))
  {
    if j > 0 && IsProcessed(hist[j - 1], id) then Moment(hist, id, j - 1) else j
  }

  /** There is only one such commit. */
  lemma {:induction false} MomentUnique(s: Sys, id: string, i: nat, j: nat)
    requires SysOk(s) && i <= j < |s.hist| && IsProcessed(s.hist[i], id)
    ensures IsProcessed(s.hist[j], id) && Moment(s.hist, id, j) == Moment(s.hist, id, i)
  {
    hide SysOk;
    TerminalForever(s, i, j, id);
    if i < j {
      TerminalForever(s, i, j - 1, id);
      MomentUnique(s, id, i, j - 1);
    }
  }

  /** The row that a processed reversal names. */
  predicate Refers(db: Db, a: string, b: string) {
    PaidReversal(db, a) && FindByExternalId(db, RefOf(db.txs[a])).Some? && FindByExternalId(db, RefOf(db.txs[a])).value.id == b
  }

  lemma MomentAfterStart(s: Sys, id: string, i: nat)
    requires SysOk(s) && i < |s.hist| && IsProcessed(s.hist[i], id)
    ensures i > 0
  {
    hide SysOk;
    Start(s);
  }

  lemma Found(db: Db, key: (string, string))
    requires Inv(db) && FindByExternalId(db, key).Some?
    ensures var row := FindByExternalId(db, key).value; ExtOf(row) == key && row.id in db.txs && db.txs[row.id] == row
  {
    hide RowsOk, LedgerOk, WalletsOk, EventsOk;
    FoundRow(db, key);
  }

  /** A processed REFUND or ROLLBACK names a processed row of the same provider, which was processed by
      a strictly earlier commit. */
  lemma ReferenceProcessedBefore(s: Sys, n: nat, id: string) returns (ref: string)
    requires SysOk(s) && n < |s.hist| && PaidReversal(s.hist[n], id)
    ensures Refers(s.hist[n], id, ref) && IsProcessed(s.hist[n], ref)
    ensures s.hist[n].txs[ref].providerId == s.hist[n].txs[id].providerId
    ensures Moment(s.hist, ref, n) < Moment(s.hist, id, n)
  {
    hide SysOk, InboxOk, Inv, Atomic, ValidProgram;
    var i := Moment(s.hist, id, n);
    MomentAfterStart(s, id, i);
    StateOk(s, i - 1);
    LogStep(s, i - 1);
    TerminalForever(s, i, n, id);
    AtomicPays(s.hist[i - 1], s.log[i - 1], s.hist[i], id);
    var key := RefOf(s.hist[n].txs[id]);
    ref := FindByExternalId(s.hist[i - 1], key).value.id;
    Found(s.hist[i - 1], key);
    ExternalIdBound(s, i - 1, n, key);
    StateOk(s, n);
    Found(s.hist[n], key);
    MomentUnique(s, ref, i - 1, n);
  }

  predicate RefPath(db: Db, path: seq<string>) {
    path != [] && forall k :: 0 <= k < |path| - 1 ==> Refers(db, path[k], path[k + 1])
  }

  lemma PrefixPath(db: Db, path: seq<string>, front: seq<string>)
    requires RefPath(db, path) && |path| >= 2 && front == path[..|path| - 1]
    ensures RefPath(db, front)
  {
    hide Refers;
    forall k | 0 <= k < |front| - 1 ensures Refers(db, front[k], front[k + 1]) { assert Refers(db, path[k], path[k + 1]); }
  }

  lemma {:induction false} PathGoesBack(s: Sys, n: nat, path: seq<string>)
    requires SysOk(s) && n < |s.hist| && |path| >= 2 && RefPath(s.hist[n], path)
    ensures IsProcessed(s.hist[n], path[0]) && IsProcessed(s.hist[n], path[|path| - 1])
    ensures Moment(s.hist, path[|path| - 1], n) < Moment(s.hist, path[0], n)
  {
    hide SysOk, FindByExternalId;
    var front := path[..|path| - 1];
    var k := |front| - 1;
    assert Refers(s.hist[n], path[k], path[k + 1]);
    var ref := ReferenceProcessedBefore(s, n, path[k]);
    if k > 0 {
      PrefixPath(s.hist[n], path, front);
      PathGoesBack(s, n, front);
    }
  }

  /** Self-references and mutual cycles never pay out: no chain of references between processed rows
      comes back to where it began. */
  lemma NoReferenceCycle(s: Sys, n: nat, path: seq<string>)
    requires SysOk(s) && n < |s.hist| && |path| >= 2 && RefPath(s.hist[n], path)
    ensures path[|path| - 1] != path[0]
  {
    hide SysOk, RefPath;
    PathGoesBack(s, n, path);
  }

  /** Every chain of references from a processed row ends at a processed row that is not a reversal. */
  lemma {:induction false} ReferencesEnd(s: Sys, n: nat, id: string) returns (path: seq<string>)
    requires SysOk(s) && n < |s.hist| && IsProcessed(s.hist[n], id)
    ensures RefPath(s.hist[n], path) && path[0] == id
    ensures var last := path[|path| - 1]; IsProcessed(s.hist[n], last) && !IsReversal(s.hist[n].txs[last].kind)
    decreases Moment(s.hist, id, n)
  {
    hide SysOk, FindByExternalId;
    path := [id];
    if PaidReversal(s.hist[n], id) {
      var ref := ReferenceProcessedBefore(s, n, id);
      var rest := ReferencesEnd(s, n, ref);
      path := [id] + rest;
    }
  }
}
