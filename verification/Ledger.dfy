/** The books of every reachable state. */
module Ledger {
  import opened Amounts
  import opened Records
  import opened Tables
  import opened Invariants
  import opened Preservation
  import opened Evolution
  import opened Interleaving
  import opened Refinement
  import opened Histories
  import opened Reconciliation

  /** How many entries are not openings. */
  function NonOpening(txs: TxTable, es: seq<Entry>): nat {
    if es == [] then 0 else NonOpening(txs, es[..|es| - 1]) + if IsOpening(txs, es[|es| - 1]) then 0 else 1
  }

  lemma {:induction false} NonOpeningCount(txs: TxTable, es: seq<Entry>)
    requires forall k :: 0 < k < |es| ==> !IsOpening(txs, es[k])
    ensures NonOpening(txs, es) == |es| - Offset(txs, es)
  {
    if es != [] { NonOpeningCount(txs, es[..|es| - 1]); }
  }

  lemma MirrorsChain(txs: TxTable, es: seq<Entry>, cs: seq<Event>, w: WalletRow)
    requires Mirrors(txs, es, cs, w)
    ensures es != [] ==> es[0].before == 0 && es[|es| - 1].after == w.balance.amount
    ensures es == [] ==> w.balance.amount == 0
    ensures forall k :: 0 <= k < |es| ==> EntryChecks(es[k])
    ensures forall k :: 0 < k < |es| ==> es[k].before == es[k - 1].after && !IsOpening(txs, es[k])
    ensures w.version as int == 1 + NonOpening(txs, es)
  {
    NonOpeningCount(txs, es);
  }

  /** In every state of every run the ledger of a wallet is a chain: it starts from nothing, each entry
      takes up where the one before it ended, the last one ends in the stored balance, no entry but the
      first is an opening, and the version is one more than the number of the others. */
  lemma LedgerIsChain(s: Sys, n: nat, id: string)
    requires SysOk(s) && n < |s.hist| && id in s.hist[n].wallets
    ensures var db := s.hist[n];
            var es, w := EntriesOf(db.ledger, id), db.wallets[id];
            && (if es == [] then w.balance.amount == 0 else es[0].before == 0 && es[|es| - 1].after == w.balance.amount)
            && (forall k :: 0 <= k < |es| ==> es[k].walletId == id && EntryChecks(es[k]))
            && (forall k :: 0 < k < |es| ==> es[k].before == es[k - 1].after && !IsOpening(db.txs, es[k]))
            && w.version as int == 1 + NonOpening(db.txs, es)
  {
    hide SysOk, InboxOk, KeysOk, RowsOk, LedgerOk, EventsOk, Mirrors, EntryChecks, IsOpening;
    StateOk(s, n);
    var db := s.hist[n];
    var es := EntriesOf(db.ledger, id);
    WalletFacts(db, id);
    assert WalletOk(db.txs, db.ledger, db.outbox, db.wallets[id]);
    MirrorsChain(db.txs, es, ChangesOf(db.outbox, id), db.wallets[id]);
    EntriesOfMembers(db.ledger, id);
    forall k | 0 <= k < |es| ensures es[k].walletId == id { assert es[k] in es; }
  }

  /** The chain only grows at its end. */
  lemma LedgerOnlyGrows(s: Sys, i: nat, j: nat, id: string)
    requires SysOk(s) && i <= j < |s.hist|
    ensures s.hist[i].ledger <= s.hist[j].ledger && EntriesOf(s.hist[i].ledger, id) <= EntriesOf(s.hist[j].ledger, id)
  {
    hide SysOk, Evolves;
    StatesEvolve(s, i, j);
    LedgerGrows(s.hist[i], s.hist[j]);
    var a, b := s.hist[i].ledger, s.hist[j].ledger;
    assert a + b[|a|..] == b;
    EntriesAppend(a, b[|a|..], id);
  }

  /** The number of an event never changes its meaning: only committed events have one. */
  lemma EventNumbersStay(s: Sys, i: nat, j: nat, k: nat)
    requires SysOk(s) && i <= j < |s.hist| && k < |s.hist[i].outbox|
    ensures k < |s.hist[j].outbox| && s.hist[j].outbox[k] == s.hist[i].outbox[k]
  {
    hide SysOk, TablesEvolve, IndexesEvolve;
    StatesEvolve(s, i, j);
  }

  /** In every run, in every committed state, the balance of each wallet is the signed sum of its
      entries, and it is never negative. */
  lemma EveryRunBalances(moves: seq<Move>, n: nat, id: string)
    requires After(moves).Some? && n < |After(moves).value.hist| && id in After(moves).value.hist[n].wallets
    ensures var db := After(moves).value.hist[n];
            db.wallets[id].balance.amount as int == Sum(EntriesOf(db.ledger, id)) >= 0
  {
    hide SysOk, After, Inv, InboxOk;
    EveryRunRefines(moves);
    StateOk(After(moves).value, n);
    Conservation(After(moves).value.hist[n], id);
  }

  lemma {:induction false} ProcessedZero(outbox: seq<Event>, id: string)
    requires CountProcessed(outbox, id) == 0
    ensures forall k :: 0 <= k < |outbox| ==> outbox[k] != TxProcessed(id)
  {
    if outbox != [] { ProcessedZero(outbox[..|outbox| - 1], id); }
  }

  lemma {:induction false} ProcessedOne(outbox: seq<Event>, id: string) returns (k: nat)
    requires CountProcessed(outbox, id) == 1
    ensures k < |outbox| && outbox[k] == TxProcessed(id)
    ensures forall j :: 0 <= j < |outbox| && outbox[j] == TxProcessed(id) ==> j == k
  {
    var front := outbox[..|outbox| - 1];
    if outbox[|outbox| - 1] == TxProcessed(id) {
      ProcessedZero(front, id);
      k := |outbox| - 1;
    } else {
      k := ProcessedOne(front, id);
      assert outbox[k] == front[k];
    }
  }

  /** One event announces each processed transaction that is not an opening, and none any other. */
  lemma OneProcessedEvent(db: Db, id: string)
    requires Inv(db) && id in db.txs
    ensures var announced := db.txs[id].status == Processed && db.txs[id].kind != Opening;
            (announced ==> exists k :: 0 <= k < |db.outbox| && db.outbox[k] == TxProcessed(id)
                                       && forall j :: 0 <= j < |db.outbox| && db.outbox[j] == TxProcessed(id) ==> j == k)
            && (!announced ==> TxProcessed(id) !in db.outbox)
  {
    hide KeysOk, RowsOk, LedgerOk, WalletsOk;
    assert ProcessedFits(db.txs, db.outbox, id);
    if db.txs[id].status == Processed && db.txs[id].kind != Opening {
      var _ := ProcessedOne(db.outbox, id);
    } else {
      ProcessedZero(db.outbox, id);
    }
  }

  /** With commits between the two lookups a submission can find its row by idempotency key alone: a row
      with an equal hash is then its own, under its own provider and external id. */
  lemma ReplayByKeyIsOwn(s: Sys, n: nat, t: TxRow)
    requires SysOk(s) && n < |s.hist| && NewRow(t)
    requires FindByIdempotencyKey(s.hist[n], t.idemKey).Some? && FindByIdempotencyKey(s.hist[n], t.idemKey).value.hash == t.hash
    ensures var row := FindByIdempotencyKey(s.hist[n], t.idemKey).value;
            ExtOf(row) == ExtOf(t) && row.walletId == t.walletId && row.money == t.money && row.kind == t.kind
            && FindByExternalId(s.hist[n], ExtOf(t)) == Some(row)
  {
    hide SysOk, InboxOk, KeysOk, RowsOk, LedgerOk, WalletsOk, EventsOk;
    StateOk(s, n);
    var row := FindByIdempotencyKey(s.hist[n], t.idemKey).value;
    FoundByKey(s.hist[n], t.idemKey);
    RowFacts(s.hist[n], row.id);
    EqualHashes(row, t);
  }
}
