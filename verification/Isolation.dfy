/** Why locks and unique keys isolate transactions: what one transaction owns, another's writes do not
    touch, so statements executed earlier still execute, with the same effect, on whatever has been
    committed since. */
module Isolation {
  import opened Amounts
  import opened Records
  import opened Tables
  import opened Interleaving

  /** What owning a resource means of the committed state: a key is still free, a locked row exists. */
  predicate OwnedOne(db: Db, r: Resource) {
    match r
    case TxLock(i) => i in db.txs
    case WalletLock(i) => i in db.wallets
    case _ => !Taken(db, r)
  }

  ghost predicate Owned(db: Db, held: set<Resource>) { forall r :: r in held ==> OwnedOne(db, r) }
  predicate OwnsTx(held: set<Resource>, id: string) { TxId(id) in held || TxLock(id) in held }
  predicate OwnsWallet(held: set<Resource>, id: string) { WalletId(id) in held || WalletLock(id) in held }

  /** The owner of a write's target may make the write. */
  predicate Covered(w: Write, held: set<Resource>) {
    match w
    case InsInbox(c) => InboxKey(MessageOf(c)) in held
    case InsWallet(r) => WalletId(r.id) in held && OwnerKey(OwnerOf(r)) in held
    case UpdWallet(r, _) => WalletLock(r.id) in held
    case InsTx(t) => TxId(t.id) in held && TxExt(ExtOf(t)) in held && TxKey(t.idemKey) in held
    case UpdTx(t) => TxLock(t.id) in held
    case InsEntry(e) => OwnsTx(held, e.txId) && e.id == "led_" + e.txId
    case InsEvent(_) => true
  }

  ghost predicate AllCovered(ws: seq<Write>, held: set<Resource>) {
    forall k :: 0 <= k < |ws| ==> Covered(ws[k], held)
  }

  /** Two owners that share no resource, nor a row under two of its resources. */
  ghost predicate Apart(mine: set<Resource>, theirs: set<Resource>) {
    && mine !! theirs
    && (forall i :: OwnsTx(mine, i) ==> !OwnsTx(theirs, i))
    && (forall i :: OwnsWallet(mine, i) ==> !OwnsWallet(theirs, i))
  }

  /** Owners of the same state that share no resource are apart: a key of a row that does not exist yet
      and a lock on that row cannot both be owned. */
  lemma DisjointApart(db: Db, mine: set<Resource>, theirs: set<Resource>)
    requires mine !! theirs && Owned(db, mine) && Owned(db, theirs)
    ensures Apart(mine, theirs)
  {
    forall i | OwnsTx(mine, i) ensures !OwnsTx(theirs, i) {
      assert TxId(i) in mine ==> OwnedOne(db, TxId(i));
      assert TxLock(i) in mine ==> OwnedOne(db, TxLock(i));
      assert TxId(i) in theirs ==> OwnedOne(db, TxId(i));
      assert TxLock(i) in theirs ==> OwnedOne(db, TxLock(i));
    }
    forall i | OwnsWallet(mine, i) ensures !OwnsWallet(theirs, i) {
      assert WalletId(i) in mine ==> OwnedOne(db, WalletId(i));
      assert WalletLock(i) in mine ==> OwnedOne(db, WalletLock(i));
      assert WalletId(i) in theirs ==> OwnedOne(db, WalletId(i));
      assert WalletLock(i) in theirs ==> OwnedOne(db, WalletLock(i));
    }
  }

  /** Two states in which everything in `held` looks the same. */
  ghost predicate AgreeRows(db: Db, db': Db, held: set<Resource>) {
    && (forall i :: OwnsTx(held, i) ==> (i in db.txs <==> i in db'.txs))
    && (forall i :: OwnsTx(held, i) && i in db.txs ==> db'.txs[i] == db.txs[i])
    && (forall i :: OwnsWallet(held, i) ==> (i in db.wallets <==> i in db'.wallets))
    && (forall i :: OwnsWallet(held, i) && i in db.wallets ==> db'.wallets[i] == db.wallets[i])
    && db.wallets.Keys <= db'.wallets.Keys && db.txs.Keys <= db'.txs.Keys
  }

  ghost predicate AgreeKeys(db: Db, db': Db, held: set<Resource>) {
    forall r :: r in held ==> (Taken(db, r) <==> Taken(db', r))
  }

  ghost predicate AgreeLedger(db: Db, db': Db, held: set<Resource>) {
    forall x :: x in db'.ledger && x !in db.ledger ==> !OwnsTx(held, x.txId) && x.id == "led_" + x.txId
  }

  ghost predicate Agree(db: Db, db': Db, held: set<Resource>) {
    AgreeRows(db, db', held) && AgreeKeys(db, db', held) && AgreeLedger(db, db', held)
  }

  // ---------- Another transaction's writes ----------

  lemma InsertFrames(db: Db, t: TxRow, mine: set<Resource>, theirs: set<Resource>)
    requires Check(db, InsTx(t)) == None && Covered(InsTx(t), mine) && Apart(mine, theirs) && Owned(db, theirs)
    ensures Agree(db, PutTx(db, t), theirs) && Owned(PutTx(db, t), theirs)
  {
    assert OwnsTx(mine, t.id);
    assert TxExt(ExtOf(t)) !in theirs && TxKey(t.idemKey) !in theirs;
  }

  lemma EntryFrames(db: Db, e: Entry, mine: set<Resource>, theirs: set<Resource>)
    requires Covered(InsEntry(e), mine) && Apart(mine, theirs) && Owned(db, theirs) && Check(db, InsEntry(e)) == None
    ensures Agree(db, Apply(db, InsEntry(e)), theirs) && Owned(Apply(db, InsEntry(e)), theirs)
  {
  }

  lemma UpdateKeepsKeys(db: Db, t: TxRow, held: set<Resource>)
    ensures AgreeKeys(db, Apply(db, UpdTx(t)), held) && AgreeLedger(db, Apply(db, UpdTx(t)), held)
  {
    assert Apply(db, UpdTx(t)).txs.Keys == db.txs.Keys;
  }

  lemma UpdateKeepsRows(db: Db, t: TxRow, held: set<Resource>)
    requires !OwnsTx(held, t.id)
    ensures AgreeRows(db, Apply(db, UpdTx(t)), held)
  {
  }

  lemma UpdateKeepsOwned(db: Db, t: TxRow, held: set<Resource>)
    requires Owned(db, held)
    ensures Owned(Apply(db, UpdTx(t)), held)
  {
    forall r | r in held ensures OwnedOne(Apply(db, UpdTx(t)), r) { assert OwnedOne(db, r); }
  }

  lemma UpdateFrames(db: Db, t: TxRow, mine: set<Resource>, theirs: set<Resource>)
    requires Covered(UpdTx(t), mine) && Apart(mine, theirs) && Owned(db, theirs)
    ensures Agree(db, Apply(db, UpdTx(t)), theirs) && Owned(Apply(db, UpdTx(t)), theirs)
  {
    hide AgreeRows, AgreeKeys, AgreeLedger, Owned, Apply;
    assert OwnsTx(mine, t.id);
    UpdateKeepsRows(db, t, theirs);
    UpdateKeepsOwned(db, t, theirs);
    UpdateKeepsKeys(db, t, theirs);
  }

  lemma NewWalletFrames(db: Db, r: WalletRow, mine: set<Resource>, theirs: set<Resource>)
    requires Check(db, InsWallet(r)) == None && Covered(InsWallet(r), mine) && Apart(mine, theirs) && Owned(db, theirs)
    ensures Agree(db, Apply(db, InsWallet(r)), theirs) && Owned(Apply(db, InsWallet(r)), theirs)
  {
    assert OwnsWallet(mine, r.id) && OwnerKey(OwnerOf(r)) !in theirs;
  }

  lemma WalletFrames(db: Db, r: WalletRow, expected: int64, mine: set<Resource>, theirs: set<Resource>)
    requires Check(db, UpdWallet(r, expected)) == None && Covered(UpdWallet(r, expected), mine) && Apart(mine, theirs) && Owned(db, theirs)
    ensures Agree(db, Apply(db, UpdWallet(r, expected)), theirs) && Owned(Apply(db, UpdWallet(r, expected)), theirs)
  {
    assert OwnsWallet(mine, r.id);
  }

  /** A write of the owner of `mine` changes nothing that the owner of `theirs` can see of its own. */
  lemma WriteFrames(db: Db, w: Write, mine: set<Resource>, theirs: set<Resource>)
    requires Check(db, w) == None && Covered(w, mine) && Apart(mine, theirs) && Owned(db, theirs)
    ensures Agree(db, Apply(db, w), theirs) && Owned(Apply(db, w), theirs)
  {
    match w {
      case InsTx(t) => InsertFrames(db, t, mine, theirs);
      case InsEntry(e) => EntryFrames(db, e, mine, theirs);
      case UpdTx(t) => UpdateFrames(db, t, mine, theirs);
      case InsWallet(r) => NewWalletFrames(db, r, mine, theirs);
      case UpdWallet(r, x) => WalletFrames(db, r, x, mine, theirs);
      case _ =>
    }
  }

  lemma AgreeTransitive(a: Db, b: Db, c: Db, held: set<Resource>)
    requires Agree(a, b, held) && Agree(b, c, held)
    ensures Agree(a, c, held)
  {
  }

  /** All writes of one transaction leave what another owns as it was. */
  lemma {:induction false} RunFrames(db: Db, ws: seq<Write>, mine: set<Resource>, theirs: set<Resource>)
    requires Run(db, ws).Ok? && AllCovered(ws, mine) && Apart(mine, theirs) && Owned(db, theirs)
    ensures Agree(db, Run(db, ws).value, theirs) && Owned(Run(db, ws).value, theirs)
  {
    if ws != [] {
      hide Agree, Owned, Apart, Covered, Check, Apply;
      var front := ws[..|ws| - 1];
      RunFrames(db, front, mine, theirs);
      var d := Run(db, front).value;
      WriteFrames(d, ws[|ws| - 1], mine, theirs);
      AgreeTransitive(db, d, Run(db, ws).value, theirs);
    }
  }

  // ---------- A transaction's own writes ----------

  lemma InsertChecks(db: Db, db': Db, t: TxRow, held: set<Resource>)
    requires AgreeKeys(db, db', held) && Covered(InsTx(t), held) && Check(db, InsTx(t)) == None
    requires db.wallets.Keys <= db'.wallets.Keys
    ensures Check(db', InsTx(t)) == None
  {
    assert Taken(db, TxId(t.id)) == Taken(db', TxId(t.id));
    assert Taken(db, TxExt(ExtOf(t))) == Taken(db', TxExt(ExtOf(t)));
    assert Taken(db, TxKey(t.idemKey)) == Taken(db', TxKey(t.idemKey));
  }

  lemma InsertAgreesRows(db: Db, db': Db, t: TxRow, held: set<Resource>)
    requires AgreeRows(db, db', held)
    ensures AgreeRows(PutTx(db, t), PutTx(db', t), held)
  {
  }

  lemma AgreeLedgerFrame(db: Db, db': Db, a: Db, a': Db, held: set<Resource>)
    requires AgreeLedger(db, db', held) && a.ledger == db.ledger && a'.ledger == db'.ledger
    ensures AgreeLedger(a, a', held)
  {
  }

  lemma InsertAgreesKeys(db: Db, db': Db, t: TxRow, held: set<Resource>)
    requires AgreeKeys(db, db', held)
    ensures AgreeKeys(PutTx(db, t), PutTx(db', t), held)
  {
    forall r | r in held ensures Taken(PutTx(db, t), r) <==> Taken(PutTx(db', t), r) {
      assert Taken(db, r) <==> Taken(db', r);
    }
  }

  lemma InsertAgrees(db: Db, db': Db, t: TxRow, held: set<Resource>)
    requires Agree(db, db', held) && Covered(InsTx(t), held) && Check(db, InsTx(t)) == None
    ensures Check(db', InsTx(t)) == None && Agree(PutTx(db, t), PutTx(db', t), held)
  {
    hide AgreeLedger;
    InsertAgreesKeys(db, db', t, held);
    InsertAgreesRows(db, db', t, held);
    AgreeLedgerFrame(db, db', PutTx(db, t), PutTx(db', t), held);
    InsertChecks(db, db', t, held);
  }

  lemma EntryAgrees(db: Db, db': Db, e: Entry, held: set<Resource>)
    requires Agree(db, db', held) && Covered(InsEntry(e), held) && Check(db, InsEntry(e)) == None
    ensures Check(db', InsEntry(e)) == None && Agree(Apply(db, InsEntry(e)), Apply(db', InsEntry(e)), held)
  {
    forall x | x in db'.ledger ensures x.id != e.id && !(x.walletId == e.walletId && x.txId == e.txId) {
      if x !in db.ledger { assert e.id[4..] == e.txId && x.id[4..] == x.txId; }
    }
  }

  lemma NewWalletAgreesKeys(db: Db, db': Db, r: WalletRow, held: set<Resource>)
    requires AgreeKeys(db, db', held)
    ensures AgreeKeys(Apply(db, InsWallet(r)), Apply(db', InsWallet(r)), held)
  {
    forall k | k in held ensures Taken(Apply(db, InsWallet(r)), k) <==> Taken(Apply(db', InsWallet(r)), k) {
      assert Taken(db, k) <==> Taken(db', k);
    }
  }

  lemma NewWalletAgreesRows(db: Db, db': Db, r: WalletRow, held: set<Resource>)
    requires AgreeRows(db, db', held)
    ensures AgreeRows(Apply(db, InsWallet(r)), Apply(db', InsWallet(r)), held)
  {
  }

  lemma NewWalletAgrees(db: Db, db': Db, r: WalletRow, held: set<Resource>)
    requires Agree(db, db', held) && Covered(InsWallet(r), held) && Check(db, InsWallet(r)) == None
    ensures Check(db', InsWallet(r)) == None && Agree(Apply(db, InsWallet(r)), Apply(db', InsWallet(r)), held)
  {
    hide AgreeLedger;
    assert Taken(db, OwnerKey(OwnerOf(r))) == Taken(db', OwnerKey(OwnerOf(r)));
    assert OwnsWallet(held, r.id);
    NewWalletAgreesKeys(db, db', r, held);
    NewWalletAgreesRows(db, db', r, held);
    AgreeLedgerFrame(db, db', Apply(db, InsWallet(r)), Apply(db', InsWallet(r)), held);
  }

  lemma WalletAgrees(db: Db, db': Db, r: WalletRow, expected: int64, held: set<Resource>)
    requires Agree(db, db', held) && Covered(UpdWallet(r, expected), held) && Check(db, UpdWallet(r, expected)) == None
    ensures Check(db', UpdWallet(r, expected)) == None
    ensures Agree(Apply(db, UpdWallet(r, expected)), Apply(db', UpdWallet(r, expected)), held)
  {
    assert OwnsWallet(held, r.id);
  }

  lemma UpdateAgreesRows(db: Db, db': Db, t: TxRow, held: set<Resource>)
    requires AgreeRows(db, db', held) && OwnsTx(held, t.id)
    ensures AgreeRows(Apply(db, UpdTx(t)), Apply(db', UpdTx(t)), held)
  {
  }

  lemma UpdateAgreesKeys(db: Db, db': Db, t: TxRow, held: set<Resource>)
    requires AgreeKeys(db, db', held) && (t.id in db.txs <==> t.id in db'.txs)
    ensures AgreeKeys(Apply(db, UpdTx(t)), Apply(db', UpdTx(t)), held)
  {
  }

  lemma UpdateAgrees(db: Db, db': Db, t: TxRow, held: set<Resource>)
    requires Agree(db, db', held) && Covered(UpdTx(t), held)
    ensures Agree(Apply(db, UpdTx(t)), Apply(db', UpdTx(t)), held)
  {
    hide AgreeKeys, AgreeLedger;
    assert OwnsTx(held, t.id);
    UpdateAgreesRows(db, db', t, held);
    UpdateAgreesKeys(db, db', t, held);
    AgreeLedgerFrame(db, db', Apply(db, UpdTx(t)), Apply(db', UpdTx(t)), held);
  }

  /** A covered write that executes on one state executes on an agreeing one, and they still agree. */
  lemma WriteAgrees(db: Db, db': Db, w: Write, held: set<Resource>)
    requires Agree(db, db', held) && Covered(w, held) && Check(db, w) == None
    ensures Check(db', w) == None && Agree(Apply(db, w), Apply(db', w), held)
  {
    match w {
      case InsTx(t) => InsertAgrees(db, db', t, held);
      case InsEntry(e) => EntryAgrees(db, db', e, held);
      case InsWallet(r) => NewWalletAgrees(db, db', r, held);
      case UpdWallet(r, x) => WalletAgrees(db, db', r, x, held);
      case UpdTx(t) => UpdateAgrees(db, db', t, held);
      case _ =>
    }
  }

  /** A transaction's writes so far still execute after anything that left what it owns as it was. */
  lemma {:induction false} RunAgrees(db: Db, db': Db, ws: seq<Write>, held: set<Resource>)
    requires Run(db, ws).Ok? && AllCovered(ws, held) && Agree(db, db', held)
    ensures Run(db', ws).Ok? && Agree(Run(db, ws).value, Run(db', ws).value, held)
  {
    if ws != [] {
      hide Agree, Covered, Check, Apply;
      var front := ws[..|ws| - 1];
      RunAgrees(db, db', front, held);
      WriteAgrees(Run(db, front).value, Run(db', front).value, ws[|ws| - 1], held);
    }
  }
}
