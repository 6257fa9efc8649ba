/** A reversal that arrives before its reference ends exactly as one that arrives after it. */
module OutOfOrder {
  import opened Amounts
  import opened Records
  import opened Tables
  import opened Steps
  import opened Invariants
  import opened Preservation
  import opened Outcomes

  /** The reference, then the reversal: both are processed. */
  function InOrder(db: Db, ref: TxRow, rev: TxRow, refClaim: Option<Claim>, revClaim: Option<Claim>): Option<Db> {
    match Recording(db, ref, refClaim, Processed)
    case None => None
    case Some(d) => Recording(d, rev, revClaim, Processed)
  }

  function Settling(db: Db, id: string): Option<Db> {
    match Resolve(db, id)
    case Err(_) => None
    case Ok(d) => if id in d.txs && d.txs[id].status == Processed then Some(d) else None
  }

  /** The reversal, which is parked; the reference, which is processed; and the worker, which settles. */
  function ReversalFirst(db: Db, ref: TxRow, rev: TxRow, refClaim: Option<Claim>, revClaim: Option<Claim>): Option<Db> {
    match Recording(db, rev, revClaim, PendingReference)
    case None => None
    case Some(e) =>
      match Recording(e, ref, refClaim, Processed)
      case None => None
      case Some(e') => Settling(e', rev.id)
  }

  function SettleEffect(db: Db, row: TxRow, w: WalletRow): Db
    requires Changed(row, w).Ok?
  {
    var w' := Changed(row, w).value;
    var e := MoveEntry(row, w, w', Credit);
    Moved(db, row.(status := Processed), w', e, [TxProcessed(row.id), EventFor(e, row.money.currency, w'.version)])
  }

  /** When a parked reversal is settled, exactly. */
  lemma SettledWhen(db: Db, id: string)
    requires Inv(db) && id in db.txs && db.txs[id].status == PendingReference && IsReversal(db.txs[id].kind)
    ensures db.txs[id].walletId in db.wallets
    ensures var row := db.txs[id];
            var w := db.wallets[row.walletId];
            Settling(db, id) == if Payable(row, w, FindByExternalId(db, RefOf(row))) then Some(SettleEffect(db, row, w)) else None
  {
    hide KeysOk, RowsOk, LedgerOk, WalletsOk, EventsOk, Run, FindByExternalId, SettleWrites, ShelveWrites, CreditRow, Restated, EntryChecks;
    RowFacts(db, id);
    var row := db.txs[id];
    var w, read := db.wallets[row.walletId], FindByExternalId(db, RefOf(row));
    WalletFacts(db, row.walletId);
    if read.None? || read.value.status != Processed {
      ShelvePlanRuns(db, row, read);
    } else if CreditRow(w, row.money).Ok? {
      ChangedMoves(row, w);
      UnprocessedEntryNew(db, id);
      SettlePlanRuns(db, row, w, CreditRow(w, row.money).value);
    }
  }

  // ---------- The two orders ----------

  /** The two rows do not compete for a key. */
  predicate Distinct(t: TxRow, u: TxRow) { t.id != u.id && ExtOf(t) != ExtOf(u) && t.idemKey != u.idemKey }

  predicate DistinctClaims(a: Option<Claim>, b: Option<Claim>) { a.Some? && b.Some? ==> MessageOf(a.value) != MessageOf(b.value) }

  lemma EffectTables(db: Db, t: TxRow, w: WalletRow, c: Option<Claim>)
    requires Inv(db) && Enters(db, t, c) && w == db.wallets[t.walletId] && (t.kind != Loss ==> Changed(t, w).Ok?)
    ensures var d := Effect(WithInbox(db, c), t, w);
            && d.txs == db.txs[t.id := t.(status := Processed)] && d.byExt == db.byExt[ExtOf(t) := t.id]
            && d.byKey == db.byKey[t.idemKey := t.id] && d.inbox == WithInbox(db, c).inbox
            && d.wallets == if t.kind == Loss then db.wallets else db.wallets[t.walletId := Changed(t, w).value]
    ensures t.kind != Loss ==> Changed(t, w).value.playerId == w.playerId
  {
    hide KeysOk, RowsOk, LedgerOk, EventsOk, WalletsOk, DebitRow, CreditRow, Fresh;
    WalletFacts(db, t.walletId);
    if t.kind != Loss { ChangedMoves(t, w); }
  }

  lemma EntersAfterEffect(db: Db, t: TxRow, w: WalletRow, c: Option<Claim>, u: TxRow, d: Option<Claim>)
    requires Inv(db) && Enters(db, t, c) && w == db.wallets[t.walletId] && (t.kind != Loss ==> Changed(t, w).Ok?)
    ensures Enters(Effect(WithInbox(db, c), t, w), u, d) <==> Enters(db, u, d) && Distinct(t, u) && DistinctClaims(c, d)
  {
    hide Inv, Effect, Changed;
    EffectTables(db, t, w, c);
  }

  lemma EntersAfterPark(db: Db, t: TxRow, c: Option<Claim>, u: TxRow, d: Option<Claim>, evs: seq<Event>)
    requires Enters(db, t, c)
    ensures Enters(Recorded(WithInbox(db, c), t, evs), u, d) <==> Enters(db, u, d) && Distinct(t, u) && DistinctClaims(c, d)
  {
  }

  lemma FindsPut(db: Db, t: TxRow, key: (string, string))
    requires KeysOk(db) && Fresh(db, t)
    ensures FindByExternalId(PutTx(db, t), key) == if key == ExtOf(t) then Some(t) else FindByExternalId(db, key)
  {
  }

  lemma FindsSame(db: Db, db': Db, key: (string, string))
    requires db'.txs == db.txs && db'.byExt == db.byExt
    ensures FindByExternalId(db', key) == FindByExternalId(db, key)
  {
  }

  lemma FindsAfterEffect(db: Db, t: TxRow, w: WalletRow, c: Option<Claim>, key: (string, string))
    requires KeysOk(db) && Fresh(db, t) && (t.kind != Loss ==> Changed(t, w).Ok?)
    ensures FindByExternalId(Effect(WithInbox(db, c), t, w), key) ==
            if key == ExtOf(t) then Some(t.(status := Processed)) else FindByExternalId(db, key)
  {
    hide KeysOk, FindByExternalId, DebitRow, CreditRow;
    FindsPut(db, t.(status := Processed), key);
    FindsSame(PutTx(db, t.(status := Processed)), Effect(WithInbox(db, c), t, w), key);
  }

  lemma FindsAfterPark(db: Db, t: TxRow, c: Option<Claim>, evs: seq<Event>, key: (string, string))
    requires KeysOk(db) && Fresh(db, t)
    ensures FindByExternalId(Recorded(WithInbox(db, c), t, evs), key) == if key == ExtOf(t) then Some(t) else FindByExternalId(db, key)
  {
    hide KeysOk, FindByExternalId;
    FindsPut(db, t, key);
    FindsSame(PutTx(db, t), Recorded(WithInbox(db, c), t, evs), key);
  }

  function WalletAfter(db: Db, ref: TxRow, id: string): WalletRow
    requires ref.walletId in db.wallets && id in db.wallets
    requires Payable(ref, db.wallets[ref.walletId], ReferenceRead(db, ref))
  {
    if ref.kind != Loss && id == Changed(ref, db.wallets[ref.walletId]).value.id
    then Changed(ref, db.wallets[ref.walletId]).value else db.wallets[id]
  }

  /** The reversal can be credited once the reference has moved its money. */
  predicate PaysNext(db: Db, ref: TxRow, rev: TxRow)
    requires ref.walletId in db.wallets && rev.walletId in db.wallets
    requires Payable(ref, db.wallets[ref.walletId], ReferenceRead(db, ref))
  {
    var w := WalletAfter(db, ref, rev.walletId);
    CreditRow(w, rev.money).Ok? && w.version < MAX
  }

  /** What both orders come down to. */
  predicate BothPay(db: Db, ref: TxRow, rev: TxRow, refClaim: Option<Claim>, revClaim: Option<Claim>) {
    && Enters(db, ref, refClaim) && Enters(db, rev, revClaim) && Distinct(ref, rev) && DistinctClaims(refClaim, revClaim)
    && Payable(ref, db.wallets[ref.walletId], ReferenceRead(db, ref))
    && PaysNext(db, ref, rev)
  }

  function Both(db: Db, ref: TxRow, rev: TxRow, refClaim: Option<Claim>, revClaim: Option<Claim>): Option<Db>
    requires IsReversal(rev.kind)
  {
    if BothPay(db, ref, rev, refClaim, revClaim)
    then Some(Effect(WithInbox(Effect(WithInbox(db, refClaim), ref, db.wallets[ref.walletId]), revClaim), rev,
                     WalletAfter(db, ref, rev.walletId)))
    else None
  }

  lemma EntersWallet(db: Db, t: TxRow, c: Option<Claim>)
    ensures Enters(db, t, c) ==> t.walletId in db.wallets
  {
  }

  lemma EntersFree(db: Db, t: TxRow, c: Option<Claim>)
    requires Inv(db) && Enters(db, t, c)
    ensures KeysOk(db) && Fresh(db, t)
  {
  }

  lemma ProcessedKeeps(db: Db, t: TxRow, c: Option<Claim>)
    requires Inv(db) && NewRow(t) && Recording(db, t, c, Processed).Some?
    ensures Inv(Recording(db, t, c, Processed).value)
  {
    hide Inv, WagerStep;
    WagerKeeps(db, t, c, FreshRead(db, t, c));
  }

  lemma WalletsAfterEffect(db: Db, t: TxRow, c: Option<Claim>, id: string)
    requires t.walletId in db.wallets && id in db.wallets && Payable(t, db.wallets[t.walletId], ReferenceRead(db, t))
    ensures var d := Effect(WithInbox(db, c), t, db.wallets[t.walletId]);
            id in d.wallets && d.wallets[id] == WalletAfter(db, t, id)
  {
    hide DebitRow, CreditRow, FindByExternalId;
  }

  lemma InOrderWhen(db: Db, ref: TxRow, rev: TxRow, refClaim: Option<Claim>, revClaim: Option<Claim>)
    requires Inv(db) && NewRow(ref) && NewRow(rev) && IsReversal(rev.kind) && RefOf(rev) == ExtOf(ref)
    ensures InOrder(db, ref, rev, refClaim, revClaim) == Both(db, ref, rev, refClaim, revClaim)
  {
    hide Inv, Enters, Fresh, Recorded, PutTx, FindByExternalId, Recording, CreditRow, DebitRow, WithInbox;
    EntersWallet(db, ref, refClaim);
    EntersWallet(db, rev, revClaim);
    ProcessedWhen(db, ref, refClaim);
    if Recording(db, ref, refClaim, Processed).Some? {
      var w := db.wallets[ref.walletId];
      var d := Effect(WithInbox(db, refClaim), ref, w);
      ProcessedKeeps(db, ref, refClaim);
      ProcessedWhen(d, rev, revClaim);
      EntersAfterEffect(db, ref, w, refClaim, rev, revClaim);
      EntersFree(db, ref, refClaim);
      FindsAfterEffect(db, ref, w, refClaim, RefOf(rev));
      if rev.walletId in db.wallets { WalletsAfterEffect(db, ref, refClaim, rev.walletId); }
      EntersWallet(d, rev, revClaim);
    }
  }

  function Parked(t: TxRow): TxRow { t.(status := PendingReference) }

  function AfterPark(db: Db, rev: TxRow, c: Option<Claim>): Db {
    Recorded(WithInbox(db, c), Parked(rev), [TxParked(rev.id)])
  }

  lemma ParkKeeps(db: Db, rev: TxRow, c: Option<Claim>)
    requires Inv(db) && NewRow(rev) && IsReversal(rev.kind) && Enters(db, rev, c)
    ensures Inv(AfterPark(db, rev, c))
  {
    hide KeysOk, RowsOk, LedgerOk, EventsOk, WalletsOk;
    ClaimKeeps(db, rev, c);
    RecordKeeps(WithInbox(db, c), Parked(rev), [TxParked(rev.id)]);
  }

  /** Parking neither enables nor disables the reference. */
  lemma PayableAfterPark(db: Db, ref: TxRow, rev: TxRow, c: Option<Claim>)
    requires Inv(db) && Enters(db, rev, c) && ref.walletId in db.wallets
    ensures var e, w := AfterPark(db, rev, c), db.wallets[ref.walletId];
            Payable(ref, w, ReferenceRead(e, ref)) == Payable(ref, w, ReferenceRead(db, ref))
  {
    hide Inv, Changed;
    EntersFree(db, rev, c);
    FindsAfterPark(db, Parked(rev), c, [TxParked(rev.id)], RefOf(ref));
  }

  lemma ReferenceUnknown(db: Db, ref: TxRow, rev: TxRow, c: Option<Claim>)
    requires Enters(db, ref, c) && RefOf(rev) == ExtOf(ref)
    ensures FindByExternalId(db, RefOf(rev)).None?
  {
  }

  lemma WalletIdsOk(db: Db, id: string)
    requires Inv(db) && id in db.wallets
    ensures db.wallets[id].id == id
  {
    hide Inv;
    WalletFacts(db, id);
  }

  lemma ChangedKeepsId(t: TxRow, w: WalletRow)
    ensures Changed(t, w).Ok? ==> Changed(t, w).value.id == w.id
  {
  }

  /** What the worker finds once the reference has been processed beside the parked reversal. */
  lemma ReadyToSettle(db: Db, ref: TxRow, rev: TxRow, c: Option<Claim>, e: Db, e': Db)
    requires Inv(e) && NewRow(ref) && Recording(e, ref, c, Processed) == Some(e') && ref.id != rev.id && RefOf(rev) == ExtOf(ref)
    requires e.wallets == db.wallets && rev.id in e.txs && e.txs[rev.id] == Parked(rev)
    ensures Inv(e') && rev.id in e'.txs && e'.txs[rev.id] == Parked(rev)
    ensures FindByExternalId(e', RefOf(rev)) == Some(ref.(status := Processed))
    ensures rev.walletId in db.wallets ==> rev.walletId in e'.wallets
    ensures ref.walletId in db.wallets && Payable(ref, db.wallets[ref.walletId], ReferenceRead(db, ref)) && rev.walletId in db.wallets ==>
              e'.wallets[rev.walletId] == WalletAfter(db, ref, rev.walletId)
  {
    hide Inv, FindByExternalId, Recording, CreditRow, DebitRow, WithInbox, Effect, Settling, ReferenceRead, Fresh;
    ProcessedWhen(e, ref, c);
    EntersWallet(e, ref, c);
    var w := e.wallets[ref.walletId];
    EffectTables(e, ref, w, c);
    ProcessedKeeps(e, ref, c);
    EntersFree(e, ref, c);
    FindsAfterEffect(e, ref, w, c, RefOf(rev));
    ChangedKeepsId(ref, w);
    WalletIdsOk(e, ref.walletId);
  }

  lemma ParkTables(db: Db, rev: TxRow, c: Option<Claim>)
    ensures var e := AfterPark(db, rev, c); e.txs == db.txs[rev.id := Parked(rev)] && e.wallets == db.wallets && e.ledger == db.ledger
  {
  }

  function BothLate(db: Db, ref: TxRow, rev: TxRow, refClaim: Option<Claim>, revClaim: Option<Claim>): Option<Db>
    requires IsReversal(rev.kind)
  {
    if BothPay(db, ref, rev, refClaim, revClaim)
    then Some(SettleEffect(Effect(WithInbox(AfterPark(db, rev, revClaim), refClaim), ref, db.wallets[ref.walletId]), Parked(rev),
                           WalletAfter(db, ref, rev.walletId)))
    else None
  }

  lemma EntersOnceParked(db: Db, t: TxRow, c: Option<Claim>, u: TxRow, d: Option<Claim>)
    requires Enters(db, t, c)
    ensures Enters(AfterPark(db, t, c), u, d) <==> Enters(db, u, d) && Distinct(u, t) && DistinctClaims(d, c)
  {
    hide Recorded;
    EntersAfterPark(db, Parked(t), c, u, d, [TxParked(t.id)]);
  }

  lemma ReversalFirstWhen(db: Db, ref: TxRow, rev: TxRow, refClaim: Option<Claim>, revClaim: Option<Claim>)
    requires Inv(db) && NewRow(ref) && NewRow(rev) && IsReversal(rev.kind) && RefOf(rev) == ExtOf(ref)
    ensures ReversalFirst(db, ref, rev, refClaim, revClaim) == BothLate(db, ref, rev, refClaim, revClaim)
  {
    hide Inv, Enters, Recorded, FindByExternalId, Recording, Settling, CreditRow, DebitRow, WithInbox, Effect,
         SettleEffect, ReferenceRead, WalletAfter;
    EntersWallet(db, ref, refClaim);
    EntersWallet(db, rev, revClaim);
    ParkedWhen(db, rev, revClaim);
    if Enters(db, ref, refClaim) { ReferenceUnknown(db, ref, rev, refClaim); }
    if Recording(db, rev, revClaim, PendingReference).Some? {
      var e := AfterPark(db, rev, revClaim);
      ParkKeeps(db, rev, revClaim);
      ParkTables(db, rev, revClaim);
      EntersOnceParked(db, rev, revClaim, ref, refClaim);
      EntersWallet(e, ref, refClaim);
      ProcessedWhen(e, ref, refClaim);
      if ref.walletId in db.wallets { PayableAfterPark(db, ref, rev, revClaim); }
      if Recording(e, ref, refClaim, Processed).Some? {
        var e' := Recording(e, ref, refClaim, Processed).value;
        ReadyToSettle(db, ref, rev, refClaim, e, e');
        SettledWhen(e', rev.id);
      }
    }
  }

  /** The two orders leave the same wallets, versions, ledger, transactions, keys and inbox; the events
      are the same, in another order, and one more tells of the parking. */
  predicate SameOutcome(a: Db, b: Db, parked: Event) {
    b == a.(outbox := b.outbox) && multiset(b.outbox) == multiset(a.outbox) + multiset{parked}
  }

  lemma ClaimsCommute(db: Db, c: Option<Claim>, d: Option<Claim>)
    requires DistinctClaims(c, d)
    ensures WithInbox(WithInbox(db, c), d) == WithInbox(WithInbox(db, d), c)
  {
    if c.Some? && d.Some? {
      assert db.inbox[MessageOf(c.value) := c.value.payload][MessageOf(d.value) := d.value.payload] ==
             db.inbox[MessageOf(d.value) := d.value.payload][MessageOf(c.value) := c.value.payload];
    }
  }

  /** `f` holds the parked row, and its event, besides what `d` holds. */
  predicate Beside(d: Db, f: Db, row: TxRow) {
    && f.wallets == d.wallets && f.byOwner == d.byOwner && f.ledger == d.ledger && f.inbox == d.inbox
    && f.txs == d.txs[row.id := row] && f.byExt == d.byExt[ExtOf(row) := row.id] && f.byKey == d.byKey[row.idemKey := row.id]
    && multiset(f.outbox) == multiset(d.outbox) + multiset{TxParked(row.id)}
  }

  lemma MapsCommute<K, V>(m: map<K, V>, j: K, a: V, k: K, b: V)
    ensures j != k ==> m[j := a][k := b] == m[k := b][j := a]
  {
  }

  lemma PutBeside(d: Db, f: Db, row: TxRow, t: TxRow, evs: seq<Event>)
    requires Beside(d, f, row) && Distinct(row, t)
    ensures Beside(Recorded(d, t, evs), Recorded(f, t, evs), row)
  {
    MapsCommute(d.txs, row.id, row, t.id, t);
    MapsCommute(d.byExt, ExtOf(row), row.id, ExtOf(t), t.id);
    MapsCommute(d.byKey, row.idemKey, row.id, t.idemKey, t.id);
    assert multiset(f.outbox + evs) == multiset(f.outbox) + multiset(evs);
    assert multiset(d.outbox + evs) == multiset(d.outbox) + multiset(evs);
  }

  lemma MovedBeside(d: Db, f: Db, row: TxRow, t: TxRow, w': WalletRow, e: Entry, evs: seq<Event>)
    requires Beside(d, f, row) && Distinct(row, t)
    ensures Beside(Moved(d, t, w', e, evs), Moved(f, t, w', e, evs), row)
  {
    hide Distinct;
    PutBeside(d, f, row, t, evs);
  }

  lemma DistinctStatus(row: TxRow, t: TxRow)
    ensures Distinct(row, t) ==> Distinct(row, t.(status := Processed))
  {
  }

  lemma EffectBeside(d: Db, f: Db, row: TxRow, t: TxRow, w: WalletRow)
    requires Beside(d, f, row) && Distinct(row, t) && (t.kind != Loss ==> Changed(t, w).Ok?)
    ensures Beside(Effect(d, t, w), Effect(f, t, w), row)
  {
    hide Distinct, Beside, Changed, Moved, Recorded;
    var done := TxProcessed(t.id);
    DistinctStatus(row, t);
    if t.kind == Loss {
      PutBeside(d, f, row, t.(status := Processed), [done]);
    } else {
      var w' := Changed(t, w).value;
      var e := MoveEntry(t, w, w', DirectionOf(t));
      MovedBeside(d, f, row, t.(status := Processed), w', e, [EventFor(e, t.money.currency, w'.version), done]);
    }
  }

  lemma ClaimBeside(d: Db, f: Db, row: TxRow, c: Option<Claim>)
    requires Beside(d, f, row)
    ensures Beside(WithInbox(d, c), WithInbox(f, c), row)
  {
  }

  lemma EffectThenClaim(db: Db, t: TxRow, w: WalletRow, c: Option<Claim>)
    requires t.kind != Loss ==> Changed(t, w).Ok?
    ensures WithInbox(Effect(db, t, w), c) == Effect(WithInbox(db, c), t, w)
  {
    hide Changed;
  }

  lemma ParkBeside(db: Db, row: TxRow)
    ensures Beside(db, Recorded(db, row, [TxParked(row.id)]), row)
  {
  }

  lemma SwappedEvents(a: seq<Event>, b: seq<Event>, parked: Event, x: Event, y: Event)
    requires multiset(b) == multiset(a) + multiset{parked}
    ensures multiset(b + [y, x]) == multiset(a + [x, y]) + multiset{parked}
  {
  }

  /** Processing the parked row closes the gap. */
  lemma SettleClosesGap(d: Db, f: Db, rev: TxRow, w: WalletRow)
    requires Beside(d, f, Parked(rev)) && IsReversal(rev.kind) && Changed(rev, w).Ok?
    ensures SameOutcome(Effect(d, rev, w), SettleEffect(f, Parked(rev), w), TxParked(rev.id))
  {
    hide CreditRow, DebitRow, EventFor;
    var a, b := Effect(d, rev, w), SettleEffect(f, Parked(rev), w);
    var row := rev.(status := Processed);
    assert f.txs[rev.id := row] == d.txs[rev.id := row];
    assert f.byExt[ExtOf(rev) := rev.id] == d.byExt[ExtOf(rev) := rev.id];
    assert f.byKey[rev.idemKey := rev.id] == d.byKey[rev.idemKey := rev.id];
    SwappedEvents(d.outbox, f.outbox, TxParked(rev.id), a.outbox[|d.outbox|], a.outbox[|d.outbox| + 1]);
  }

  lemma SameTables(db: Db, ref: TxRow, rev: TxRow, refClaim: Option<Claim>, revClaim: Option<Claim>)
    requires Inv(db) && IsReversal(rev.kind) && BothPay(db, ref, rev, refClaim, revClaim)
    ensures SameOutcome(Both(db, ref, rev, refClaim, revClaim).value, BothLate(db, ref, rev, refClaim, revClaim).value, TxParked(rev.id))
  {
    hide Inv, Enters, WithInbox, CreditRow, DebitRow, Effect, SettleEffect, Recorded, SameOutcome, Beside, ReferenceRead, WalletAfter;
    EntersWallet(db, ref, refClaim);
    EntersWallet(db, rev, revClaim);
    var w, v := db.wallets[ref.walletId], WalletAfter(db, ref, rev.walletId);
    var base := WithInbox(db, revClaim);
    var e := AfterPark(db, rev, revClaim);
    ParkBeside(base, Parked(rev));
    ClaimBeside(base, e, Parked(rev), refClaim);
    EffectBeside(WithInbox(base, refClaim), WithInbox(e, refClaim), Parked(rev), ref, w);
    ClaimsCommute(db, refClaim, revClaim);
    EffectThenClaim(WithInbox(db, refClaim), ref, w, revClaim);
    SettleClosesGap(WithInbox(Effect(WithInbox(db, refClaim), ref, w), revClaim), Effect(WithInbox(e, refClaim), ref, w), rev, v);
  }

  /** Out of order equals in order: a reversal that is parked, and settled once its reference has been
      processed, ends as one that comes after its reference - and the one run succeeds exactly when the
      other does. */
  lemma ReversalFirstIsInOrder(db: Db, ref: TxRow, rev: TxRow, refClaim: Option<Claim>, revClaim: Option<Claim>)
    requires Inv(db) && NewRow(ref) && NewRow(rev) && IsReversal(rev.kind) && RefOf(rev) == ExtOf(ref)
    ensures var a, b := InOrder(db, ref, rev, refClaim, revClaim), ReversalFirst(db, ref, rev, refClaim, revClaim);
            (a.Some? <==> b.Some?) && (a.Some? ==> SameOutcome(a.value, b.value, TxParked(rev.id)))
  {
    hide Inv, InOrder, ReversalFirst, BothPay, Effect, SettleEffect, SameOutcome, WithInbox, AfterPark;
    InOrderWhen(db, ref, rev, refClaim, revClaim);
    ReversalFirstWhen(db, ref, rev, refClaim, revClaim);
    if BothPay(db, ref, rev, refClaim, revClaim) { SameTables(db, ref, rev, refClaim, revClaim); }
  }
}
