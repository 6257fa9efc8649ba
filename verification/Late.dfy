/** A reversal that arrives before its reference ends exactly as one that comes when it is settled, whatever
    else goes on in between. */
module Late {
  import opened Amounts
  import opened Records
  import opened Tables
  import opened Steps
  import opened Invariants
  import opened Preservation
  import opened Outcomes
  import opened OutOfOrder
  import opened Interleaving
  import opened Replay

  // ---------- The gap ----------

  predicate Names(t: TxRow, rev: TxRow) { IsReversal(t.kind) && RefOf(t) == ExtOf(rev) }

  ghost predicate NoneNames(db: Db, rev: TxRow) {
    forall i :: i in db.txs && db.txs[i].status == PendingReference ==> !Names(db.txs[i], rev)
  }

  /** `f` holds the parked reversal, its keys, its claim and its event besides what `d` holds, and in `d` it
      could still be submitted. */
  ghost predicate Gap(d: Db, f: Db, rev: TxRow, c: Option<Claim>) {
    Beside(WithInbox(d, c), f, Parked(rev)) && Enters(d, rev, c) && NoneNames(d, rev)
  }

  // ---------- Statements ----------

  predicate ForeignTx(t: TxRow, rev: TxRow) { Distinct(rev, t) && !Names(t, rev) }

  /** A statement that is about other transactions. */
  predicate Foreign(w: Write, rev: TxRow, c: Option<Claim>) {
    match w
    case InsInbox(claim) => DistinctClaims(c, Some(claim))
    case InsTx(t) => ForeignTx(t, rev)
    case UpdTx(t) => t.id != rev.id && t.status != PendingReference
    case InsEntry(e) => e.txId != rev.id
    case _ => true
  }

  ghost predicate AllForeign(ws: seq<Write>, rev: TxRow, c: Option<Claim>) {
    forall k :: 0 <= k < |ws| ==> Foreign(ws[k], rev, c)
  }

  lemma CheckBeside(d: Db, f: Db, rev: TxRow, c: Option<Claim>, w: Write)
    requires Gap(d, f, rev, c) && Foreign(w, rev, c)
    ensures Check(f, w) == Check(d, w)
  {
    hide NoneNames, EntryChecks, EntryFree;
  }

  lemma InsertBeside(d: Db, f: Db, rev: TxRow, c: Option<Claim>, t: TxRow)
    requires Beside(WithInbox(d, c), f, Parked(rev)) && Distinct(rev, t)
    ensures Beside(WithInbox(PutTx(d, t), c), PutTx(f, t), Parked(rev))
  {
    MapsCommute(d.txs, rev.id, Parked(rev), t.id, t);
    MapsCommute(d.byExt, ExtOf(rev), rev.id, ExtOf(t), t.id);
    MapsCommute(d.byKey, rev.idemKey, rev.id, t.idemKey, t.id);
  }

  lemma UpdateBeside(d: Db, f: Db, rev: TxRow, c: Option<Claim>, t: TxRow)
    requires Beside(WithInbox(d, c), f, Parked(rev)) && t.id != rev.id
    ensures Beside(WithInbox(Apply(d, UpdTx(t)), c), Apply(f, UpdTx(t)), Parked(rev))
  {
    if t.id in d.txs {
      MapsCommute(d.txs, rev.id, Parked(rev), t.id, d.txs[t.id].(status := t.status, failureCode := t.failureCode));
    }
  }

  lemma ClaimedBeside(d: Db, f: Db, rev: TxRow, c: Option<Claim>, claim: Claim)
    requires Beside(WithInbox(d, c), f, Parked(rev)) && DistinctClaims(c, Some(claim))
    ensures Beside(WithInbox(Apply(d, InsInbox(claim)), c), Apply(f, InsInbox(claim)), Parked(rev))
  {
    hide Beside;
    ClaimsCommute(d, c, Some(claim));
    ClaimBeside(WithInbox(d, c), f, Parked(rev), Some(claim));
  }

  lemma ClaimFirst(d: Db, c: Option<Claim>, w: Write)
    requires !w.InsInbox?
    ensures Apply(WithInbox(d, c), w) == WithInbox(Apply(d, w), c)
  {
  }

  lemma OthersBeside(d: Db, f: Db, rev: TxRow, w: Write)
    requires Beside(d, f, Parked(rev)) && !w.InsInbox? && !w.InsTx? && !w.UpdTx?
    ensures Beside(Apply(d, w), Apply(f, w), Parked(rev))
  {
    if w.InsEvent? {
      assert multiset(f.outbox + [w.event]) == multiset(f.outbox) + multiset{w.event};
      assert multiset(d.outbox + [w.event]) == multiset(d.outbox) + multiset{w.event};
    }
  }

  lemma RowsBeside(d: Db, f: Db, rev: TxRow, c: Option<Claim>, w: Write)
    requires Beside(WithInbox(d, c), f, Parked(rev)) && Foreign(w, rev, c)
    ensures Beside(WithInbox(Apply(d, w), c), Apply(f, w), Parked(rev))
  {
    hide PutTx, Beside, WithInbox, Distinct, DistinctClaims;
    match w {
      case InsInbox(claim) => ClaimedBeside(d, f, rev, c, claim);
      case InsTx(t) => InsertBeside(d, f, rev, c, t);
      case UpdTx(t) => UpdateBeside(d, f, rev, c, t);
      case _ =>
        ClaimFirst(d, c, w);
        OthersBeside(WithInbox(d, c), f, rev, w);
    }
  }

  lemma EntersBeside(d: Db, rev: TxRow, c: Option<Claim>, w: Write)
    requires Enters(d, rev, c) && NoneNames(d, rev) && Foreign(w, rev, c) && Check(d, w).None?
    ensures Enters(Apply(d, w), rev, c) && NoneNames(Apply(d, w), rev)
  {
    hide EntryChecks, EntryFree;
  }

  lemma {:induction false} RunBeside(d: Db, f: Db, rev: TxRow, c: Option<Claim>, ws: seq<Write>)
    requires Gap(d, f, rev, c) && AllForeign(ws, rev, c)
    ensures match Run(d, ws) case Err(e) => Run(f, ws) == Err(e) case Ok(d') => Run(f, ws).Ok? && Gap(d', Run(f, ws).value, rev, c)
  {
    hide Check, Apply, Foreign, Beside, Enters, NoneNames;
    if ws != [] {
      var front, w := ws[..|ws| - 1], ws[|ws| - 1];
      RunBeside(d, f, rev, c, front);
      if Run(d, front).Ok? {
        var d1, f1 := Run(d, front).value, Run(f, front).value;
        assert Foreign(w, rev, c);
        CheckBeside(d1, f1, rev, c, w);
        if Check(d1, w).None? {
          RowsBeside(d1, f1, rev, c, w);
          EntersBeside(d1, rev, c, w);
        }
      }
    }
  }

  // ---------- Use cases ----------

  predicate ForeignProgram(prog: Program, rev: TxRow, c: Option<Claim>) {
    match prog
    case Submit(t, inbox) => ForeignTx(t, rev) && DistinctClaims(c, inbox)
    case Settle(id) => id != rev.id
    case OpenUp(w) => w.balance.amount != 0 ==> Distinct(rev, OpeningTx(w))
  }

  /** The worker tried to resolve the parked reversal before its reference was there. */
  predicate Premature(d: Db, prog: Program, rev: TxRow) {
    prog == Settle(rev.id) && RefOf(rev) != ExtOf(rev) && FindByExternalId(d, RefOf(rev)).None?
  }

  lemma TablesBeside(d: Db, f: Db, rev: TxRow, c: Option<Claim>)
    requires Gap(d, f, rev, c)
    ensures f.wallets == d.wallets && f.txs == d.txs[rev.id := Parked(rev)]
    ensures f.byExt == d.byExt[ExtOf(rev) := rev.id] && f.byKey == d.byKey[rev.idemKey := rev.id]
    ensures rev.id !in d.txs && f.inbox == WithInbox(d, c).inbox
  {
    hide NoneNames;
  }

  lemma FindsBeside(d: Db, f: Db, rev: TxRow, c: Option<Claim>, key: (string, string), idemKey: string)
    requires Gap(d, f, rev, c) && KeysOk(d)
    ensures key != ExtOf(rev) ==> FindByExternalId(f, key) == FindByExternalId(d, key)
    ensures idemKey != rev.idemKey ==> FindByIdempotencyKey(f, idemKey) == FindByIdempotencyKey(d, idemKey)
  {
    hide Gap;
    TablesBeside(d, f, rev, c);
  }

  lemma LookupsBeside(d: Db, f: Db, rev: TxRow, c: Option<Claim>, t: TxRow, inbox: Option<Claim>)
    requires Gap(d, f, rev, c) && KeysOk(d) && ForeignTx(t, rev) && DistinctClaims(c, inbox)
    ensures Existing(f, t) == Existing(d, t) && FreshRead(f, t, inbox) == FreshRead(d, t, inbox)
    ensures f.wallets == d.wallets
    ensures forall row :: AnswerFrom(f, row) == AnswerFrom(d, row)
    ensures inbox.Some? ==> (MessageOf(inbox.value) in f.inbox <==> MessageOf(inbox.value) in d.inbox)
  {
    hide KeysOk, Gap, FindByExternalId, FindByIdempotencyKey;
    TablesBeside(d, f, rev, c);
    FindsBeside(d, f, rev, c, ExtOf(t), t.idemKey);
    FindsBeside(d, f, rev, c, RefOf(t), t.idemKey);
  }

  lemma MoveForeign(t: TxRow, w: WalletRow, w': WalletRow, dir: Direction, rev: TxRow, c: Option<Claim>)
    requires ForeignTx(t, rev)
    ensures AllForeign(MoveWrites(t, w, w', dir), rev, c)
  {
  }

  lemma PlanForeign(t: TxRow, w: WalletRow, read: Option<TxRow>, rev: TxRow, c: Option<Claim>)
    requires Decide(t, w, read).Plan? && ForeignTx(t, rev)
    ensures AllForeign(Decide(t, w, read).writes, rev, c)
  {
    hide DebitRow, CreditRow, MoveWrites;
    forall w', dir ensures AllForeign(MoveWrites(t, w, w', dir), rev, c) { MoveForeign(t, w, w', dir, rev, c); }
  }

  lemma InboxForeign(ws: seq<Write>, rev: TxRow, c: Option<Claim>, inbox: Option<Claim>)
    requires AllForeign(ws, rev, c) && DistinctClaims(c, inbox)
    ensures AllForeign(InboxWrites(inbox) + ws, rev, c)
  {
  }

  lemma NothingForeign(rev: TxRow, c: Option<Claim>)
    ensures AllForeign([], rev, c)
  {
  }

  lemma SubmitBeside(d: Db, f: Db, rev: TxRow, c: Option<Claim>, t: TxRow, inbox: Option<Claim>)
    requires Gap(d, f, rev, c) && KeysOk(d) && ForeignTx(t, rev) && DistinctClaims(c, inbox)
    ensures Gap(Do(d, Submit(t, inbox)), Do(f, Submit(t, inbox)), rev, c)
  {
    hide KeysOk, Gap, Run, Existing, Decide, AnswerFrom, FreshRead, ForeignTx, AllForeign, DistinctClaims, InboxWrites;
    LookupsBeside(d, f, rev, c, t, inbox);
    assert AllForeign([], rev, c) by { NothingForeign(rev, c); }
    InboxForeign([], rev, c, inbox);
    assert InboxWrites(inbox) + [] == InboxWrites(inbox);
    RunBeside(d, f, rev, c, InboxWrites(inbox));
    var read := FreshRead(d, t, inbox);
    if t.walletId in d.wallets && Decide(t, d.wallets[t.walletId], read).Plan? {
      var ws := Decide(t, d.wallets[t.walletId], read).writes;
      PlanForeign(t, d.wallets[t.walletId], read, rev, c);
      InboxForeign(ws, rev, c, inbox);
      RunBeside(d, f, rev, c, InboxWrites(inbox) + ws);
    }
  }

  lemma SettleForeign(row: TxRow, w: WalletRow, w': WalletRow, rev: TxRow, c: Option<Claim>)
    requires row.id != rev.id
    ensures AllForeign(SettleWrites(row, w, w'), rev, c)
  {
  }

  lemma ShelveForeign(row: TxRow, read: Option<TxRow>, rev: TxRow, c: Option<Claim>)
    requires row.id != rev.id && read.Some?
    ensures AllForeign(ShelveWrites(row, read), rev, c)
  {
  }

  lemma ParkingAgain(db: Db, id: string)
    requires id in db.txs && db.txs[id].id == id
    ensures Run(db, ShelveWrites(db.txs[id], None)) == Ok(db)
  {
    Run1(db, UpdTx(db.txs[id]));
    assert db.txs[id := db.txs[id]] == db.txs;
  }

  lemma SettleBeside(d: Db, f: Db, rev: TxRow, c: Option<Claim>, id: string)
    requires Gap(d, f, rev, c) && KeysOk(d) && RowsOk(d) && id != rev.id
    ensures Gap(Do(d, Settle(id)), Do(f, Settle(id)), rev, c)
  {
    hide KeysOk, Run, FindByExternalId, CreditRow, Beside, Enters, SettleWrites, ShelveWrites, AllForeign;
    TablesBeside(d, f, rev, c);
    if id in d.txs && d.txs[id].status == PendingReference {
      var row, read := d.txs[id], ReferenceOf(d, id);
      KeyedRow(d, id);
      assert RowOk(row) && !Names(row, rev);
      FindsBeside(d, f, rev, c, RefOf(row), row.idemKey);
      if read.None? {
        ParkingAgain(d, id);
        ParkingAgain(f, id);
      } else if read.value.status != Processed {
        ShelveForeign(row, read, rev, c);
        RunBeside(d, f, rev, c, ShelveWrites(row, read));
      } else if row.walletId in d.wallets && CreditRow(d.wallets[row.walletId], row.money).Ok? {
        var w := d.wallets[row.walletId];
        SettleForeign(row, w, CreditRow(w, row.money).value, rev, c);
        RunBeside(d, f, rev, c, SettleWrites(row, w, CreditRow(w, row.money).value));
      }
    }
  }

  lemma OpenForeign(w: WalletRow, rev: TxRow, c: Option<Claim>)
    requires w.balance.amount != 0 ==> Distinct(rev, OpeningTx(w))
    ensures AllForeign(OpenWrites(w), rev, c)
  {
  }

  lemma OpenBeside(d: Db, f: Db, rev: TxRow, c: Option<Claim>, w: WalletRow)
    requires Gap(d, f, rev, c) && (w.balance.amount != 0 ==> Distinct(rev, OpeningTx(w)))
    ensures Gap(Do(d, OpenUp(w)), Do(f, OpenUp(w)), rev, c)
  {
    hide Run, Gap, OpenWrites, AllForeign, Distinct;
    OpenForeign(w, rev, c);
    RunBeside(d, f, rev, c, OpenWrites(w));
  }

  /** A premature attempt changes nothing. */
  lemma PrematureIdle(d: Db, f: Db, rev: TxRow, c: Option<Claim>)
    requires Gap(d, f, rev, c) && KeysOk(d) && Premature(d, Settle(rev.id), rev)
    ensures Do(d, Settle(rev.id)) == d && Do(f, Settle(rev.id)) == f
  {
    hide KeysOk, FindByExternalId, Beside, NoneNames, Run, ShelveWrites;
    TablesBeside(d, f, rev, c);
    FindsBeside(d, f, rev, c, RefOf(rev), rev.idemKey);
    ParkingAgain(f, rev.id);
  }

  lemma DoBeside(d: Db, f: Db, rev: TxRow, c: Option<Claim>, prog: Program)
    requires Gap(d, f, rev, c) && Inv(d) && (ForeignProgram(prog, rev, c) || Premature(d, prog, rev))
    ensures Gap(Do(d, prog), Do(f, prog), rev, c)
  {
    hide Gap, RowsOk, LedgerOk, WalletsOk, EventsOk, KeysOk, Do, ForeignTx, DistinctClaims, Distinct;
    match prog {
      case Submit(t, inbox) => SubmitBeside(d, f, rev, c, t, inbox);
      case Settle(id) => if id == rev.id { PrematureIdle(d, f, rev, c); } else { SettleBeside(d, f, rev, c, id); }
      case OpenUp(w) => OpenBeside(d, f, rev, c, w);
    }
  }

  // ---------- Runs ----------

  /** A run between the parking and the settlement of a reversal. */
  ghost predicate Between(db: Db, progs: seq<Program>, rev: TxRow, c: Option<Claim>) {
    forall k :: 0 <= k < |progs| ==>
      ValidProgram(progs[k]) && (ForeignProgram(progs[k], rev, c) || Premature(PlayFrom(db, progs[..k]), progs[k], rev))
  }

  lemma DoKeepsInv(db: Db, prog: Program)
    requires Inv(db) && ValidProgram(prog)
    ensures Inv(Do(db, prog))
  {
    hide Inv, WagerStep, ResolveStep, FreshRead, ReferenceOf, NewRow;
    match prog {
      case Submit(t, inbox) => if Wager(db, t, inbox).Ok? { WagerKeeps(db, t, inbox, FreshRead(db, t, inbox)); }
      case Settle(id) => if Resolve(db, id).Ok? { ResolveKeeps(db, id, ReferenceOf(db, id)); }
      case OpenUp(w) => if Open(db, w).Ok? { OpenKeeps(db, w); }
    }
  }

  lemma {:induction false} PlayKeeps(db: Db, progs: seq<Program>)
    requires Inv(db) && forall k :: 0 <= k < |progs| ==> ValidProgram(progs[k])
    ensures Inv(PlayFrom(db, progs))
  {
    hide Inv, Do, ValidProgram;
    if progs != [] {
      PlayKeeps(db, progs[..|progs| - 1]);
      DoKeepsInv(PlayFrom(db, progs[..|progs| - 1]), progs[|progs| - 1]);
    }
  }

  lemma {:induction false} PlayBeside(d: Db, f: Db, rev: TxRow, c: Option<Claim>, progs: seq<Program>)
    requires Inv(d) && Gap(d, f, rev, c) && Between(d, progs, rev, c)
    ensures Gap(PlayFrom(d, progs), PlayFrom(f, progs), rev, c)
  {
    hide Inv, Gap, Do, ForeignProgram, Premature, ValidProgram;
    if progs != [] {
      var front, last := progs[..|progs| - 1], progs[|progs| - 1];
      forall k | 0 <= k < |front|
        ensures ValidProgram(front[k]) && (ForeignProgram(front[k], rev, c) || Premature(PlayFrom(d, front[..k]), front[k], rev))
      {
        assert front[..k] == progs[..k] && front[k] == progs[k];
      }
      PlayBeside(d, f, rev, c, front);
      PlayKeeps(d, front);
      DoBeside(PlayFrom(d, front), PlayFrom(f, front), rev, c, last);
    }
  }

  lemma ParkingOpensGap(db: Db, rev: TxRow, c: Option<Claim>)
    requires Inv(db) && NewRow(rev) && IsReversal(rev.kind) && NoneNames(db, rev)
    requires Recording(db, rev, c, PendingReference).Some?
    ensures Gap(db, Recording(db, rev, c, PendingReference).value, rev, c)
    ensures Inv(Recording(db, rev, c, PendingReference).value)
  {
    hide Inv, Recording, Recorded, WithInbox, Beside, NoneNames, Enters, FindByExternalId;
    ParkedWhen(db, rev, c);
    ParkBeside(WithInbox(db, c), Parked(rev));
    ParkKeeps(db, rev, c);
  }

  lemma OwnKey(d: Db, f: Db, rev: TxRow, c: Option<Claim>)
    requires Gap(d, f, rev, c)
    ensures FindByExternalId(d, ExtOf(rev)).None? && FindByExternalId(f, ExtOf(rev)) == Some(Parked(rev))
    ensures rev.id in f.txs && f.txs[rev.id] == Parked(rev)
  {
    hide NoneNames;
  }

  lemma GapCloses(d: Db, f: Db, rev: TxRow, c: Option<Claim>)
    requires Inv(d) && Inv(f) && Gap(d, f, rev, c) && NewRow(rev) && IsReversal(rev.kind)
    ensures var a, b := Recording(d, rev, c, Processed), Settling(f, rev.id);
            (a.Some? <==> b.Some?) && (a.Some? ==> SameOutcome(a.value, b.value, TxParked(rev.id)))
  {
    hide RowsOk, LedgerOk, WalletsOk, EventsOk, KeysOk, Recording, Settling, WithInbox, SameOutcome, CreditRow, Effect, SettleEffect,
         FindByExternalId, Beside, NoneNames, Fresh;
    TablesBeside(d, f, rev, c);
    FindsBeside(d, f, rev, c, RefOf(rev), rev.idemKey);
    ProcessedWhen(d, rev, c);
    SettledWhen(f, rev.id);
    OwnKey(d, f, rev, c);
    assert RefOf(Parked(rev)) == RefOf(rev);
    var w := d.wallets[rev.walletId];
    if Payable(rev, w, ReferenceRead(d, rev)) { SettleClosesGap(WithInbox(d, c), f, rev, w); }
  }

  /** A reversal that is parked, and settled after any other use cases have run, ends as one that is first
      submitted when it is settled - the one is settled exactly when the other is processed, and all that has
      happened in between is the same. The worker may have tried in vain before. */
  lemma LateIsOnTime(db: Db, rev: TxRow, c: Option<Claim>, progs: seq<Program>)
    requires Inv(db) && NewRow(rev) && IsReversal(rev.kind) && NoneNames(db, rev) && Between(db, progs, rev, c)
    requires Recording(db, rev, c, PendingReference).Some?
    ensures var parked := Recording(db, rev, c, PendingReference).value;
            var a, b := Recording(PlayFrom(db, progs), rev, c, Processed), Settling(PlayFrom(parked, progs), rev.id);
            (a.Some? <==> b.Some?) && (a.Some? ==> SameOutcome(a.value, b.value, TxParked(rev.id)))
  {
    hide Inv, Recording, Settling, SameOutcome, NoneNames, Gap, ValidProgram;
    ParkingOpensGap(db, rev, c);
    var parked := Recording(db, rev, c, PendingReference).value;
    PlayBeside(db, parked, rev, c, progs);
    PlayKeeps(db, progs);
    PlayKeeps(parked, progs);
    GapCloses(PlayFrom(db, progs), PlayFrom(parked, progs), rev, c);
  }
}
