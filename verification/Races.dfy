/** What a stale read does in a run: the two ways in which a concurrent run differs from every serial one,
    and a reconciliation that fails on sound books. */
module Races {
  import opened Amounts
  import opened Records
  import opened Tables
  import opened Steps
  import opened Invariants
  import opened Preservation
  import opened Evolution
  import opened Outcomes
  import opened OutOfOrder
  import opened Interleaving
  import opened Knowledge
  import opened Refinement
  import opened Histories
  import opened Solo
  import opened Slack
  import opened Reconciliation
  import opened Schedules

  /** An empty wallet, and a new one besides what there is. */
  predicate Openable(db: Db, w: WalletRow) {
    NewWallet(w) && w.balance.amount == 0 && w.id !in db.wallets && OwnerOf(w) !in db.byOwner
  }

  lemma OpensEmpty(db: Db, w: WalletRow)
    requires Openable(db, w)
    ensures Open(db, w) == Ok(WithWallet(db, w))
  {
    Run1(db, InsWallet(w));
  }

  /** The transaction is of the wallet's player. */
  predicate Of(t: TxRow, w: WalletRow) { t.walletId == w.id && t.playerId == w.playerId && t.money.currency == w.balance.currency }

  // ---------- Parked beside its reference ----------

  /** A reversal on wallet `a`, and the loss on wallet `b` that it names. */
  predicate ParkingCast(a: WalletRow, b: WalletRow, ref: TxRow, rev: TxRow) {
    && Openable(EMPTY_DB, a) && Openable(WithWallet(EMPTY_DB, a), b)
    && NewRow(ref) && ref.kind == Loss && Of(ref, b)
    && NewRow(rev) && IsReversal(rev.kind) && Of(rev, a) && RefOf(rev) == ExtOf(ref) && Distinct(ref, rev)
  }

  lemma OpenableIsNew(db: Db, w: WalletRow)
    requires Openable(db, w)
    ensures NewWallet(w)
  {
  }

  lemma OneWallet(a: WalletRow) returns (moves: seq<Move>)
    requires Openable(EMPTY_DB, a)
    ensures After(moves).Some?
    ensures var s := After(moves).value;
            s.hist == [EMPTY_DB, WithWallet(EMPTY_DB, a)] && |s.log| == 1 && AllIdle(s) && s.procs.Keys == {0}
  {
    hide Open, WithWallet, Openable;
    OpensEmpty(EMPTY_DB, a);
    OpenableIsNew(EMPTY_DB, a);
    moves := OpensWhole([], 0, a);
  }

  lemma TwoWallets(a: WalletRow, b: WalletRow) returns (moves: seq<Move>)
    requires Openable(EMPTY_DB, a) && Openable(WithWallet(EMPTY_DB, a), b)
    ensures After(moves).Some?
    ensures var s := After(moves).value;
            s.hist == [EMPTY_DB, WithWallet(EMPTY_DB, a), WithWallet(WithWallet(EMPTY_DB, a), b)] && |s.log| == 2
            && AllIdle(s) && s.procs.Keys == {0, 1}
  {
    hide Open, WithWallet, Openable;
    moves := OneWallet(a);
    var s := After(moves).value;
    OpensEmpty(Current(s), b);
    OpenableIsNew(Current(s), b);
    moves := OpensWhole(moves, 1, b);
  }

  lemma InsertRunsKeysFree(db: Db, t: TxRow)
    requires Fresh(db, t)
    ensures var keys := KeysOf(InsTx(t.(status := PendingReference))); forall k :: 0 <= k < |keys| ==> !Taken(db, keys[k])
  {
  }

  /** The plan to park, carried out beside the reference. */
  lemma ParksBeside(now: nat, db: Db, t: TxRow, w: WalletRow, since: nat, n: nat)
    requires NewRow(t) && KeysOk(db) && Fresh(db, t) && t.walletId in db.wallets && n >= 12
    ensures var p := Reader(t, ParkPc(t, w, since), {WalletLock(t.walletId)}, since);
            Alone(now, db, p, n) == Committed(Recorded(db, Parked(t), [TxParked(t.id)]), p.pc.basis)
  {
    hide Alone, Run, KeysOk, Recorded;
    var p := Reader(t, ParkPc(t, w, since), {WalletLock(t.walletId)}, since);
    var parked := t.(status := PendingReference, failureCode := "");
    RunNothing(db);
    RecordPlanRuns(db, parked, TxParked(t.id));
    InsertRunsKeysFree(db, t);
    InsertRuns(now, db, p, n);
  }

  /** Where the reference is processed while the reversal, which has missed it, is about to be parked. */
  lemma ParkingTables(a: WalletRow, b: WalletRow, ref: TxRow, rev: TxRow) returns (paid: Db)
    requires ParkingCast(a, b, ref, rev)
    ensures var db := WithWallet(WithWallet(EMPTY_DB, a), b);
            && a.id != b.id && db.wallets[a.id] == a && Enters(db, rev, None) && FindByExternalId(db, RefOf(rev)).None?
            && Recording(db, ref, None, Processed) == Option.Some(paid)
            && Fresh(paid, rev) && rev.walletId in paid.wallets
            && FindByExternalId(paid, RefOf(rev)) == Option.Some(ref.(status := Processed))
  {
    hide KeysOk, RowsOk, LedgerOk, WalletsOk, EventsOk, Recording;
    var db := WithWallet(WithWallet(EMPTY_DB, a), b);
    InvEmpty();
    OpenEmptyKeeps(EMPTY_DB, a);
    OpenEmptyKeeps(WithWallet(EMPTY_DB, a), b);
    ProcessedWhen(db, ref, None);
    paid := Effect(db, ref, b);
  }

  /** Only process `q` holds anything, and that is no matter to the submission. */
  lemma SubmitIsClear(s: Sys, pid: nat, t: TxRow, q: nat, r: Resource)
    requires forall k :: k in s.procs && k != q ==> s.procs[k].held == {}
    requires q in s.procs && s.procs[q].held == {r} && Elsewhere(r, Submit(t, None), t.walletId)
    ensures Clear(s, pid, Submit(t, None), t.walletId)
  {
  }

  lemma IdleBut(s: Sys, pid: nat, t: TxRow)
    requires forall k :: k in s.procs && k != pid ==> s.procs[k].held == {}
    ensures Clear(s, pid, Submit(t, None), t.walletId)
  {
  }

  lemma RecordingIsWager(db: Db, t: TxRow, inbox: Option<Claim>, status: Status)
    requires Recording(db, t, inbox, status).Some?
    ensures Wager(db, t, inbox).Ok? && Wager(db, t, inbox).value.0 == Recording(db, t, inbox, status).value
  {
    hide Wager;
  }

  /** A commit that parks beside a reference that is there is not what an undisturbed step would do. */
  lemma ParkingIsDisturbed(s: Sys, i: nat)
    requires SysOk(s) && i < |s.log| && i + 1 < |s.hist| && s.log[i].prog.Submit? && IsReversal(s.log[i].prog.t.kind)
    requires s.log[i].basis.Decided? && s.log[i].basis.read.None? && s.log[i].prog.inbox.None?
    requires ReferencePaid(s.hist[i], s.log[i].prog.t) && Existing(s.hist[i], s.log[i].prog.t).Absent?
    ensures !Undisturbed(s.hist[i], s.log[i], s.hist[i + 1])
  {
    hide SysOk, Inv, InboxOk, Atomic, Undisturbed, ValidProgram, Existing, FindByExternalId;
    StateOk(s, i);
    LogStep(s, i);
    UndisturbedWhen(s.hist[i], s.log[i], s.hist[i + 1]);
  }

  /** The run up to the point where the reversal has missed its reference and the reference is there. */
  lemma ReferenceOvertakes(a: WalletRow, b: WalletRow, ref: TxRow, rev: TxRow, paid: Db) returns (moves: seq<Move>)
    requires ParkingCast(a, b, ref, rev)
    requires var db := WithWallet(WithWallet(EMPTY_DB, a), b);
             a.id != b.id && db.wallets[a.id] == a && Enters(db, rev, None) && FindByExternalId(db, RefOf(rev)).None?
             && Recording(db, ref, None, Processed) == Option.Some(paid)
    ensures After(moves).Some?
    ensures var s := After(moves).value;
            && |s.hist| == 4 && |s.log| == 3 && s.hist[3] == paid && 2 in s.procs
            && s.procs[2] == Reader(rev, ParkPc(rev, a, 2), {WalletLock(a.id)}, 2)
            && forall k :: k in s.procs && k != 2 ==> s.procs[k].held == {}
  {
    hide After, KeysOk, WithWallet, Recording, ParkPc, FindByExternalId, Enters, Wager, Clear, NewRow;
    var db := WithWallet(WithWallet(EMPTY_DB, a), b);
    moves := TwoWallets(a, b);
    moves := StopsBeforeParking(moves, 2, rev);
    var s2 := After(moves).value;
    SubmitIsClear(s2, 3, ref, 2, WalletLock(rev.walletId));
    RecordingIsWager(db, ref, None, Processed);
    var basis: Basis;
    moves, basis := SubmitsWhole(moves, 3, ref, None);
  }

  lemma CastRows(a: WalletRow, b: WalletRow, ref: TxRow, rev: TxRow)
    requires ParkingCast(a, b, ref, rev)
    ensures NewRow(rev) && NewRow(ref)
  {
  }

  /** A reversal is parked although its reference is on record as processed: for any two empty wallets, any
      reversal on the one and any loss on the other that it names, there is a run that does so. */
  lemma ParkedBesideItsReference(a: WalletRow, b: WalletRow, ref: TxRow, rev: TxRow) returns (moves: seq<Move>, i: nat)
    requires ParkingCast(a, b, ref, rev)
    ensures After(moves).Some?
    ensures var s := After(moves).value;
            && i < |s.log| && i + 1 < |s.hist| && s.log[i].prog == Submit(rev, None)
            && ReferencePaid(s.hist[i], rev) && IsIn(s.hist[i + 1], rev.id, PendingReference)
            && !Undisturbed(s.hist[i], s.log[i], s.hist[i + 1])
  {
    hide After, KeysOk, WithWallet, Recording, FindByExternalId, Clear, Alone, Existing, SysOk, Undisturbed, NewRow;
    var paid := ParkingTables(a, b, ref, rev);
    moves := ReferenceOvertakes(a, b, ref, rev, paid);
    var s := After(moves).value;
    CurrentOk(moves);
    CastRows(a, b, ref, rev);
    ParksBeside(3, paid, rev, a, 2, 24);
    IdleBut(s, 2, rev);
    moves := Finishes(moves, 2, rev.walletId, 24);
    i := 3;
    FreeIsAbsent(paid, rev);
    CurrentOk(moves);
    ParkingIsDisturbed(After(moves).value, i);
  }

  // ---------- Rejected for a reference that has been settled ----------

  /** On one wallet, a loss, a reversal of it, and a reversal of that. */
  predicate RejectingCast(a: WalletRow, base: TxRow, mid: TxRow, rev: TxRow) {
    && Openable(EMPTY_DB, a) && Distinct(base, mid) && Distinct(mid, rev) && Distinct(base, rev)
    && NewRow(base) && base.kind == Loss && Of(base, a)
    && NewRow(mid) && IsReversal(mid.kind) && Of(mid, a) && RefOf(mid) == ExtOf(base)
    && NewRow(rev) && IsReversal(rev.kind) && Of(rev, a) && RefOf(rev) == ExtOf(mid)
  }

  /** Both reversals are parked, the later one first. */
  function BothParked(a: WalletRow, mid: TxRow, rev: TxRow): Db {
    AfterPark(AfterPark(WithWallet(EMPTY_DB, a), rev, None), mid, None)
  }

  lemma ParksBoth(a: WalletRow, base: TxRow, mid: TxRow, rev: TxRow)
    requires RejectingCast(a, base, mid, rev)
    ensures var d0 := WithWallet(EMPTY_DB, a);
            && Inv(d0) && Recording(d0, rev, None, PendingReference) == Option.Some(AfterPark(d0, rev, None))
            && Recording(AfterPark(d0, rev, None), mid, None, PendingReference) == Option.Some(BothParked(a, mid, rev))
            && Inv(BothParked(a, mid, rev))
  {
    hide KeysOk, RowsOk, LedgerOk, WalletsOk, EventsOk, Recording;
    var d0 := WithWallet(EMPTY_DB, a);
    InvEmpty();
    OpenEmptyKeeps(EMPTY_DB, a);
    ParkedWhen(d0, rev, None);
    ParkKeeps(d0, rev, None);
    ParkedWhen(AfterPark(d0, rev, None), mid, None);
    ParkKeeps(AfterPark(d0, rev, None), mid, None);
  }

  lemma ParkedRows(a: WalletRow, base: TxRow, mid: TxRow, rev: TxRow)
    requires RejectingCast(a, base, mid, rev)
    ensures var db := BothParked(a, mid, rev);
            && StandsAs(db, rev.id, Parked(rev)) && StandsAs(db, mid.id, Parked(mid)) && Fresh(db, base)
            && FindByExternalId(db, RefOf(rev)) == Option.Some(Parked(mid)) && db.wallets == map[a.id := a]
            && Enters(db, base, None)
  {
  }

  lemma FindsBoth(db: Db, t: TxRow, w: WalletRow, key: (string, string))
    requires Inv(db) && Enters(db, t, None) && (t.kind != Loss ==> Changed(t, w).Ok?)
    ensures FindByExternalId(Effect(WithInbox(db, None), t, w), key) ==
            if key == ExtOf(t) then Option.Some(t.(status := Processed)) else FindByExternalId(db, key)
  {
    hide Inv, FindByExternalId;
    InvKeys(db);
    FindsAfterEffect(db, t, w, None, key);
  }

  /** The loss is processed beside the two. */
  lemma BasePaid(a: WalletRow, base: TxRow, mid: TxRow, rev: TxRow) returns (based: Db)
    requires RejectingCast(a, base, mid, rev)
    ensures Recording(BothParked(a, mid, rev), base, None, Processed) == Option.Some(based) && Inv(based)
    ensures StandsAs(based, rev.id, Parked(rev)) && StandsAs(based, mid.id, Parked(mid)) && based.wallets == map[a.id := a]
    ensures FindByExternalId(based, RefOf(mid)) == Option.Some(base.(status := Processed))
    ensures FindByExternalId(based, RefOf(rev)) == Option.Some(Parked(mid))
  {
    hide Inv, Recording, FindByExternalId, BothParked, Effect, Fresh, Changed;
    var db := BothParked(a, mid, rev);
    ParksBoth(a, base, mid, rev);
    ParkedRows(a, base, mid, rev);
    ProcessedWhen(db, base, None);
    based := Effect(WithInbox(db, None), base, a);
    EffectTables(db, base, a, None);
    ProcessedKeeps(db, base, None);
    FindsBoth(db, base, a, RefOf(mid));
    FindsBoth(db, base, a, RefOf(rev));
  }

  lemma CreditsEmpty(a: WalletRow, t: TxRow)
    requires Openable(EMPTY_DB, a) && NewRow(t) && IsReversal(t.kind) && Of(t, a)
    ensures Changed(t, a).Ok? && a.version < MAX && Changed(t, a).value.id == a.id
  {
    AddExact(a.balance, t.money);
  }

  lemma MiddleSettles(db: Db, a: WalletRow, mid: TxRow)
    requires Openable(EMPTY_DB, a) && NewRow(mid) && IsReversal(mid.kind) && Of(mid, a) && Inv(db)
    requires StandsAs(db, mid.id, Parked(mid)) && db.wallets == map[a.id := a] && ReferencePaid(db, mid)
    ensures Changed(Parked(mid), a).Ok? && Resolve(db, mid.id) == Ok(SettleEffect(db, Parked(mid), a))
  {
    hide Inv, FindByExternalId, SettleEffect, Resolve, NewRow, Openable;
    CreditsEmpty(a, mid);
    SettledWhen(db, mid.id);
  }

  lemma FindsSettled(db: Db, row: TxRow, w: WalletRow, key: (string, string))
    requires KeysOk(db) && StandsAs(db, row.id, row) && Changed(row, w).Ok?
    ensures FindByExternalId(SettleEffect(db, row, w), key) ==
            if key == ExtOf(row) then Option.Some(row.(status := Processed)) else FindByExternalId(db, key)
    ensures forall i :: i in db.txs && i != row.id ==> StandsAs(SettleEffect(db, row, w), i, db.txs[i])
  {
    hide EventFor, CreditRow, DebitRow;
  }

  /** The first reversal is then settled. */
  lemma SettlesMiddle(a: WalletRow, base: TxRow, mid: TxRow, rev: TxRow) returns (based: Db, settled: Db)
    requires RejectingCast(a, base, mid, rev)
    ensures Recording(BothParked(a, mid, rev), base, None, Processed) == Option.Some(based) && Resolve(based, mid.id) == Ok(settled)
    ensures StandsAs(settled, rev.id, Parked(rev)) && ReferencePaid(settled, rev)
    ensures mid.id in based.txs && based.txs[mid.id].walletId == a.id
  {
    hide Inv, Recording, FindByExternalId, SettleEffect, BothParked, Resolve;
    based := BasePaid(a, base, mid, rev);
    MiddleSettles(based, a, mid);
    settled := SettleEffect(based, Parked(mid), a);
    InvKeys(based);
    FindsSettled(based, Parked(mid), a, RefOf(rev));
  }

  /** The run up to the point where both reversals are parked. */
  lemma ReachBothParked(a: WalletRow, base: TxRow, mid: TxRow, rev: TxRow) returns (moves: seq<Move>)
    requires RejectingCast(a, base, mid, rev)
    ensures After(moves).Some?
    ensures var s := After(moves).value;
            |s.hist| == 4 && |s.log| == 3 && s.hist[3] == BothParked(a, mid, rev) && AllIdle(s) && s.procs.Keys == {0, 1, 2}
  {
    hide After, WithWallet, Recording, Wager, AfterPark, NewRow, Clear;
    var d0 := WithWallet(EMPTY_DB, a);
    ParksBoth(a, base, mid, rev);
    moves := OneWallet(a);
    RecordingIsWager(d0, rev, None, PendingReference);
    IdleIsClear(After(moves).value, 1, Submit(rev, None), rev.walletId);
    var basis: Basis;
    moves, basis := SubmitsWhole(moves, 1, rev, None);
    RecordingIsWager(AfterPark(d0, rev, None), mid, None, PendingReference);
    IdleIsClear(After(moves).value, 2, Submit(mid, None), mid.walletId);
    moves, basis := SubmitsWhole(moves, 2, mid, None);
  }

  lemma SettleIsClear(s: Sys, pid: nat, id: string, wallet: string, q: nat, r: Resource)
    requires forall k :: k in s.procs && k != q ==> s.procs[k].held == {}
    requires q in s.procs && s.procs[q].held == {r} && Elsewhere(r, Settle(id), wallet)
    ensures Clear(s, pid, Settle(id), wallet)
  {
  }

  /** The later one is about to be rejected when the reversal it names is settled. */
  lemma MiddleOvertakes(a: WalletRow, base: TxRow, mid: TxRow, rev: TxRow, based: Db, settled: Db) returns (moves: seq<Move>)
    requires RejectingCast(a, base, mid, rev)
    requires Recording(BothParked(a, mid, rev), base, None, Processed) == Option.Some(based) && Resolve(based, mid.id) == Ok(settled)
    requires mid.id in based.txs && based.txs[mid.id].walletId == a.id
    ensures After(moves).Some?
    ensures var s := After(moves).value;
            && |s.hist| == 6 && |s.log| == 5 && s.hist[5] == settled && 3 in s.procs
            && s.procs[3] == Settler(rev.id, RejectPc(Parked(rev), Parked(mid), 3), {TxLock(rev.id)}, 3)
            && forall k :: k in s.procs && k != 3 ==> s.procs[k].held == {}
  {
    hide After, Recording, Wager, Resolve, BothParked, RejectPc, FindByExternalId, NewRow, Clear;
    var db := BothParked(a, mid, rev);
    ParkedRows(a, base, mid, rev);
    moves := ReachBothParked(a, base, mid, rev);
    moves := StopsBeforeRejecting(moves, 3, Parked(rev), Parked(mid));
    RecordingIsWager(db, base, None, Processed);
    SubmitIsClear(After(moves).value, 4, base, 3, TxLock(rev.id));
    var basis: Basis;
    moves, basis := SubmitsWhole(moves, 4, base, None);
    SettleIsClear(After(moves).value, 5, mid.id, a.id, 3, TxLock(rev.id));
    moves, basis := SettlesWhole(moves, 5, mid.id, a.id);
  }

  lemma SettlerIsClear(s: Sys, pid: nat, id: string, wallet: string)
    requires forall k :: k in s.procs && k != pid ==> s.procs[k].held == {}
    ensures Clear(s, pid, Settle(id), wallet)
  {
  }

  lemma KeyedIndexes(db: Db, id: string)
    requires KeysOk(db) && id in db.txs
    ensures var row := db.txs[id];
            ExtOf(row) in db.byExt && db.byExt[ExtOf(row)] == id && row.idemKey in db.byKey && db.byKey[row.idemKey] == id
  {
  }

  /** The plan to reject, carried out after the reference has been processed. */
  lemma RejectsLate(now: nat, db: Db, row: TxRow, ref: TxRow, since: nat, n: nat)
    requires KeysOk(db) && StandsAs(db, row.id, row) && n >= 3
    ensures var p := Settler(row.id, RejectPc(row, ref, since), {TxLock(row.id)}, since);
            var o := Alone(now, db, p, n);
            o.Committed? && IsIn(o.db, row.id, Rejected) && o.basis == p.pc.basis
  {
    hide Alone, Run, KeysOk;
    var p := Settler(row.id, RejectPc(row, ref, since), {TxLock(row.id)}, since);
    RunNothing(db);
    KeyedIndexes(db, row.id);
    ShelvePlanRuns(db, row, Option.Some(ref));
    ShelveNoKeys(row, Option.Some(ref));
    WritesRun(now, db, p, n);
  }

  lemma RejectionIsDisturbed(s: Sys, i: nat)
    requires SysOk(s) && i < |s.log| && i + 1 < |s.hist| && s.log[i].prog.Settle? && s.log[i].basis.Shelved?
    requires s.log[i].basis.read.Some? && s.log[i].basis.read.value.status != Processed
    requires ReferenceOf(s.hist[i], s.log[i].prog.id).Some? && ReferenceOf(s.hist[i], s.log[i].prog.id).value.status == Processed
    ensures !Undisturbed(s.hist[i], s.log[i], s.hist[i + 1])
  {
    hide SysOk, Inv, InboxOk, Atomic, Undisturbed, ValidProgram, FindByExternalId;
    StateOk(s, i);
    LogStep(s, i);
    UndisturbedWhen(s.hist[i], s.log[i], s.hist[i + 1]);
  }

  /** A parked reversal is rejected for good although its reference is on record as processed: for any
      loss, any reversal of it and any reversal of that, there is a run that does so. */
  lemma RejectedBesideItsReference(a: WalletRow, base: TxRow, mid: TxRow, rev: TxRow) returns (moves: seq<Move>, i: nat)
    requires RejectingCast(a, base, mid, rev)
    ensures After(moves).Some?
    ensures var s := After(moves).value;
            && i < |s.log| && i + 1 < |s.hist| && s.log[i].prog == Settle(rev.id)
            && ReferencePaid(s.hist[i], rev) && IsIn(s.hist[i + 1], rev.id, Rejected)
            && !Undisturbed(s.hist[i], s.log[i], s.hist[i + 1])
  {
    hide After, KeysOk, Recording, Resolve, BothParked, FindByExternalId, Clear, Alone, SysOk, Undisturbed, ShelveWrites;
    var based, settled := SettlesMiddle(a, base, mid, rev);
    moves := MiddleOvertakes(a, base, mid, rev, based, settled);
    var s := After(moves).value;
    CurrentOk(moves);
    RejectsLate(5, settled, Parked(rev), Parked(mid), 3, 24);
    SettlerIsClear(s, 3, rev.id, rev.walletId);
    moves := Finishes(moves, 3, rev.walletId, 24);
    i := 5;
    CurrentOk(moves);
    RejectionIsDisturbed(After(moves).value, i);
  }

  // ---------- Reconciliation that fails on sound books ----------

  /** A wallet opened with the largest balance, a bet of all of it, and a win of as much. */
  predicate SpendingCast(w: WalletRow, bet: TxRow, win: TxRow) {
    && NewWallet(w) && w.balance.amount == MAX
    && NewRow(bet) && bet.kind == Bet && Of(bet, w) && bet.money == w.balance && Distinct(OpeningTx(w), bet)
    && NewRow(win) && win.kind == Win && Of(win, w) && win.money == w.balance && Distinct(OpeningTx(w), win) && Distinct(bet, win)
  }

  function Funded(w: WalletRow): Db {
    PutTx(WithWallet(EMPTY_DB, w), OpeningTx(w)).(
      ledger := [EntryFor(OpeningTx(w), Credit, 0, w.balance.amount)],
      outbox := [WalletOpened(w.id),
                 OpeningBalance(w.id, w.playerId, w.balance.amount, w.balance.currency, w.balance.amount, w.version)])
  }

  lemma OpensFunded(w: WalletRow)
    requires NewWallet(w) && w.balance.amount > 0
    ensures Open(EMPTY_DB, w) == Ok(Funded(w)) && Inv(Funded(w))
  {
    hide KeysOk, RowsOk, LedgerOk, WalletsOk, EventsOk;
    var ws := OpenWrites(w);
    InvEmpty();
    Run5(EMPTY_DB, ws[0], ws[1], ws[2], ws[3], ws[4]);
    assert EMPTY_DB.outbox + [ws[3].event] + [ws[4].event] == [ws[3].event, ws[4].event];
    assert EMPTY_DB.ledger + [ws[2].entry] == [ws[2].entry];
    OpenKeeps(EMPTY_DB, w);
  }

  function Betted(w: WalletRow): WalletRow { w.(balance := w.balance.(amount := 0), version := 2) }

  lemma BetsAll(w: WalletRow, bet: TxRow, win: TxRow)
    requires SpendingCast(w, bet, win)
    ensures Changed(bet, w) == Ok(Betted(w)) && Enters(Funded(w), bet, None)
    ensures Changed(win, Betted(w)) == Ok(w.(version := 3))
  {
    SubtractExact(w.balance, bet.money);
    AddExact(Betted(w).balance, win.money);
  }

  lemma WinEnters(w: WalletRow, bet: TxRow, win: TxRow)
    requires SpendingCast(w, bet, win)
    ensures Enters(Funded(w), win, None) && NewRow(bet) && NewRow(win)
  {
  }

  lemma SpendsBet(w: WalletRow, bet: TxRow, win: TxRow) returns (spent: Db)
    requires SpendingCast(w, bet, win)
    ensures Recording(Funded(w), bet, None, Processed) == Option.Some(spent) && Inv(spent)
    ensures spent.ledger == [EntryFor(OpeningTx(w), Credit, 0, MAX), EntryFor(bet, Debit, MAX, 0)]
    ensures Enters(spent, win, None) && w.id in spent.wallets && spent.wallets[w.id] == Betted(w)
  {
    hide Inv, Recording, Changed, Enters, Fresh, ReferenceRead, OpeningTx, NewRow, EventFor;
    OpensFunded(w);
    BetsAll(w, bet, win);
    WinEnters(w, bet, win);
    var db := Funded(w);
    ProcessedWhen(db, bet, None);
    spent := Effect(WithInbox(db, None), bet, w);
    EffectTables(db, bet, w, None);
    EntersAfterEffect(db, bet, w, None, win, None);
    ProcessedKeeps(db, bet, None);
  }

  lemma SpendsWin(w: WalletRow, bet: TxRow, win: TxRow, spent: Db) returns (won: Db)
    requires SpendingCast(w, bet, win) && Inv(spent) && Enters(spent, win, None)
    requires w.id in spent.wallets && spent.wallets[w.id] == Betted(w)
    ensures Recording(spent, win, None, Processed) == Option.Some(won) && Inv(won) && w.id in won.wallets
    ensures won.ledger == spent.ledger + [EntryFor(win, Credit, 0, MAX)]
  {
    hide Inv, Recording, Changed, Enters, Fresh, ReferenceRead, OpeningTx, NewRow, EventFor;
    BetsAll(w, bet, win);
    WinEnters(w, bet, win);
    ProcessedWhen(spent, win, None);
    won := Effect(WithInbox(spent, None), win, Betted(w));
    EffectTables(spent, win, Betted(w), None);
    ProcessedKeeps(spent, win, None);
  }

  lemma TotalSnoc(es: seq<Entry>, e: Entry, dir: Direction)
    ensures Total(es + [e], dir) == Total(es, dir) + if e.direction == dir then e.amount as int else 0
  {
    assert (es + [e])[..|es|] == es;
  }

  lemma SpentTotals(w: WalletRow, bet: TxRow, win: TxRow, ledger: seq<Entry>)
    requires bet.walletId == w.id && win.walletId == w.id && bet.money.amount == MAX && win.money.amount == MAX && w.balance.amount == MAX
    requires ledger == [EntryFor(OpeningTx(w), Credit, 0, MAX), EntryFor(bet, Debit, MAX, 0)] + [EntryFor(win, Credit, 0, MAX)]
    ensures EntriesOf(ledger, w.id) == ledger && Total(ledger, Credit) > MAX_INT64
  {
    var a, b, c := ledger[0], ledger[1], ledger[2];
    assert ledger == [] + [a] + [b] + [c];
    EntriesSnoc([], a, w.id);
    EntriesSnoc([] + [a], b, w.id);
    EntriesSnoc([] + [a] + [b], c, w.id);
    TotalSnoc([], a, Credit);
    TotalSnoc([] + [a], b, Credit);
    TotalSnoc([] + [a] + [b], c, Credit);
  }

  lemma ReachFunded(w: WalletRow) returns (moves: seq<Move>)
    requires NewWallet(w) && w.balance.amount > 0
    ensures After(moves).Some?
    ensures var s := After(moves).value; s.hist == [EMPTY_DB, Funded(w)] && AllIdle(s) && s.procs.Keys == {0}
  {
    hide Inv, Open, Funded, Clear;
    OpensFunded(w);
    moves := OpensWhole([], 0, w);
  }

  /** The run up to the bet. */
  lemma ReachSpent(w: WalletRow, bet: TxRow, win: TxRow, spent: Db) returns (moves: seq<Move>)
    requires SpendingCast(w, bet, win) && Recording(Funded(w), bet, None, Processed) == Option.Some(spent)
    ensures After(moves).Some?
    ensures var s := After(moves).value; s.hist == [EMPTY_DB, Funded(w), spent] && AllIdle(s) && s.procs.Keys == {0, 1}
  {
    hide After, Inv, Recording, Open, Wager, Funded, Clear, NewRow;
    WinEnters(w, bet, win);
    moves := ReachFunded(w);
    RecordingIsWager(Funded(w), bet, None, Processed);
    IdleIsClear(After(moves).value, 1, Submit(bet, None), bet.walletId);
    var basis: Basis;
    moves, basis := SubmitsWhole(moves, 1, bet, None);
  }

  /** The report fails although the books are in order: for any wallet opened with the largest balance,
      any bet of it and any win of it, there is a run after which it does. */
  lemma SoundBooksFailToScan(w: WalletRow, bet: TxRow, win: TxRow) returns (moves: seq<Move>)
    requires SpendingCast(w, bet, win)
    ensures After(moves).Some? && After(moves).value.hist != []
    ensures var db := Current(After(moves).value); Inv(db) && w.id in db.wallets && Reconcile(db, db, w.id) == Err(ScanFailed)
  {
    hide After, Inv, Recording, Wager, Funded, Clear, NewRow, Total, EntriesOf;
    var spent := SpendsBet(w, bet, win);
    var won := SpendsWin(w, bet, win, spent);
    WinEnters(w, bet, win);
    moves := ReachSpent(w, bet, win, spent);
    RecordingIsWager(spent, win, None, Processed);
    IdleIsClear(After(moves).value, 2, Submit(win, None), win.walletId);
    var basis: Basis;
    moves, basis := SubmitsWhole(moves, 2, win, None);
    SpentTotals(w, bet, win, won.ledger);
  }

  // ---------- The casts exist ----------

  /** A validated transaction on a wallet in BRL. */
  function Sample(externalId: string, kind: Kind, w: WalletRow, amount: int64, ref: string): TxRow {
    var id, money := WagerId("provider", externalId), Money(amount, "BRL");
    TxRow(id, "provider", externalId, externalId,
          Payload("provider", externalId, w.playerId, w.id, "round", "game", kind, Print(amount), "BRL", ref),
          w.id, w.playerId, "round", "game", kind, money, ref, Pending, "")
  }

  function SampleWallet(player: string, amount: int64): WalletRow { WalletRow("wal_" + player, player, Money(amount, "BRL"), 1) }

  lemma SampleWalletIsNew(player: string, amount: int64)
    requires player != "" && amount >= 0
    ensures NewWallet(SampleWallet(player, amount))
  {
    var c := "BRL";
    assert Upper(c) == c;
    assert TrimLeft(c) == c && TrimRight(c) == c;
    assert ByteLen(c[1..][1..][1..]) == 0;
  }

  lemma SamplesDiffer(x: string, y: string)
    requires x != y
    ensures WagerId("provider", x) != WagerId("provider", y)
  {
    WagerIdsCollideWhen("provider", x, "provider", y);
  }

  lemma ParkingCastExists()
    ensures exists a, b, ref, rev :: ParkingCast(a, b, ref, rev)
  {
    hide Canon, ByteLen, Print, CurrencyOk;
    var a, b := SampleWallet("a", 0), SampleWallet("b", 0);
    SampleWalletIsNew("a", 0);
    SampleWalletIsNew("b", 0);
    assert a.id[4] == 'a' && b.id[4] == 'b';
    SamplesDiffer("1", "2");
    assert ParkingCast(a, b, Sample("1", Loss, b, 0, ""), Sample("2", Refund, a, 1, "1"));
  }

  lemma RejectingCastExists()
    ensures exists a, base, mid, rev :: RejectingCast(a, base, mid, rev)
  {
    hide Canon, ByteLen, Print, CurrencyOk;
    var a := SampleWallet("a", 0);
    SampleWalletIsNew("a", 0);
    SamplesDiffer("1", "2");
    SamplesDiffer("2", "3");
    SamplesDiffer("1", "3");
    assert RejectingCast(a, Sample("1", Loss, a, 0, ""), Sample("2", Refund, a, 1, "1"), Sample("3", Refund, a, 1, "2"));
  }

  lemma OpeningDiffers(w: WalletRow, x: string)
    requires |x| == 1
    ensures OpeningTx(w).id != WagerId("provider", x) && "opening_" + w.id != x && "opening:" + w.id != x && "INTERNAL" != "provider"
  {
    assert OpeningTx(w).id[3] == 'o' && WagerId("provider", x)[3] == 'p';
    assert "INTERNAL"[0] == 'I' && "provider"[0] == 'p';
    assert |"opening_" + w.id| >= 8 && |"opening:" + w.id| >= 8;
  }

  lemma SpendingCastExists()
    ensures exists w, bet, win :: SpendingCast(w, bet, win)
  {
    hide Canon, ByteLen, Print, CurrencyOk;
    var w := SampleWallet("a", MAX);
    SampleWalletIsNew("a", MAX);
    SamplesDiffer("1", "2");
    OpeningDiffers(w, "1");
    OpeningDiffers(w, "2");
    assert SpendingCast(w, Sample("1", Bet, w, MAX, ""), Sample("2", Win, w, MAX, ""));
  }

  /** Serializability in commit order fails: there is a run with a commit that is not the step which would
      have been taken with nothing else running. */
  lemma CommitOrderIsNotSerial() returns (moves: seq<Move>, i: nat)
    ensures After(moves).Some?
    ensures var s := After(moves).value;
            i < |s.log| && i + 1 < |s.hist| && !Undisturbed(s.hist[i], s.log[i], s.hist[i + 1])
  {
    hide ParkingCast, After, Undisturbed;
    ParkingCastExists();
    var a, b, ref, rev :| ParkingCast(a, b, ref, rev);
    moves, i := ParkedBesideItsReference(a, b, ref, rev);
  }
}
