/** When a submission is processed, parked or rejected, exactly, and what it then leaves behind. */
module Outcomes {
  import opened Amounts
  import opened Records
  import opened Tables
  import opened Steps
  import opened Invariants
  import opened Preservation
  import opened Evolution

  /** A submission that is recorded with the given status and is not a replay. */
  function Recording(db: Db, t: TxRow, inbox: Option<Claim>, status: Status): Option<Db> {
    match Wager(db, t, inbox)
    case Ok((d, out)) => if !out.replay && out.status == status then Some(d) else None
    case Err(_) => None
  }

  predicate Unclaimed(db: Db, inbox: Option<Claim>) { inbox.Some? ==> MessageOf(inbox.value) !in db.inbox }

  predicate Enters(db: Db, t: TxRow, inbox: Option<Claim>) {
    Unclaimed(db, inbox) && Fresh(db, t) && t.walletId in db.wallets && db.wallets[t.walletId].playerId == t.playerId
  }

  function DirectionOf(t: TxRow): Direction { if t.kind == Bet then Debit else Credit }

  function Changed(t: TxRow, w: WalletRow): Result<WalletRow, Error> {
    if t.kind == Bet then DebitRow(w, t.money) else CreditRow(w, t.money)
  }

  /** The wallet and, for a reversal, the reference allow the transaction to be processed. */
  predicate Payable(t: TxRow, w: WalletRow, read: Option<TxRow>) {
    && (IsReversal(t.kind) ==> read.Some? && read.value.status == Processed)
    && (t.kind != Loss ==> Changed(t, w).Ok? && w.version < MAX)
  }

  function Effect(db: Db, t: TxRow, w: WalletRow): Db
    requires t.kind != Loss ==> Changed(t, w).Ok?
  {
    var done := TxProcessed(t.id);
    if t.kind == Loss then Recorded(db, t.(status := Processed), [done])
    else
      var w' := Changed(t, w).value;
      var e := MoveEntry(t, w, w', DirectionOf(t));
      Moved(db, t.(status := Processed), w', e, [EventFor(e, t.money.currency, w'.version), done])
  }

  lemma ChangedMoves(t: TxRow, w: WalletRow)
    requires w.balance.amount >= 0 && Changed(t, w).Ok?
    ensures Restated(w, Changed(t, w).value) && EntryChecks(MoveEntry(t, w, Changed(t, w).value, DirectionOf(t)))
  {
    if t.kind == Bet { DebitMoves(w, t); } else { CreditMoves(w, t); }
  }

  lemma AbsentIsFree(db: Db, t: TxRow)
    requires KeysOk(db)
    ensures Existing(db, t).Absent? <==> ExtOf(t) !in db.byExt && t.idemKey !in db.byKey
  {
  }

  lemma InsertFails(db: Db, ws: seq<Write>, t: TxRow)
    requires ws != [] && ws[0] == InsTx(t) && !Fresh(db, t)
    ensures Run(db, ws).Err?
  {
    RunCons(db, ws[0], ws[1..]);
    assert [ws[0]] + ws[1..] == ws;
  }

  lemma MovementPlan(db: Db, t: TxRow, w: WalletRow)
    requires Inv(db) && t.walletId in db.wallets && w == db.wallets[t.walletId] && t.kind != Loss && Changed(t, w).Ok?
    ensures var ws := MoveWrites(t, w, Changed(t, w).value, DirectionOf(t));
            if Fresh(db, t) && w.version < MAX then Run(db, ws) == Ok(Effect(db, t, w)) else Run(db, ws).Err?
  {
    hide KeysOk, RowsOk, LedgerOk, WalletsOk, EventsOk, Run, Moved, DebitRow, CreditRow, Restated, EntryChecks;
    WalletFacts(db, t.walletId);
    ChangedMoves(t, w);
    var w' := Changed(t, w).value;
    if t.id in db.txs {
      InsertFails(db, MoveWrites(t, w, w', DirectionOf(t)), t.(status := Processed));
    } else {
      UnprocessedEntryNew(db, t.id);
      MovePlanRuns(db, t, w, w', DirectionOf(t));
    }
  }

  lemma DecidesToProcess(t: TxRow, w: WalletRow, read: Option<TxRow>)
    requires NewRow(t)
    ensures var d := Decide(t, w, read);
            if t.kind == Loss
            then d.Plan? && d.out.status == Processed && d.writes == [InsTx(t.(status := Processed)), InsEvent(TxProcessed(t.id))]
            else if d.Plan? && d.out.status == Processed
            then Changed(t, w).Ok? && d.writes == MoveWrites(t, w, Changed(t, w).value, DirectionOf(t))
                 && (IsReversal(t.kind) ==> read.Some? && read.value.status == Processed)
            else Changed(t, w).Err? || (IsReversal(t.kind) && !(read.Some? && read.value.status == Processed))
  {
    hide DebitRow, CreditRow, MoveWrites;
  }

  /** Whether a decision to process comes to pass, and its effect. */
  lemma ProcessedPlan(db: Db, t: TxRow, read: Option<TxRow>)
    requires Inv(db) && NewRow(t) && t.walletId in db.wallets
    ensures var w := db.wallets[t.walletId];
            var d := Decide(t, w, read);
            if d.Plan? && d.out.status == Processed && Run(db, d.writes).Ok?
            then Payable(t, w, read) && Fresh(db, t) && Run(db, d.writes).value == Effect(db, t, w)
            else !(Payable(t, w, read) && Fresh(db, t))
  {
    hide Inv, Run, Decide, Moved, Recorded, MoveWrites, DebitRow, CreditRow;
    var w := db.wallets[t.walletId];
    DecidesToProcess(t, w, read);
    if t.kind == Loss {
      RecordPlanRuns(db, t.(status := Processed), TxProcessed(t.id));
    } else if Changed(t, w).Ok? {
      MovementPlan(db, t, w);
    }
  }

  lemma ClaimKeeps(db: Db, t: TxRow, inbox: Option<Claim>)
    requires Inv(db)
    ensures var db1 := WithInbox(db, inbox); Inv(db1) && Fresh(db1, t) == Fresh(db, t) && db1.wallets == db.wallets
  {
    InboxKeeps(db, WithInbox(db, inbox));
  }

  /** A replay, or a submission with a clash, records nothing. */
  lemma NotEntered(db: Db, t: TxRow, inbox: Option<Claim>, status: Status)
    requires Inv(db) && NewRow(t) && !Enters(db, t, inbox)
    ensures Recording(db, t, inbox, status) == None
  {
    hide RowsOk, LedgerOk, WalletsOk, EventsOk, KeysOk, Existing, Decide, Run, FreshRead;
    assert KeysOk(db);
    AbsentIsFree(db, t);
    if Unclaimed(db, inbox) && Existing(db, t).Absent? && t.walletId in db.wallets && !Fresh(db, t) {
      var read := FreshRead(db, t, inbox);
      if Decide(t, db.wallets[t.walletId], read).Plan? {
        PlanShape(t, db.wallets[t.walletId], read);
        var ws := Decide(t, db.wallets[t.walletId], read).writes;
        RunInbox(db, inbox, ws);
        InsertFails(WithInbox(db, inbox), ws, ws[0].tx);
      }
    }
  }

  function ReferenceRead(db: Db, t: TxRow): Option<TxRow> {
    if IsReversal(t.kind) then FindByExternalId(db, RefOf(t)) else None
  }

  lemma EnteredStep(db: Db, t: TxRow, inbox: Option<Claim>)
    requires Inv(db) && Enters(db, t, inbox)
    ensures var d := Decide(t, db.wallets[t.walletId], ReferenceRead(db, t));
            match Wager(db, t, inbox)
            case Err(_) => d.Plan? ==> Run(WithInbox(db, inbox), d.writes).Err?
            case Ok((d', out)) => d.Plan? && Run(WithInbox(db, inbox), d.writes) == Ok(d') && out == d.out
  {
    hide RowsOk, LedgerOk, WalletsOk, EventsOk, KeysOk, Existing, Decide, Run, FindByExternalId;
    assert KeysOk(db);
    AbsentIsFree(db, t);
    var d := Decide(t, db.wallets[t.walletId], ReferenceRead(db, t));
    if d.Plan? { RunInbox(db, inbox, d.writes); }
  }

  lemma PlansDoNotReplay(t: TxRow, w: WalletRow, read: Option<TxRow>)
    requires Decide(t, w, read).Plan?
    ensures !Decide(t, w, read).out.replay
  {
    hide DebitRow, CreditRow, MoveWrites;
  }

  /** When a submission is processed, exactly, and the tables it leaves. */
  lemma ProcessedWhen(db: Db, t: TxRow, inbox: Option<Claim>)
    requires Inv(db) && NewRow(t)
    ensures Recording(db, t, inbox, Processed) ==
            if Enters(db, t, inbox) && Payable(t, db.wallets[t.walletId], ReferenceRead(db, t))
            then Some(Effect(WithInbox(db, inbox), t, db.wallets[t.walletId]))
            else None
  {
    hide Inv, Run, Decide, Wager, Payable, Effect, ReferenceRead, WithInbox, Fresh;
    if Enters(db, t, inbox) {
      var read, w := ReferenceRead(db, t), db.wallets[t.walletId];
      ClaimKeeps(db, t, inbox);
      EnteredStep(db, t, inbox);
      ProcessedPlan(WithInbox(db, inbox), t, read);
      if Decide(t, w, read).Plan? { PlansDoNotReplay(t, w, read); }
    } else {
      NotEntered(db, t, inbox, Processed);
    }
  }

  lemma ParkedPlan(db: Db, t: TxRow, read: Option<TxRow>)
    requires NewRow(t) && t.walletId in db.wallets && IsReversal(t.kind)
    ensures var w := db.wallets[t.walletId];
            var d := Decide(t, w, read);
            if d.Plan? && d.out.status == PendingReference && Run(db, d.writes).Ok?
            then read.None? && Fresh(db, t) && Run(db, d.writes).value == Recorded(db, t.(status := PendingReference), [TxParked(t.id)])
            else !(read.None? && Fresh(db, t))
  {
    hide Run, CreditRow, MoveWrites;
    RecordPlanRuns(db, t.(status := PendingReference, failureCode := ""), TxParked(t.id));
  }

  /** When a reversal is parked, exactly. */
  lemma ParkedWhen(db: Db, t: TxRow, inbox: Option<Claim>)
    requires Inv(db) && NewRow(t) && IsReversal(t.kind)
    ensures Recording(db, t, inbox, PendingReference) ==
            if Enters(db, t, inbox) && FindByExternalId(db, RefOf(t)).None?
            then Some(Recorded(WithInbox(db, inbox), t.(status := PendingReference), [TxParked(t.id)]))
            else None
  {
    hide Inv, Run, Decide, Wager, FindByExternalId, WithInbox, Fresh, Recorded;
    if Enters(db, t, inbox) {
      var read, w := ReferenceRead(db, t), db.wallets[t.walletId];
      ClaimKeeps(db, t, inbox);
      EnteredStep(db, t, inbox);
      ParkedPlan(WithInbox(db, inbox), t, read);
      if Decide(t, w, read).Plan? { PlansDoNotReplay(t, w, read); }
    } else {
      NotEntered(db, t, inbox, PendingReference);
    }
  }

  /** A debit succeeds if and only if the balance covers it, a credit if and only if the sum fits; either
      then changes the balance by exactly the amount. */
  lemma ChangedWhen(t: TxRow, w: WalletRow)
    requires t.money.amount > 0 && w.balance.amount >= 0
    ensures Changed(t, w).Ok? <==>
            t.money.currency == w.balance.currency
            && if t.kind == Bet then t.money.amount <= w.balance.amount else w.balance.amount as int + t.money.amount as int <= MAX_INT64
    ensures Changed(t, w).Ok? ==>
              Changed(t, w).value.balance.amount as int ==
              w.balance.amount as int + if t.kind == Bet then -(t.money.amount as int) else t.money.amount as int
  {
    AddExact(w.balance, t.money);
    SubtractExact(w.balance, t.money);
  }

  predicate Uncovered(t: TxRow, w: WalletRow) {
    t.kind == Bet && t.money.currency == w.balance.currency && w.balance.amount < t.money.amount
  }

  function Rejection(t: TxRow): TxRow { t.(status := Rejected, failureCode := "INSUFFICIENT_BALANCE") }

  lemma RejectedPlan(db: Db, t: TxRow, read: Option<TxRow>)
    requires NewRow(t) && t.walletId in db.wallets
    ensures var w := db.wallets[t.walletId];
            var d := Decide(t, w, read);
            if d.Plan? && d.out.status == Rejected && Run(db, d.writes).Ok?
            then Uncovered(t, w) && Fresh(db, t) && Run(db, d.writes).value == Recorded(db, Rejection(t), [TxRejected(t.id)])
            else !(Uncovered(t, w) && Fresh(db, t))
  {
    hide Run, CreditRow, MoveWrites, Subtract;
    RecordPlanRuns(db, Rejection(t), TxRejected(t.id));
  }

  /** A transaction is rejected, and recorded as such, if and only if it is a bet that the wallet does
      not cover. */
  lemma RejectedWhen(db: Db, t: TxRow, inbox: Option<Claim>)
    requires Inv(db) && NewRow(t)
    ensures Recording(db, t, inbox, Rejected) ==
            if Enters(db, t, inbox) && Uncovered(t, db.wallets[t.walletId])
            then Some(Recorded(WithInbox(db, inbox), Rejection(t), [TxRejected(t.id)]))
            else None
  {
    hide Inv, Run, Decide, Wager, FindByExternalId, WithInbox, Fresh, Recorded, Uncovered;
    if Enters(db, t, inbox) {
      var read, w := ReferenceRead(db, t), db.wallets[t.walletId];
      ClaimKeeps(db, t, inbox);
      EnteredStep(db, t, inbox);
      RejectedPlan(WithInbox(db, inbox), t, read);
      if Decide(t, w, read).Plan? { PlansDoNotReplay(t, w, read); }
    } else {
      NotEntered(db, t, inbox, Rejected);
    }
  }
}
