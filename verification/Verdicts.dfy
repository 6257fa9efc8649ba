/** What a submission comes to, told outright: in which order it is refused and with which error, and else
    what is answered and every column that is written. The atomic step, which runs a list of statements
    under the checks of the schema, is proved to come to just that. */
module Verdicts {
  import opened Amounts
  import opened Records
  import opened Tables
  import opened Steps
  import opened Invariants
  import opened Preservation
  import opened Evolution

  // ---------- What is written ----------

  /** The message is claimed, if there is one. */
  function Noted(db: Db, inbox: Option<Claim>): Db {
    if inbox.None? then db
    else db.(inbox := db.inbox[(inbox.value.consumer, inbox.value.messageId) := inbox.value.payload])
  }

  /** A new row under its three keys, and its events. */
  function Filed(db: Db, row: TxRow, events: seq<Event>): Db {
    db.(txs := db.txs[row.id := row], byExt := db.byExt[(row.providerId, row.externalId) := row.id],
        byKey := db.byKey[row.idemKey := row.id], outbox := db.outbox + events)
  }

  /** The wallet after a movement, and its ledger entry. */
  function Booked(db: Db, row: TxRow, w: WalletRow, direction: Direction, after: int64): Db
    requires w.version < MAX
  {
    db.(wallets := db.wallets[row.walletId := WalletRow(w.id, w.playerId, Money(after, w.balance.currency), w.version + 1)],
        ledger := db.ledger + [Entry("led_" + row.id, row.walletId, row.id, direction, row.money.amount, w.balance.amount, after)])
  }

  function Announcement(row: TxRow, w: WalletRow, direction: Direction, after: int64): Event
    requires w.version < MAX
  {
    BalanceChanged(row.walletId, row.id, direction, Print(row.money.amount), row.money.currency,
                   Print(w.balance.amount), Print(after), w.version + 1)
  }

  // ---------- What a submission comes to ----------

  type Verdict = Result<(Db, Output), Error>

  /** The row is kept with this status and moves no money. */
  function Kept(db: Db, t: TxRow, inbox: Option<Claim>, w: WalletRow, status: Status, code: string, event: Event): Verdict {
    if t.id in db.txs then Err(Conflict)
    else Ok((Noted(Filed(db, t.(status := status, failureCode := code), [event]), inbox), Output(t.id, status, w.balance, false)))
  }

  /** The row is processed and the wallet's balance becomes `after`, which is also what the caller is told. */
  function Paid(db: Db, t: TxRow, inbox: Option<Claim>, w: WalletRow, direction: Direction, after: int64): Verdict {
    if t.id in db.txs then Err(Conflict)
    else if w.version == MAX then Err(StatementFailed)
    else
      var filed := Filed(db, t.(status := Processed), [Announcement(t, w, direction, after), TxProcessed(t.id)]);
      Ok((Noted(Booked(filed, t, w, direction, after), inbox),
          Output(t.id, Processed, Money(after, w.balance.currency), false)))
  }

  function Gained(db: Db, t: TxRow, inbox: Option<Claim>, w: WalletRow): Verdict {
    if t.money.currency != w.balance.currency then Err(CurrencyMismatch)
    else
      var sum := w.balance.amount as int + t.money.amount as int;
      if sum > 9223372036854775807 || sum < 0 then Err(BadMoney(MoneyOverflow)) else Paid(db, t, inbox, w, Credit, sum as int64)
  }

  function Spent(db: Db, t: TxRow, inbox: Option<Claim>, w: WalletRow): Verdict {
    if t.money.currency != w.balance.currency then Err(CurrencyMismatch)
    else
      var rest := w.balance.amount as int - t.money.amount as int;
      if rest < 0 then Kept(db, t, inbox, w, Rejected, "INSUFFICIENT_BALANCE", TxRejected(t.id))
      else if rest > 9223372036854775807 then Err(BadMoney(MoneyOverflow))
      else Paid(db, t, inbox, w, Debit, rest as int64)
  }

  function Reversed(db: Db, t: TxRow, inbox: Option<Claim>, w: WalletRow, reference: Option<TxRow>): Verdict {
    if reference.None? then Kept(db, t, inbox, w, PendingReference, "", TxParked(t.id))
    else if reference.value.status != Processed then Err(ReferenceNotUsable)
    else Gained(db, t, inbox, w)
  }

  /** A submission that nothing on record answers. */
  function VerdictOnNew(db: Db, t: TxRow, inbox: Option<Claim>, reference: Option<TxRow>): Verdict {
    if t.walletId !in db.wallets then Err(WalletNotFound)
    else
      var w := db.wallets[t.walletId];
      if w.playerId != t.playerId then Err(OwnerMismatch)
      else match t.kind
        case Bet => Spent(db, t, inbox, w)
        case Win => Gained(db, t, inbox, w)
        case Loss => Kept(db, t, inbox, w, Processed, "", TxProcessed(t.id))
        case Refund => Reversed(db, t, inbox, w, reference)
        case Rollback => Reversed(db, t, inbox, w, reference)
        case Opening => Err(InvalidKind)
  }

  /** A replay: the recorded row, and the balance that its wallet has now. */
  function Repeated(db: Db, row: TxRow, db': Db): Verdict {
    if row.walletId !in db.wallets then Err(WalletNotFound)
    else Ok((db', Output(row.id, row.status, db.wallets[row.walletId].balance, true)))
  }

  /** `read` is the one row that is read without a lock: the reference of a reversal, or the row of a replay. */
  function VerdictOf(db: Db, t: TxRow, inbox: Option<Claim>, read: Option<TxRow>): Verdict
    requires (t.providerId, t.externalId) in db.byExt ==> db.byExt[(t.providerId, t.externalId)] in db.txs
  {
    if inbox.Some? && (inbox.value.consumer, inbox.value.messageId) in db.inbox
    then Repeated(db, if read.Some? then read.value else t, db)
    else if (t.providerId, t.externalId) in db.byExt then
      var row := db.txs[db.byExt[(t.providerId, t.externalId)]];
      if row.hash != t.hash then Err(Conflict)
      else Repeated(db, if read.Some? then read.value else row, Noted(db, inbox))
    else if t.idemKey in db.byKey then Err(Conflict)
    else VerdictOnNew(db, t, inbox, read)
  }

  // ---------- The atomic step comes to that ----------

  lemma KeptRuns(db: Db, t: TxRow, inbox: Option<Claim>, w: WalletRow, status: Status, code: string, event: Event)
    requires t.walletId in db.wallets && (t.providerId, t.externalId) !in db.byExt && t.idemKey !in db.byKey
    requires inbox.Some? ==> MessageOf(inbox.value) !in db.inbox
    ensures var d := PlanRecord(t, w, status, code, event);
            && d.Plan?
            && Kept(db, t, inbox, w, status, code, event) ==
               match Run(db, InboxWrites(inbox) + d.writes) case Err(e) => Err(Surface(e)) case Ok(d') => Ok((d', d.out))
  {
    hide Run;
    var d := PlanRecord(t, w, status, code, event);
    RunInbox(db, inbox, d.writes);
    RecordPlanRuns(WithInbox(db, inbox), t.(status := status, failureCode := code), event);
  }

  lemma TakenIdFails(db: Db, t: TxRow, w: WalletRow, w': WalletRow, dir: Direction)
    requires t.id in db.txs
    ensures Run(db, MoveWrites(t, w, w', dir)) == Err(DuplicateTransaction)
  {
    var ws := MoveWrites(t, w, w', dir);
    RunCons(db, ws[0], ws[1..]);
    assert [ws[0]] + ws[1..] == ws;
  }

  lemma PaidRuns(db: Db, t: TxRow, inbox: Option<Claim>, w: WalletRow, w': WalletRow, dir: Direction)
    requires Inv(db) && t.walletId in db.wallets && (t.providerId, t.externalId) !in db.byExt && t.idemKey !in db.byKey
    requires w == db.wallets[t.walletId] && Restated(w, w') && EntryChecks(MoveEntry(t, w, w', dir))
    requires t.status == Pending && t.failureCode == "" && (inbox.Some? ==> MessageOf(inbox.value) !in db.inbox)
    ensures Paid(db, t, inbox, w, dir, w'.balance.amount) ==
            match Run(db, InboxWrites(inbox) + MoveWrites(t, w, w', dir))
            case Err(e) => Err(Surface(e))
            case Ok(d') => Ok((d', Output(t.id, Processed, w'.balance, false)))
  {
    hide KeysOk, RowsOk, LedgerOk, WalletsOk, EventsOk, Run, MoveWrites, EntryChecks;
    WalletFacts(db, t.walletId);
    RunInbox(db, inbox, MoveWrites(t, w, w', dir));
    if t.id in db.txs {
      TakenIdFails(WithInbox(db, inbox), t, w, w', dir);
    } else {
      UnprocessedEntryNew(db, t.id);
      MovePlanRuns(WithInbox(db, inbox), t, w, w', dir);
    }
  }

  /** What a step makes of a decision. */
  function Outcome(db: Db, inbox: Option<Claim>, d: Decision): Verdict {
    match d
    case Refuse(e) => Err(e)
    case Plan(writes, out) =>
      match Run(db, InboxWrites(inbox) + writes) case Err(e) => Err(Surface(e)) case Ok(d') => Ok((d', out))
  }

  /** The submission is new, and its wallet is its player's. */
  predicate Stands(db: Db, t: TxRow, inbox: Option<Claim>) {
    && NewRow(t) && t.walletId in db.wallets && (t.providerId, t.externalId) !in db.byExt && t.idemKey !in db.byKey
    && (inbox.Some? ==> MessageOf(inbox.value) !in db.inbox)
  }

  lemma GainedRuns(db: Db, t: TxRow, inbox: Option<Claim>)
    requires Inv(db) && Stands(db, t, inbox) && t.kind != Loss
    ensures var w := db.wallets[t.walletId];
            Gained(db, t, inbox, w) == Outcome(db, inbox, PlanMove(t, w, CreditRow(w, t.money), Credit))
  {
    hide Inv, Run, MoveWrites, Paid, EntryChecks;
    var w := db.wallets[t.walletId];
    WalletFacts(db, t.walletId);
    AddExact(w.balance, t.money);
    if CreditRow(w, t.money).Ok? {
      CreditMoves(w, t);
      PaidRuns(db, t, inbox, w, CreditRow(w, t.money).value, Credit);
    }
  }

  lemma SpentRuns(db: Db, t: TxRow, inbox: Option<Claim>)
    requires Inv(db) && Stands(db, t, inbox) && t.kind == Bet
    ensures var w := db.wallets[t.walletId];
            Spent(db, t, inbox, w) == Outcome(db, inbox, Decide(t, w, None))
  {
    hide Inv, Run, MoveWrites, Paid, Kept, EntryChecks, PlanRecord;
    var w := db.wallets[t.walletId];
    WalletFacts(db, t.walletId);
    SubtractExact(w.balance, t.money);
    if DebitRow(w, t.money).Ok? {
      DebitMoves(w, t);
      PaidRuns(db, t, inbox, w, DebitRow(w, t.money).value, Debit);
    } else {
      KeptRuns(db, t, inbox, w, Rejected, "INSUFFICIENT_BALANCE", TxRejected(t.id));
    }
  }

  lemma DecidedOn(db: Db, t: TxRow, inbox: Option<Claim>, read: Option<TxRow>)
    requires Inv(db) && Stands(db, t, inbox) && db.wallets[t.walletId].playerId == t.playerId
    ensures VerdictOnNew(db, t, inbox, read) == Outcome(db, inbox, Decide(t, db.wallets[t.walletId], read))
  {
    hide Inv, Run, Paid, Kept, PlanRecord, PlanMove, CreditRow, DebitRow, Gained, Spent;
    var w := db.wallets[t.walletId];
    match t.kind {
      case Bet => SpentRuns(db, t, inbox);
      case Win => GainedRuns(db, t, inbox);
      case Loss => KeptRuns(db, t, inbox, w, Processed, "", TxProcessed(t.id));
      case Opening =>
      case _ =>
        KeptRuns(db, t, inbox, w, PendingReference, "", TxParked(t.id));
        GainedRuns(db, t, inbox);
    }
  }

  lemma NoWallet(db: Db, t: TxRow, inbox: Option<Claim>, read: Option<TxRow>)
    ensures t.walletId !in db.wallets ==> VerdictOnNew(db, t, inbox, read) == Err(WalletNotFound)
    ensures t.walletId in db.wallets && db.wallets[t.walletId].playerId != t.playerId ==>
              VerdictOnNew(db, t, inbox, read) == Err(OwnerMismatch)
  {
  }

  lemma NewStep(db: Db, t: TxRow, inbox: Option<Claim>, read: Option<TxRow>)
    requires Inv(db) && NewRow(t) && (inbox.Some? ==> MessageOf(inbox.value) !in db.inbox)
    requires (t.providerId, t.externalId) !in db.byExt && t.idemKey !in db.byKey
    ensures WagerStep(db, t, inbox, read) == VerdictOnNew(db, t, inbox, read)
  {
    hide Inv, Run, Decide, VerdictOnNew;
    if t.walletId in db.wallets && db.wallets[t.walletId].playerId == t.playerId {
      DecidedOn(db, t, inbox, read);
    } else {
      NoWallet(db, t, inbox, read);
    }
  }

  lemma KnownStep(db: Db, t: TxRow, inbox: Option<Claim>, read: Option<TxRow>)
    requires KeysOk(db) && (t.providerId, t.externalId) in db.byExt
    ensures db.byExt[(t.providerId, t.externalId)] in db.txs && WagerStep(db, t, inbox, read) == VerdictOf(db, t, inbox, read)
  {
    hide Run;
    if !(inbox.Some? && MessageOf(inbox.value) in db.inbox) { RunInbox(db, inbox, []); }
  }

  lemma SeenStep(db: Db, t: TxRow, inbox: Option<Claim>, read: Option<TxRow>)
    requires inbox.Some? && MessageOf(inbox.value) in db.inbox && (t.providerId, t.externalId) !in db.byExt
    ensures WagerStep(db, t, inbox, read) == VerdictOf(db, t, inbox, read)
  {
  }

  lemma KeyedStep(db: Db, t: TxRow, inbox: Option<Claim>, read: Option<TxRow>)
    requires KeysOk(db) && RowsOk(db) && NewRow(t) && (inbox.Some? ==> MessageOf(inbox.value) !in db.inbox)
    requires (t.providerId, t.externalId) !in db.byExt && t.idemKey in db.byKey
    ensures WagerStep(db, t, inbox, read) == Err(Conflict)
  {
    KeyAloneConflicts(db, t);
  }

  /** Every submission, on every branch and with any unlocked read, comes to its verdict. */
  lemma StepIsVerdict(db: Db, t: TxRow, inbox: Option<Claim>, read: Option<TxRow>)
    requires Inv(db) && NewRow(t)
    ensures (t.providerId, t.externalId) in db.byExt ==> db.byExt[(t.providerId, t.externalId)] in db.txs
    ensures WagerStep(db, t, inbox, read) == VerdictOf(db, t, inbox, read)
  {
    hide KeysOk, RowsOk, LedgerOk, WalletsOk, EventsOk, WagerStep, VerdictOnNew;
    if (t.providerId, t.externalId) in db.byExt {
      KnownStep(db, t, inbox, read);
    } else if inbox.Some? && MessageOf(inbox.value) in db.inbox {
      SeenStep(db, t, inbox, read);
    } else if t.idemKey in db.byKey {
      KeyedStep(db, t, inbox, read);
    } else {
      NewStep(db, t, inbox, read);
    }
  }

  // ---------- What follows for the caller ----------

  /** The row from which a submission is answered that is not new. */
  function RowFor(db: Db, t: TxRow, inbox: Option<Claim>, read: Option<TxRow>): TxRow {
    var key := (t.providerId, t.externalId);
    if read.Some? then read.value
    else if inbox.Some? && (inbox.value.consumer, inbox.value.messageId) in db.inbox then t
    else if key in db.byExt && db.byExt[key] in db.txs then db.txs[db.byExt[key]] else t
  }

  /** The answer tells of the row that has just been recorded, and of the balance of its wallet. */
  predicate NewAnswer(db: Db, t: TxRow, done: (Db, Output)) {
    var (d, out) := done;
    && !out.replay && t.walletId in d.wallets && out.balance == d.wallets[t.walletId].balance
    && t.id !in db.txs && t.id in d.txs && out.txId == t.id && out.status == d.txs[t.id].status
    && d.txs[t.id] == t.(status := out.status, failureCode := d.txs[t.id].failureCode)
  }

  lemma KeptAnswer(db: Db, t: TxRow, inbox: Option<Claim>, w: WalletRow, status: Status, code: string, event: Event)
    requires t.walletId in db.wallets && w == db.wallets[t.walletId]
    ensures Kept(db, t, inbox, w, status, code, event).Ok? ==> NewAnswer(db, t, Kept(db, t, inbox, w, status, code, event).value)
  {
  }

  lemma PaidAnswer(db: Db, t: TxRow, inbox: Option<Claim>, w: WalletRow, direction: Direction, after: int64)
    requires t.walletId in db.wallets && w == db.wallets[t.walletId] && t.failureCode == ""
    ensures Paid(db, t, inbox, w, direction, after).Ok? ==> NewAnswer(db, t, Paid(db, t, inbox, w, direction, after).value)
  {
  }

  lemma VerdictAnswers(db: Db, t: TxRow, inbox: Option<Claim>, read: Option<TxRow>)
    requires NewRow(t)
    ensures VerdictOnNew(db, t, inbox, read).Ok? ==> NewAnswer(db, t, VerdictOnNew(db, t, inbox, read).value)
  {
    hide Kept, Paid, NewAnswer;
    if t.walletId in db.wallets {
      var w := db.wallets[t.walletId];
      forall status, code, event
        ensures Kept(db, t, inbox, w, status, code, event).Ok? ==> NewAnswer(db, t, Kept(db, t, inbox, w, status, code, event).value)
      {
        KeptAnswer(db, t, inbox, w, status, code, event);
      }
      forall direction, after
        ensures Paid(db, t, inbox, w, direction, after).Ok? ==> NewAnswer(db, t, Paid(db, t, inbox, w, direction, after).value)
      {
        PaidAnswer(db, t, inbox, w, direction, after);
      }
    }
  }

  lemma NotReplayed(db: Db, t: TxRow, v: Verdict)
    ensures v.Ok? && NewAnswer(db, t, v.value) ==> !v.value.1.replay
  {
  }

  /** A replay tells of the recorded row, and of the balance of that row's wallet. */
  predicate ReplayAnswer(db: Db, row: TxRow, done: (Db, Output)) {
    var (d, out) := done;
    d == db.(inbox := d.inbox) && row.walletId in d.wallets
    && out == Output(row.id, row.status, d.wallets[row.walletId].balance, true)
  }

  lemma RepeatedAnswer(db: Db, row: TxRow, inbox: Option<Claim>)
    ensures Repeated(db, row, db).Ok? ==> ReplayAnswer(db, row, Repeated(db, row, db).value) && Repeated(db, row, db).value.1.replay
    ensures var v := Repeated(db, row, Noted(db, inbox)); v.Ok? ==> ReplayAnswer(db, row, v.value) && v.value.1.replay
  {
  }

  /** The caller is told the balance that the wallet has afterwards: that of the wallet which the submission
      names, or for a replay that of the recorded row. */
  lemma AnswerIsBalance(db: Db, t: TxRow, inbox: Option<Claim>, read: Option<TxRow>)
    requires Inv(db) && NewRow(t) && WagerStep(db, t, inbox, read).Ok?
    ensures var done := WagerStep(db, t, inbox, read).value;
            if done.1.replay then ReplayAnswer(db, RowFor(db, t, inbox, read), done) else NewAnswer(db, t, done)
  {
    hide Inv, WagerStep, VerdictOnNew, NewAnswer, ReplayAnswer, Repeated, NewRow;
    StepIsVerdict(db, t, inbox, read);
    VerdictAnswers(db, t, inbox, read);
    NotReplayed(db, t, VerdictOnNew(db, t, inbox, read));
    RepeatedAnswer(db, RowFor(db, t, inbox, read), inbox);
  }

  lemma FreshRow(db: Db, t: TxRow, inbox: Option<Claim>)
    requires KeysOk(db) && ((t.providerId, t.externalId) in db.byExt || (inbox.Some? && MessageOf(inbox.value) in db.inbox))
    requires Existing(db, t) != Clash || (inbox.Some? && MessageOf(inbox.value) in db.inbox)
    ensures var key := (t.providerId, t.externalId);
            RowFor(db, t, inbox, FreshRead(db, t, inbox)) ==
            if key in db.byExt && db.byExt[key] in db.txs then db.txs[db.byExt[key]] else t
  {
  }

  lemma ReplaysKnown(db: Db, t: TxRow, inbox: Option<Claim>, read: Option<TxRow>)
    requires Inv(db) && NewRow(t) && WagerStep(db, t, inbox, read).Ok? && WagerStep(db, t, inbox, read).value.1.replay
    ensures (t.providerId, t.externalId) in db.byExt || (inbox.Some? && MessageOf(inbox.value) in db.inbox)
    ensures Existing(db, t) != Clash || (inbox.Some? && MessageOf(inbox.value) in db.inbox)
  {
    hide Inv, VerdictOnNew, NewAnswer, NewRow, Run, Decide, Existing;
    StepIsVerdict(db, t, inbox, read);
    VerdictAnswers(db, t, inbox, read);
    NotReplayed(db, t, VerdictOnNew(db, t, inbox, read));
  }

  /** With nothing else running: the row on record under the submission's external id, if there is one. */
  lemma OwnAnswer(db: Db, t: TxRow, inbox: Option<Claim>)
    requires Inv(db) && NewRow(t) && Wager(db, t, inbox).Ok?
    ensures var done, key := Wager(db, t, inbox).value, (t.providerId, t.externalId);
            if !done.1.replay then NewAnswer(db, t, done)
            else ReplayAnswer(db, if key in db.byExt && db.byExt[key] in db.txs then db.txs[db.byExt[key]] else t, done)
  {
    hide KeysOk, RowsOk, LedgerOk, WalletsOk, EventsOk, WagerStep, NewAnswer, ReplayAnswer, RowFor, FreshRead, Existing, NewRow;
    var read := FreshRead(db, t, inbox);
    AnswerIsBalance(db, t, inbox, read);
    if WagerStep(db, t, inbox, read).value.1.replay {
      ReplaysKnown(db, t, inbox, read);
      FreshRow(db, t, inbox);
    }
  }

  /** The submission is new, and its wallet is there and its player's. */
  predicate Admitted(db: Db, t: TxRow) {
    && (t.providerId, t.externalId) !in db.byExt && t.idemKey !in db.byKey
    && t.walletId in db.wallets && db.wallets[t.walletId].playerId == t.playerId
  }

  predicate IsReference(db: Db, t: TxRow, status: Status) {
    var key := (t.providerId, t.refExternalId);
    key in db.byExt && db.byExt[key] in db.txs && db.txs[db.byExt[key]].status == status
  }

  /** It moves money if anything: a bet that is covered, a win, or a reversal of a processed reference. */
  predicate MovesMoney(db: Db, t: TxRow)
    requires t.walletId in db.wallets
  {
    match t.kind
    case Bet => db.wallets[t.walletId].balance.amount >= t.money.amount
    case Win => true
    case Refund => IsReference(db, t, Processed)
    case Rollback => IsReference(db, t, Processed)
    case _ => false
  }

  predicate SumFits(db: Db, t: TxRow)
    requires t.walletId in db.wallets
  {
    t.kind == Bet || db.wallets[t.walletId].balance.amount as int + t.money.amount as int <= 9223372036854775807
  }

  predicate SameCurrency(db: Db, t: TxRow)
    requires t.walletId in db.wallets
  {
    t.money.currency == db.wallets[t.walletId].balance.currency
  }

  /** What a submission that is admitted can still be refused for. */
  predicate RefusedAs(db: Db, t: TxRow, r: Verdict)
    requires t.walletId in db.wallets
  {
    && (r == Err(ReferenceNotUsable) <==>
          t.kind in {Refund, Rollback} && (t.providerId, t.refExternalId) in db.byExt && !IsReference(db, t, Processed))
    && (r == Err(CurrencyMismatch) <==> (t.kind == Bet || MovesMoney(db, t)) && !SameCurrency(db, t))
    && (r == Err(BadMoney(MoneyOverflow)) <==> MovesMoney(db, t) && SameCurrency(db, t) && !SumFits(db, t))
    && (r == Err(StatementFailed) <==>
          MovesMoney(db, t) && SameCurrency(db, t) && SumFits(db, t) && t.id !in db.txs && db.wallets[t.walletId].version == MAX)
    && (r.Err? && r.error !in {ReferenceNotUsable, CurrencyMismatch, BadMoney(MoneyOverflow), StatementFailed} ==>
          r == Err(Conflict))
    && (t.id in db.txs ==> r.Err?) && (r == Err(Conflict) ==> t.id in db.txs)
  }

  lemma GainedRefusal(db: Db, t: TxRow, inbox: Option<Claim>, w: WalletRow)
    requires t.walletId in db.wallets && w == db.wallets[t.walletId] && w.balance.amount >= 0 && t.money.amount > 0
    ensures var r, sum := Gained(db, t, inbox, w), w.balance.amount as int + t.money.amount as int;
            && (r == Err(CurrencyMismatch) <==> !SameCurrency(db, t))
            && (r == Err(BadMoney(MoneyOverflow)) <==> SameCurrency(db, t) && sum > 9223372036854775807)
            && (r == Err(StatementFailed) <==>
                  SameCurrency(db, t) && sum <= 9223372036854775807 && t.id !in db.txs && w.version == MAX)
            && (r.Err? && r.error !in {CurrencyMismatch, BadMoney(MoneyOverflow), StatementFailed} ==> r == Err(Conflict))
            && (t.id in db.txs ==> r.Err?) && (r == Err(Conflict) ==> t.id in db.txs)
  {
    hide Noted, Filed, Booked, Announcement;
  }

  lemma SpentRefusal(db: Db, t: TxRow, inbox: Option<Claim>, w: WalletRow)
    requires t.walletId in db.wallets && w == db.wallets[t.walletId] && w.balance.amount >= 0 && t.money.amount > 0
    ensures var r, rest := Spent(db, t, inbox, w), w.balance.amount as int - t.money.amount as int;
            && (r == Err(CurrencyMismatch) <==> !SameCurrency(db, t))
            && (r == Err(StatementFailed) <==> SameCurrency(db, t) && rest >= 0 && t.id !in db.txs && w.version == MAX)
            && (r.Err? && r.error !in {CurrencyMismatch, StatementFailed} ==> r == Err(Conflict))
            && (t.id in db.txs ==> r.Err?) && (r == Err(Conflict) ==> t.id in db.txs)
  {
    hide Noted, Filed, Booked, Announcement;
  }

  lemma KeptRefusal(db: Db, t: TxRow, inbox: Option<Claim>, w: WalletRow, status: Status, code: string, event: Event)
    ensures var r := Kept(db, t, inbox, w, status, code, event); (r.Err? <==> r == Err(Conflict)) && (r.Err? <==> t.id in db.txs)
  {
  }

  lemma PlainRefusal(db: Db, t: TxRow, inbox: Option<Claim>, read: Option<TxRow>)
    requires NewRow(t) && t.kind in {Bet, Win} && Admitted(db, t) && db.wallets[t.walletId].balance.amount >= 0
    ensures RefusedAs(db, t, VerdictOnNew(db, t, inbox, read))
  {
    hide Gained, Spent, Kept, SameCurrency, IsReference;
    SpentRefusal(db, t, inbox, db.wallets[t.walletId]);
    GainedRefusal(db, t, inbox, db.wallets[t.walletId]);
  }

  lemma LossRefusal(db: Db, t: TxRow, inbox: Option<Claim>, read: Option<TxRow>)
    requires t.kind == Loss && Admitted(db, t)
    ensures RefusedAs(db, t, VerdictOnNew(db, t, inbox, read))
  {
    hide Gained, Spent, Kept, SameCurrency, IsReference;
    KeptRefusal(db, t, inbox, db.wallets[t.walletId], Processed, "", TxProcessed(t.id));
  }

  lemma ReferenceIs(db: Db, t: TxRow)
    requires KeysOk(db)
    ensures var read := FindByExternalId(db, (t.providerId, t.refExternalId));
            && (read.Some? <==> (t.providerId, t.refExternalId) in db.byExt)
            && (IsReference(db, t, Processed) <==> read.Some? && read.value.status == Processed)
  {
  }

  lemma ReversalRefusal(db: Db, t: TxRow, inbox: Option<Claim>, read: Option<TxRow>)
    requires KeysOk(db) && NewRow(t) && t.kind in {Refund, Rollback} && Admitted(db, t) && db.wallets[t.walletId].balance.amount >= 0
    requires read == FindByExternalId(db, (t.providerId, t.refExternalId))
    ensures RefusedAs(db, t, VerdictOnNew(db, t, inbox, read))
  {
    hide KeysOk, Gained, Kept, SameCurrency, IsReference, FindByExternalId;
    ReferenceIs(db, t);
    KeptRefusal(db, t, inbox, db.wallets[t.walletId], PendingReference, "", TxParked(t.id));
    GainedRefusal(db, t, inbox, db.wallets[t.walletId]);
  }

  lemma AdmittedRefusal(db: Db, t: TxRow, inbox: Option<Claim>, read: Option<TxRow>)
    requires KeysOk(db) && NewRow(t) && Admitted(db, t) && db.wallets[t.walletId].balance.amount >= 0
    requires t.kind in {Refund, Rollback} ==> read == FindByExternalId(db, (t.providerId, t.refExternalId))
    ensures RefusedAs(db, t, VerdictOnNew(db, t, inbox, read))
  {
    hide KeysOk, RefusedAs;
    var w := db.wallets[t.walletId];
    match t.kind {
      case Loss => LossRefusal(db, t, inbox, read);
      case Refund => ReversalRefusal(db, t, inbox, read);
      case Rollback => ReversalRefusal(db, t, inbox, read);
      case _ => PlainRefusal(db, t, inbox, read);
    }
  }

  /** A known submission is replayed or conflicts; the wallet of its row is there. */
  lemma KnownRefusal(db: Db, t: TxRow, inbox: Option<Claim>, read: Option<TxRow>)
    requires Inv(db) && NewRow(t) && (inbox.Some? ==> MessageOf(inbox.value) !in db.inbox)
    requires (t.providerId, t.externalId) in db.byExt || t.idemKey in db.byKey
    requires read == FreshRead(db, t, inbox)
    ensures var r, key := WagerStep(db, t, inbox, read), (t.providerId, t.externalId);
            if key in db.byExt && db.byExt[key] in db.txs && db.txs[db.byExt[key]].hash == t.hash then r.Ok? else r == Err(Conflict)
  {
    hide LedgerOk, WalletsOk, EventsOk, Run;
    if (t.providerId, t.externalId) in db.byExt { RunInbox(db, inbox, []); } else { KeyAloneConflicts(db, t); }
  }

  /** When a submission is refused, with which error, and only then, unless its message was seen before. */
  lemma RefusedWhen(db: Db, t: TxRow, inbox: Option<Claim>)
    requires Inv(db) && NewRow(t) && (inbox.Some? ==> MessageOf(inbox.value) !in db.inbox)
    ensures var r, key := Wager(db, t, inbox), (t.providerId, t.externalId);
            var unknown := key !in db.byExt && t.idemKey !in db.byKey;
            && (r == Err(WalletNotFound) <==> unknown && t.walletId !in db.wallets)
            && (r == Err(OwnerMismatch) <==>
                  unknown && t.walletId in db.wallets && db.wallets[t.walletId].playerId != t.playerId)
            && (Admitted(db, t) ==> RefusedAs(db, t, r))
            && (!unknown ==> if key in db.byExt && db.byExt[key] in db.txs && db.txs[db.byExt[key]].hash == t.hash
                             then r.Ok? else r == Err(Conflict))
  {
    hide KeysOk, RowsOk, LedgerOk, WalletsOk, EventsOk, WagerStep, Run, VerdictOnNew, MovesMoney, SameCurrency, SumFits, IsReference;
    var read := FreshRead(db, t, inbox);
    StepIsVerdict(db, t, inbox, read);
    if (t.providerId, t.externalId) !in db.byExt && t.idemKey !in db.byKey {
      NoWallet(db, t, inbox, read);
      if Admitted(db, t) {
        WalletFacts(db, t.walletId);
        AdmittedRefusal(db, t, inbox, read);
      }
    } else {
      KnownRefusal(db, t, inbox, read);
    }
  }
}
