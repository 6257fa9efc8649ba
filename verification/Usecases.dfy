/** The use cases statement by statement, as the code writes them, each proved against its atomic
    step. */
module Usecases {
  import opened Amounts
  import opened Records
  import opened Tables
  import opened Steps
  import opened Invariants
  import opened Preservation
  import opened Sessions
  import opened Verdicts

  lemma TakeDrop<T>(s: seq<T>, k: nat)
    requires k <= |s|
    ensures s[..k] + s[k..] == s
  {
  }

  /** A statement of a plan fails exactly where running the whole plan fails. */
  lemma PlanFails(db: Db, plan: seq<Write>, k: nat)
    requires k < |plan| && Run(db, plan[..k]).Ok? && Check(Run(db, plan[..k]).value, plan[k]).Some?
    ensures Run(db, plan) == Err(Check(Run(db, plan[..k]).value, plan[k]).value)
  {
    hide Run, Check, Apply;
    RunSnoc(db, plan[..k], plan[k]);
    assert plan[..k] + [plan[k]] == plan[..k + 1];
    TakeDrop(plan, k + 1);
    RunAppend(db, plan[..k + 1], plan[k + 1..]);
  }

  function Failure<T>(r: Result<T, Error>): Option<Error> {
    match r case Ok(_) => None case Err(e) => Some(e)
  }

  /** The inbox row a transaction has inserted changes none of its reads. */
  lemma InboxView(db: Db, inbox: Option<Claim>, t: TxRow)
    requires inbox.Some? ==> MessageOf(inbox.value) !in db.inbox
    ensures Run(db, InboxWrites(inbox)) == Ok(WithInbox(db, inbox))
    ensures Existing(WithInbox(db, inbox), t) == Existing(db, t) && WithInbox(db, inbox).wallets == db.wallets
    ensures FindByExternalId(WithInbox(db, inbox), RefOf(t)) == FindByExternalId(db, RefOf(t))
  {
    RunInbox(db, inbox, []);
  }

  lemma NotDuplicate(w: Write)
    requires !w.InsTx?
    ensures forall db :: Check(db, w) != Some(DuplicateTransaction)
  {
  }

  /** The three statements of a movement stand after position n of a plan. */
  predicate MovementAt(plan: seq<Write>, n: nat, t: TxRow, w': WalletRow, expected: int64, before: int64, dir: Direction)
    requires n + 5 == |plan|
  {
    var e := EntryFor(t, dir, before, w'.balance.amount);
    plan[n + 1] == UpdWallet(w', expected) && plan[n + 2] == InsEntry(e)
    && plan[n + 3] == InsEvent(EventFor(e, t.money.currency, w'.version))
  }

  lemma MovePlan(t: TxRow, w: WalletRow, w': WalletRow, dir: Direction, base: seq<Write>)
    ensures var plan, n := base + MoveWrites(t, w, w', dir), |base|;
            && |plan| == n + 5 && plan[..n] == base && plan[n] == InsTx(t.(status := Processed))
            && MovementAt(plan, n, t, w', w.version, w.balance.amount, dir) && plan[n + 4] == InsEvent(TxProcessed(t.id))
  {
  }

  /** What the code reports when a statement of a plan fails: after a duplicate row it goes on querying,
      which PostgreSQL's rule refuses; it queries after no other failure. */
  function Reported(e: Error, strict: bool): Error {
    if e == DuplicateTransaction && strict then TransactionAborted else Surface(e)
  }

  /** The same for the error of an atomic step: a conflict that the lookups did not find is a duplicate. */
  function StepError(db: Db, t: TxRow, e: Error, strict: bool): Error {
    if strict && e == Conflict && Existing(db, t).Absent? then TransactionAborted else e
  }

  lemma {:induction false} RunNeverConflicts(db: Db, ws: seq<Write>)
    ensures Run(db, ws) != Err(Conflict)
  {
    hide Apply;
    if ws != [] { RunNeverConflicts(db, ws[..|ws| - 1]); }
  }

  lemma DecideNeverConflicts(t: TxRow, w: WalletRow, read: Option<TxRow>)
    ensures Decide(t, w, read) != Refuse(Conflict)
  {
    hide Add, Subtract, MoveWrites;
  }

  /** How a served submission relates to its atomic step. Under PostgreSQL's rule a repeated message
      cannot be answered: its failed insert aborts the transaction. */
  predicate Served(db: Db, db': Db, t: TxRow, inbox: Option<Claim>, strict: bool, r: Result<Output, Error>) {
    if strict && inbox.Some? && MessageOf(inbox.value) in db.inbox then r == Err(TransactionAborted) && db' == db
    else match Wager(db, t, inbox)
      case Ok((d, out)) => r == Ok(out) && db' == d
      case Err(e) => r == Err(StepError(db, t, e, strict)) && db' == db
  }

  /** A decision was carried out: all its statements executed and nothing else, or the first that failed
      decided the answer. */
  predicate CarriedOut(db: Db, done: seq<Write>, aborted: bool, strict: bool, inbox: Option<Claim>,
                       d: Decision, r: Result<Output, Error>) {
    match d
    case Refuse(e) => r == Err(e)
    case Plan(writes, out) =>
      match Run(db, InboxWrites(inbox) + writes)
      case Ok(_) => r == Ok(out) && !aborted && done == InboxWrites(inbox) + writes
      case Err(e) => r == Err(Reported(e, strict))
  }

  lemma RefusalCarriedOut(db: Db, done: seq<Write>, aborted: bool, strict: bool, inbox: Option<Claim>, e: Error)
    ensures CarriedOut(db, done, aborted, strict, inbox, Refuse(e), Err(e))
  {
  }

  /** A new submission that is served is answered with what it leaves behind. */
  lemma ServedAnswer(db: Db, db': Db, t: TxRow, inbox: Option<Claim>, strict: bool, r: Result<Output, Error>)
    requires Inv(db) && NewRow(t) && Served(db, db', t, inbox, strict, r)
    ensures r.Ok? && !r.value.replay ==>
              && r.value.txId == t.id && t.id in db'.txs && r.value.status == db'.txs[t.id].status
              && t.walletId in db'.wallets && r.value.balance == db'.wallets[t.walletId].balance
  {
    hide Inv, WagerStep;
    if r.Ok? { AnswerIsBalance(db, t, inbox, FreshRead(db, t, inbox)); }
  }

  lemma PreparedIds(s: Submission, money: Money)
    requires NewTransaction(s, money).Ok?
    ensures var t := NewTransaction(s, money).value; t.id == "tx_" + s.providerId + "_" + s.externalId && t.walletId == s.walletId
  {
    hide Print, KindOf, Trim;
  }

  lemma SeenErrors(db: Db, t: TxRow, inbox: Option<Claim>)
    requires inbox.Some? && MessageOf(inbox.value) in db.inbox
    ensures Wager(db, t, inbox).Err? ==> Wager(db, t, inbox) == Err(WalletNotFound)
  {
    hide FreshRead;
  }

  lemma AbsentWhen(db: Db, t: TxRow)
    requires Inv(db)
    ensures Existing(db, t).Absent? <==> (t.providerId, t.externalId) !in db.byExt && t.idemKey !in db.byKey
  {
    hide RowsOk, LedgerOk, WalletsOk, EventsOk;
    assert KeysOk(db);
  }

  /** Under PostgreSQL's rule a submission ends as an aborted transaction if and only if its message was seen
      before, or its row meets a duplicate that neither lookup has found: a taken internal id. */
  lemma AbortedWhen(db: Db, db': Db, t: TxRow, inbox: Option<Claim>, strict: bool, r: Result<Output, Error>)
    requires Inv(db) && NewRow(t) && Served(db, db', t, inbox, strict, r)
    ensures r == Err(TransactionAborted) <==>
            strict && ((inbox.Some? && (inbox.value.consumer, inbox.value.messageId) in db.inbox)
                       || ((t.providerId, t.externalId) !in db.byExt && t.idemKey !in db.byKey && t.id in db.txs
                           && Wager(db, t, inbox) == Err(Conflict)))
    ensures !strict ==> r == match Wager(db, t, inbox) case Ok((_, out)) => Ok(out) case Err(e) => Err(e)
  {
    hide Inv, Wager, Existing;
    if inbox.Some? && MessageOf(inbox.value) in db.inbox {
      SeenErrors(db, t, inbox);
    } else {
      RefusedWhen(db, t, inbox);
      AbsentWhen(db, t);
    }
  }

  class WagerUsecase {
    const supported: seq<string>
    const tx: Session

    constructor (supported: seq<string>, tx: Session)
      ensures this.supported == supported && this.tx == tx
    {
      this.supported, this.tx := supported, tx;
    }

    /** lookupExisting. */
    method LookupExisting(t: TxRow) returns (r: Result<Option<TxRow>, Error>)
      requires tx.Valid()
      ensures if tx.aborted then r == Err(TransactionAborted)
              else r == match Existing(tx.View(), t) case Clash => Err(Conflict) case Same(row) => Ok(Some(row)) case Absent => Ok(None)
    {
      var byExternal := tx.FindByExternalIDTx(ExtOf(t));
      match byExternal {
        case Err(e) => return Err(e);
        case Ok(Some(row)) => return if row.hash != t.hash then Err(Conflict) else Ok(Some(row));
        case Ok(None) =>
      }
      var byKey := tx.FindByIdempotencyKeyTx(t.idemKey);
      match byKey {
        case Err(e) => return Err(e);
        case Ok(Some(row)) => return if row.hash != t.hash then Err(Conflict) else Ok(Some(row));
        case Ok(None) => return Ok(None);
      }
    }

    /** Locks the wallet of a recorded row and answers from both. */
    method Replay(row: TxRow) returns (r: Result<Output, Error>)
      requires tx.Valid() && (!tx.aborted ==> WalletsRead(tx.View()))
      modifies tx`walletLocks
      ensures r == if tx.aborted then Err(TransactionAborted) else AnswerFrom(tx.View(), row)
    {
      var existing := new Domain.WagerTransaction(row);
      var wallet := tx.FindByIDWithLock(row.walletId);
      if wallet.Err? { return Err(wallet.error); }
      existing.MarkAsIdempotentReplay();
      return Ok(Output(row.id, existing.status, wallet.value.balance, existing.idempotentReplay));
    }

    /** handleSaveConflict: a duplicate row is answered from if it records the same payload. */
    method HandleSaveConflict(t: TxRow, saveErr: Error) returns (r: Result<Output, Error>)
      requires tx.Valid() && (!tx.aborted ==> WalletsRead(tx.View()))
      modifies tx`walletLocks
      ensures r == if saveErr != DuplicateTransaction then Err(saveErr)
                   else if tx.aborted then Err(TransactionAborted)
                   else match Existing(tx.View(), t) case Same(row) => AnswerFrom(tx.View(), row) case _ => Err(Conflict)
    {
      if saveErr != DuplicateTransaction { return Err(saveErr); }
      var existing := LookupExisting(t);
      match existing {
        case Err(e) => return Err(e);
        case Ok(None) => return Err(Conflict);
        case Ok(Some(row)) => r := Replay(row);
      }
    }

    /** The wallet, the entry and the announcement of a movement
        (internal/usecase/wager_usecase.go:252-279). */
    method WriteMovement(t: TxRow, wallet: Domain.Wallet, expectedVersion: int64, balanceBefore: int64, direction: Direction,
                         ghost plan: seq<Write>, ghost n: nat)
      returns (err: Option<Error>)
      requires tx.Valid() && !tx.aborted && n + 5 == |plan| && tx.done == plan[..n + 1]
      requires wallet.id in tx.walletLocks
      requires MovementAt(plan, n, t, wallet.Value(), expectedVersion, balanceBefore, direction)
      modifies tx`done, tx`aborted
      ensures tx.Valid()
      ensures if err.Some? then Run(tx.committed, plan) == Err(err.value) && err != Some(DuplicateTransaction)
              else !tx.aborted && tx.done == plan[..n + 4]
    {
      hide Run, Check, Apply;
      err := tx.Exec(UpdWallet(wallet.Value(), expectedVersion));
      if err.Some? { PlanFails(tx.committed, plan, n + 1); NotDuplicate(plan[n + 1]); return; }
      assert plan[..n + 2] == tx.done;
      var entry := EntryFor(t, direction, balanceBefore, wallet.balance.amount);
      err := tx.Exec(InsEntry(entry));
      if err.Some? { PlanFails(tx.committed, plan, n + 2); NotDuplicate(plan[n + 2]); return; }
      assert plan[..n + 3] == tx.done;
      err := tx.Exec(InsEvent(EventFor(entry, t.money.currency, wallet.version)));
      if err.Some? { PlanFails(tx.committed, plan, n + 3); NotDuplicate(plan[n + 3]); return; }
      assert plan[..n + 4] == tx.done;
    }

    /** The row, the movement if there is one, and the event
        (internal/usecase/wager_usecase.go:228-288). */
    method Persist(wagerTx: Domain.WagerTransaction, t: TxRow, wallet: Domain.Wallet, expectedVersion: int64,
                   balanceBefore: int64, direction: Option<Direction>, ev: Event, ghost plan: seq<Write>, ghost n: nat)
      returns (r: Result<Output, Error>)
      requires tx.Valid() && !tx.aborted && n < |plan| && tx.done == plan[..n] && Existing(tx.View(), t).Absent? && WalletsRead(tx.View())
      requires wagerTx.fixed.id == t.id && plan[n] == InsTx(wagerTx.Value()) && plan[|plan| - 1] == InsEvent(ev)
      requires n + (if direction.Some? then 5 else 2) == |plan|
      requires direction.Some? ==> wallet.id in tx.walletLocks
      requires direction.Some? ==> MovementAt(plan, n, t, wallet.Value(), expectedVersion, balanceBefore, direction.value)
      modifies tx`done, tx`aborted, tx`walletLocks
      ensures tx.Valid()
      ensures match Run(tx.committed, plan)
              case Ok(_) => r == Ok(Output(t.id, wagerTx.status, wallet.balance, false)) && !tx.aborted && tx.done == plan
              case Err(e) => r == Err(Reported(e, tx.strict))
    {
      hide Run, Check, Apply, Existing, MovementAt;
      var err := tx.Exec(InsTx(wagerTx.Value()));
      if err.Some? {
        PlanFails(tx.committed, plan, n);
        r := HandleSaveConflict(t, err.value);
        return;
      }
      assert plan[..n + 1] == tx.done;
      if direction.Some? {
        err := WriteMovement(t, wallet, expectedVersion, balanceBefore, direction.value, plan, n);
        if err.Some? { return Err(err.value); }
      }
      err := tx.Exec(InsEvent(ev));
      if err.Some? { PlanFails(tx.committed, plan, |plan| - 1); NotDuplicate(plan[|plan| - 1]); return Err(err.value); }
      assert plan == tx.done;
      return Ok(Output(t.id, wagerTx.status, wallet.balance, false));
    }

    /** A row and its event, with no movement. */
    method Record(wagerTx: Domain.WagerTransaction, t: TxRow, wallet: Domain.Wallet, ev: Event, ghost inbox: Option<Claim>)
      returns (r: Result<Output, Error>)
      requires tx.Valid() && !tx.aborted && tx.done == InboxWrites(inbox) && Existing(tx.View(), t).Absent? && WalletsRead(tx.View())
      requires wagerTx.Value() == t.(status := wagerTx.status, failureCode := wagerTx.failureCode) && wallet.id == t.walletId
      modifies tx`done, tx`aborted, tx`walletLocks
      ensures tx.Valid()
      ensures CarriedOut(tx.committed, tx.done, tx.aborted, tx.strict, inbox,
                         PlanRecord(t, wallet.Value(), wagerTx.status, wagerTx.failureCode, ev), r)
    {
      hide Run, Check, Apply, Existing;
      ghost var writes := [InsTx(wagerTx.Value()), InsEvent(ev)];
      ghost var plan, n := InboxWrites(inbox) + writes, |InboxWrites(inbox)|;
      assert plan[..n] == InboxWrites(inbox);
      r := Persist(wagerTx, t, wallet, wallet.version, wallet.balance.amount, None, ev, plan, n);
    }

    /** A movement on a wallet that has been debited or credited. */
    method Move(wagerTx: Domain.WagerTransaction, t: TxRow, wallet: Domain.Wallet, direction: Direction,
                expectedVersion: int64, balanceBefore: int64, ghost inbox: Option<Claim>, ghost w: WalletRow)
      returns (r: Result<Output, Error>)
      requires tx.Valid() && !tx.aborted && tx.done == InboxWrites(inbox) && Existing(tx.View(), t).Absent? && WalletsRead(tx.View())
      requires wagerTx.Value() == t.(status := Processed) && wallet.id == t.walletId && wallet.id in tx.walletLocks
      requires expectedVersion == w.version && balanceBefore == w.balance.amount
      modifies tx`done, tx`aborted, tx`walletLocks
      ensures tx.Valid()
      ensures CarriedOut(tx.committed, tx.done, tx.aborted, tx.strict, inbox,
                         PlanMove(t, w, Ok(wallet.Value()), direction), r)
    {
      hide Run, Check, Apply, Existing, MoveWrites;
      ghost var plan, n := InboxWrites(inbox) + MoveWrites(t, w, wallet.Value(), direction), |InboxWrites(inbox)|;
      MovePlan(t, w, wallet.Value(), direction, InboxWrites(inbox));
      r := Persist(wagerTx, t, wallet, expectedVersion, balanceBefore, Some(direction), TxProcessed(t.id), plan, n);
    }

    /** A bet (internal/usecase/wager_usecase.go:176-195). */
    method Bet(t: TxRow, wagerTx: Domain.WagerTransaction, wallet: Domain.Wallet, ghost inbox: Option<Claim>)
      returns (r: Result<Output, Error>)
      requires tx.Valid() && !tx.aborted && tx.done == InboxWrites(inbox) && Existing(tx.View(), t).Absent? && WalletsRead(tx.View())
      requires t.kind == Kind.Bet && t.status == Pending && wagerTx.Value() == t && wallet.id == t.walletId && wallet.id in tx.walletLocks
      modifies tx`done, tx`aborted, tx`walletLocks, wagerTx, wallet
      ensures tx.Valid()
      ensures CarriedOut(tx.committed, tx.done, tx.aborted, tx.strict, inbox, Decide(t, old(wallet.Value()), None), r)
    {
      hide Run, Check, Apply, Existing, MoveWrites, DebitRow;
      ghost var w := wallet.Value();
      var expectedVersion, balanceBefore := wallet.version, wallet.balance.amount;
      var err := wallet.Debit(t.money);
      if err == Some(InsufficientBalance) {
        var bad := wagerTx.TransitionToRejected("INSUFFICIENT_BALANCE");
        r := Record(wagerTx, t, wallet, TxRejected(t.id), inbox);
        return;
      }
      if err.Some? { return Err(err.value); }
      var bad := wagerTx.TransitionToProcessed();
      r := Move(wagerTx, t, wallet, Debit, expectedVersion, balanceBefore, inbox, w);
    }

    /** A win, or a reversal of a processed reference (internal/usecase/wager_usecase.go:198-202, 217-221). */
    method CreditWallet(t: TxRow, wagerTx: Domain.WagerTransaction, wallet: Domain.Wallet, ghost inbox: Option<Claim>)
      returns (r: Result<Output, Error>)
      requires tx.Valid() && !tx.aborted && tx.done == InboxWrites(inbox) && Existing(tx.View(), t).Absent? && WalletsRead(tx.View())
      requires t.status == Pending && wagerTx.Value() == t && wallet.id == t.walletId && wallet.id in tx.walletLocks
      modifies tx`done, tx`aborted, tx`walletLocks, wagerTx, wallet
      ensures tx.Valid()
      ensures CarriedOut(tx.committed, tx.done, tx.aborted, tx.strict, inbox,
                         PlanMove(t, old(wallet.Value()), CreditRow(old(wallet.Value()), t.money), Credit), r)
    {
      hide Run, Check, Apply, Existing, MoveWrites, CreditRow;
      ghost var w := wallet.Value();
      var expectedVersion, balanceBefore := wallet.version, wallet.balance.amount;
      var err := wallet.Credit(t.money);
      if err.Some? { return Err(err.value); }
      var bad := wagerTx.TransitionToProcessed();
      r := Move(wagerTx, t, wallet, Credit, expectedVersion, balanceBefore, inbox, w);
    }

    /** What each kind does (internal/usecase/wager_usecase.go:175-288). */
    method Dispatch(t: TxRow, wallet: Domain.Wallet, ghost inbox: Option<Claim>) returns (r: Result<Output, Error>)
      requires tx.Valid() && !tx.aborted && tx.done == InboxWrites(inbox) && Existing(tx.View(), t).Absent? && WalletsRead(tx.View())
      requires t.status == Pending && t.failureCode == "" && wallet.id == t.walletId && wallet.id in tx.walletLocks
      modifies tx`done, tx`aborted, tx`walletLocks, wallet
      ensures tx.Valid()
      ensures var read := if IsReversal(t.kind) then FindByExternalId(old(tx.View()), RefOf(t)) else None;
              CarriedOut(tx.committed, tx.done, tx.aborted, tx.strict, inbox, Decide(t, old(wallet.Value()), read), r)
    {
      hide Run, Check, Apply, Existing, MoveWrites, CreditRow, DebitRow, FindByExternalId, CarriedOut;
      var wagerTx := new Domain.WagerTransaction(t);
      if t.kind == Kind.Bet {
        r := Bet(t, wagerTx, wallet, inbox);
      } else if t.kind == Win {
        r := CreditWallet(t, wagerTx, wallet, inbox);
      } else if t.kind == Loss {
        var bad := wagerTx.TransitionToProcessed();
        r := Record(wagerTx, t, wallet, TxProcessed(t.id), inbox);
      } else if IsReversal(t.kind) {
        var ref := tx.FindByExternalIDTx(RefOf(t));
        if ref.Ok? && ref.value.None? {
          var bad := wagerTx.TransitionToPendingReference();
          r := Record(wagerTx, t, wallet, TxParked(t.id), inbox);
        } else if ref.Ok? && ref.value.value.status != Processed {
          RefusalCarriedOut(tx.committed, tx.done, tx.aborted, tx.strict, inbox, ReferenceNotUsable);
          r := Err(ReferenceNotUsable);
        } else {
          r := CreditWallet(t, wagerTx, wallet, inbox);
        }
      } else {
        RefusalCarriedOut(tx.committed, tx.done, tx.aborted, tx.strict, inbox, InvalidKind);
        r := Err(InvalidKind);
      }
    }

    /** Locks the wallet and checks its owner; then decides and persists
        (internal/usecase/wager_usecase.go:161-288). */
    method Process(t: TxRow, ghost inbox: Option<Claim>) returns (r: Result<Output, Error>)
      requires tx.Valid() && !tx.aborted && NewRow(t) && tx.done == InboxWrites(inbox)
      requires inbox.Some? ==> MessageOf(inbox.value) !in tx.committed.inbox
      requires Existing(tx.committed, t).Absent? && KeysOk(tx.committed) && WalletsRead(tx.committed)
      modifies tx`done, tx`aborted, tx`walletLocks
      ensures tx.Valid()
      ensures match Wager(tx.committed, t, inbox)
              case Ok((d, out)) => r == Ok(out) && !tx.aborted && Run(tx.committed, tx.done) == Ok(d)
              case Err(e) => r == Err(StepError(tx.committed, t, e, tx.strict))
    {
      hide Run, Check, Apply, Existing, Decide, FindByExternalId, KeysOk;
      WalletKeyed(tx.committed, t.walletId);
      InboxView(tx.committed, inbox, t);
      var wallet := tx.FindByIDWithLock(t.walletId);
      if wallet.Err? { return Err(wallet.error); }
      if wallet.value.playerId != t.playerId { return Err(OwnerMismatch); }
      ghost var d := Decide(t, wallet.value.Value(), FreshRead(tx.committed, t, inbox));
      DecideNeverConflicts(t, wallet.value.Value(), FreshRead(tx.committed, t, inbox));
      if d.Plan? { RunNeverConflicts(tx.committed, InboxWrites(inbox) + d.writes); }
      r := Dispatch(t, wallet.value, inbox);
    }

    /** The callback of ProcessTransactionWithInbox. */
    method Submit(t: TxRow, inbox: Option<Claim>) returns (r: Result<Output, Error>)
      requires tx.Idle() && NewRow(t) && KeysOk(tx.committed) && WalletsRead(tx.committed)
      modifies tx`done, tx`aborted, tx`walletLocks
      ensures tx.Valid()
      ensures if tx.strict && inbox.Some? && MessageOf(inbox.value) in tx.committed.inbox then r == Err(TransactionAborted)
              else match Wager(tx.committed, t, inbox)
                case Ok((d, out)) => r == Ok(out) && !tx.aborted && Run(tx.committed, tx.done) == Ok(d)
                case Err(e) => r == Err(StepError(tx.committed, t, e, tx.strict))
    {
      if inbox.Some? {
        assert tx.View() == tx.committed;
        var err := tx.Exec(InsInbox(inbox.value));
        if err.Some? {
          // A repeated message: answer from the recorded row, or acknowledge without one.
          var found := tx.FindByExternalIDTx(ExtOf(t));
          if found.Err? { return Err(found.error); }
          r := Replay(if found.value.Some? then found.value.value else t);
          return;
        }
        assert tx.done == InboxWrites(inbox);
      }
      InboxView(tx.committed, inbox, t);
      var existing := LookupExisting(t);
      if existing.Err? { return Err(existing.error); }
      if existing.value.Some? {
        r := Replay(existing.value.value);
        return;
      }
      r := Process(t, inbox);
    }

    /** The whole use case: validate, then commit the callback's work or roll it back. */
    method ProcessTransactionWithInbox(input: Submission, inbox: Option<Claim>) returns (r: Result<Output, Error>)
      requires tx.Idle() && KeysOk(tx.committed) && WalletsRead(tx.committed)
      modifies tx
      ensures tx.Idle()
      ensures match Prepare(input, supported)
              case Err(e) => r == Err(e) && tx.committed == old(tx.committed)
              case Ok(t) => Served(old(tx.committed), tx.committed, t, inbox, tx.strict, r)
      ensures r.Ok? && !r.value.replay && Inv(old(tx.committed)) ==>
                && r.value.txId == "tx_" + input.providerId + "_" + input.externalId && r.value.txId in tx.committed.txs
                && r.value.status == tx.committed.txs[r.value.txId].status
                && input.walletId in tx.committed.wallets && r.value.balance == tx.committed.wallets[input.walletId].balance
    {
      hide Parse, NewTransaction, Wager, Check, Apply, KeysOk, Inv;
      var money := Parse(input.amount, input.currency);
      if money.Err? { return Err(BadMoney(money.error)); }
      if !Supported(money.value.currency, supported) { return Err(CurrencyNotSupported); }
      var t := NewTransaction(input, money.value);
      if t.Err? { return Err(t.error); }
      PrepareGivesNewRow(input, supported);
      PreparedIds(input, money.value);
      ghost var db := tx.committed;
      r := Submit(t.value, inbox);
      if r.Err? {
        tx.Rollback();
        return;
      }
      var err := tx.Commit();
      match err {
        case Some(e) => return Err(e);
        case None =>
      }
      if Inv(db) { ServedAnswer(db, tx.committed, t.value, inbox, tx.strict, r); }
    }

    /** Parks a row again, or stores its rejection. */
    method Shelve(pending: Domain.WagerTransaction, row: TxRow, ghost read: Option<TxRow>) returns (err: Option<Error>)
      requires tx.Valid() && tx.done == [] && !tx.aborted && row.id in tx.rowLocks && ShelveWrites(row, read) == [UpdTx(pending.Value())]
      modifies tx`done, tx`aborted
      ensures tx.Valid()
      ensures match Run(tx.committed, ShelveWrites(row, read))
              case Ok(_) => err == None && !tx.aborted && tx.done == ShelveWrites(row, read)
              case Err(e) => err == Some(e)
    {
      hide Run, Check, Apply;
      RunNothing(tx.committed);
      Run1(tx.committed, UpdTx(pending.Value()));
      assert [] + [UpdTx(pending.Value())] == [UpdTx(pending.Value())];
      err := tx.Exec(UpdTx(pending.Value()));
    }

    /** The row, the wallet, the entry and the two events of a settlement
        (internal/usecase/wager_usecase.go:344-375). */
    method WriteSettlement(pending: Domain.WagerTransaction, row: TxRow, wallet: Domain.Wallet,
                           expectedVersion: int64, balanceBefore: int64, ghost w: WalletRow)
      returns (err: Option<Error>)
      requires tx.Valid() && tx.done == [] && !tx.aborted && pending.Value() == row.(status := Processed) && wallet.id == row.walletId
      requires row.id in tx.rowLocks && wallet.id in tx.walletLocks
      requires expectedVersion == w.version && balanceBefore == w.balance.amount
      modifies tx`done, tx`aborted
      ensures tx.Valid()
      ensures match Run(tx.committed, SettleWrites(row, w, wallet.Value()))
              case Ok(_) => err == None && !tx.aborted && tx.done == SettleWrites(row, w, wallet.Value())
              case Err(e) => err == Some(e)
    {
      hide Run, Check, Apply;
      ghost var plan := SettleWrites(row, w, wallet.Value());
      RunNothing(tx.committed);
      err := tx.Exec(UpdTx(pending.Value()));
      if err.Some? { PlanFails(tx.committed, plan, 0); return; }
      assert plan[..1] == tx.done;
      err := tx.Exec(UpdWallet(wallet.Value(), expectedVersion));
      if err.Some? { PlanFails(tx.committed, plan, 1); return; }
      assert plan[..2] == tx.done;
      var entry := EntryFor(row, Credit, balanceBefore, wallet.balance.amount);
      err := tx.Exec(InsEntry(entry));
      if err.Some? { PlanFails(tx.committed, plan, 2); return; }
      assert plan[..3] == tx.done;
      err := tx.Exec(InsEvent(TxProcessed(row.id)));
      if err.Some? { PlanFails(tx.committed, plan, 3); return; }
      assert plan[..4] == tx.done;
      err := tx.Exec(InsEvent(EventFor(entry, row.money.currency, wallet.version)));
      if err.Some? { PlanFails(tx.committed, plan, 4); return; }
      assert plan == tx.done;
    }

    /** The callback of ResolvePendingReference. */
    method Settle(id: string) returns (err: Option<Error>)
      requires tx.Idle() && KeysOk(tx.committed) && WalletsRead(tx.committed)
      modifies tx`done, tx`aborted, tx`walletLocks, tx`rowLocks
      ensures tx.Valid()
      ensures match Resolve(tx.committed, id)
              case Ok(d) => err == None && !tx.aborted && Run(tx.committed, tx.done) == Ok(d)
              case Err(e) => err == Some(e)
    {
      hide Run, Check, Apply, CreditRow, FindByExternalId, SettleWrites, KeysOk;
      RunNothing(tx.committed);
      KeyedRow(tx.committed, id);
      var found := tx.FindByIDForUpdate(id);
      err := Failure(found);
      if err.Some? { return; }
      if found.value.None? || found.value.value.status != PendingReference { return None; }
      var row := found.value.value;
      var pending := new Domain.WagerTransaction(row);
      var ref := tx.FindByExternalIDTx(RefOf(row));
      err := Failure(ref);
      if err.Some? { return; }
      assert ReferenceOf(tx.committed, id) == ref.value;
      if ref.value.None? {
        err := Shelve(pending, row, ref.value);
        return;
      }
      if ref.value.value.status != Processed {
        err := pending.TransitionToRejected("INVALID_REFERENCE");
        err := Shelve(pending, row, ref.value);
        return;
      }
      WalletKeyed(tx.committed, row.walletId);
      var wallet := tx.FindByIDWithLock(row.walletId);
      err := Failure(wallet);
      if err.Some? { return; }
      ghost var w := wallet.value.Value();
      var expectedVersion, balanceBefore := wallet.value.version, wallet.value.balance.amount;
      err := wallet.value.Credit(row.money);
      if err.Some? { return; }
      err := pending.TransitionToProcessed();
      err := WriteSettlement(pending, row, wallet.value, expectedVersion, balanceBefore, w);
    }

    method ResolvePendingReference(id: string) returns (err: Option<Error>)
      requires tx.Idle() && KeysOk(tx.committed) && WalletsRead(tx.committed)
      modifies tx
      ensures tx.Idle()
      ensures match Resolve(old(tx.committed), id)
              case Ok(d) => err == None && tx.committed == d
              case Err(e) => err == Some(e) && tx.committed == old(tx.committed)
    {
      hide Resolve, KeysOk;
      err := Settle(id);
      if err.Some? {
        tx.Rollback();
        return;
      }
      err := tx.Commit();
    }
  }
}
