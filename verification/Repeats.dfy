/** What a submission that comes again can be told in a run: a status older than the balance beside it; and
    an acknowledgement of something else, when a message id does not determine its data. */
module Repeats {
  import opened Amounts
  import opened Records
  import opened Tables
  import opened Steps
  import opened Invariants
  import opened Preservation
  import opened Evolution
  import opened Outcomes
  import opened OutOfOrder
  import opened Interleaving
  import opened Knowledge
  import opened Refinement
  import opened Histories
  import opened Solo
  import opened Slack
  import opened Schedules
  import opened Races
  import opened SqsWorker
  import Delivery

  // ---------- A status older than the balance ----------

  /** A resubmission at its first two statements. */
  lemma ReplaySteps(now: nat, db: Db, t: TxRow, row: TxRow)
    requires FindByExternalId(db, ExtOf(t)) == Option.Some(row) && row.hash == t.hash
    ensures Exec(now, db, Reader(t, AtInbox, {}, now)) == Go(Reader(t, LookExt(false), {}, now))
    ensures Exec(now, db, Reader(t, LookExt(false), {}, now)) == Go(Reader(t, ReplayLock(row, now), {}, now))
  {
    hide Run, FindByExternalId, FindByIdempotencyKey;
    RunNothing(db);
  }

  /** A resubmission is begun, finds its row, and is stopped before it locks the wallet. */
  lemma StopsBeforeAnswering(moves: seq<Move>, pid: nat, t: TxRow, row: TxRow) returns (moves': seq<Move>)
    requires After(moves).Some? && After(moves).value.hist != [] && pid !in After(moves).value.procs
    requires NewRow(t) && AllIdle(After(moves).value)
    requires FindByExternalId(Current(After(moves).value), ExtOf(t)) == Option.Some(row) && row.hash == t.hash
    ensures var s := After(moves).value;
            After(moves') ==
            Option.Some(s.(procs := s.procs[pid := Reader(t, ReplayLock(row, |s.hist| - 1), {}, |s.hist| - 1)]))
  {
    hide Clear, AllIdle, After, Exec, FindByExternalId, NewRow;
    var s := After(moves).value;
    var now, db, prog := |s.hist| - 1, Current(s), Submit(t, None);
    ReplaySteps(now, db, t, row);
    IdleIsClear(s, pid, prog, t.walletId);
    Begins(moves, pid, prog);
    moves' := moves + [Begin(pid, prog)];
    moves' := ActsTo(moves', s, pid, Reader(t, AtInbox, {}, now), Reader(t, LookExt(false), {}, now), t.walletId);
    moves' := ActsTo(moves', s, pid, Reader(t, LookExt(false), {}, now), Reader(t, ReplayLock(row, now), {}, now), t.walletId);
  }

  /** The parked row under its own external id. */
  lemma ParkedFound(a: WalletRow, base: TxRow, mid: TxRow, rev: TxRow)
    requires RejectingCast(a, base, mid, rev)
    ensures FindByExternalId(BothParked(a, mid, rev), ExtOf(mid)) == Option.Some(Parked(mid)) && Fresh(BothParked(a, mid, rev), base)
    ensures NewRow(mid) && NewRow(base)
  {
  }

  /** The run up to the point where the resubmission has found its row parked and the row is settled. */
  lemma SettlementOvertakes(a: WalletRow, base: TxRow, mid: TxRow, rev: TxRow, based: Db, settled: Db) returns (moves: seq<Move>)
    requires RejectingCast(a, base, mid, rev)
    requires Recording(BothParked(a, mid, rev), base, None, Processed) == Option.Some(based) && Resolve(based, mid.id) == Ok(settled)
    requires mid.id in based.txs && based.txs[mid.id].walletId == a.id
    ensures After(moves).Some?
    ensures var s := After(moves).value;
            && |s.hist| == 6 && |s.log| == 5 && s.hist[5] == settled && AllIdle(s) && 3 in s.procs
            && s.procs[3] == Reader(mid, ReplayLock(Parked(mid), 3), {}, 3)
  {
    hide After, Recording, Wager, Resolve, BothParked, FindByExternalId, NewRow, Clear;
    var db := BothParked(a, mid, rev);
    ParkedFound(a, base, mid, rev);
    moves := ReachBothParked(a, base, mid, rev);
    moves := StopsBeforeAnswering(moves, 3, mid, Parked(mid));
    RecordingIsWager(db, base, None, Processed);
    IdleIsClear(After(moves).value, 4, Submit(base, None), base.walletId);
    var basis: Basis;
    moves, basis := SubmitsWhole(moves, 4, base, None);
    IdleIsClear(After(moves).value, 5, Settle(mid.id), a.id);
    moves, basis := SettlesWhole(moves, 5, mid.id, a.id);
  }

  lemma AnswersLate(now: nat, db: Db, t: TxRow, row: TxRow, since: nat, n: nat)
    requires row.walletId in db.wallets && n >= 2
    ensures var o := Alone(now, db, Reader(t, ReplayLock(row, since), {}, since), n);
            o.Committed? && o.db == db && o.basis.Answered? && o.basis.read == Option.Some(row)
            && o.basis.out == Output(row.id, row.status, db.wallets[row.walletId].balance, true)
  {
    hide Run;
    var p := Reader(t, ReplayLock(row, since), {}, since);
    RunNothing(db);
    GoesOn(now, db, p, n);
    Ends(now, db, Exec(now, db, p).p, n - 1);
  }

  /** The row a replay would now answer from has, if it is the row that was read, its present status. */
  lemma ReplayedRow(db: Db, op: Op, db': Db)
    requires Inv(db) && ValidProgram(op.prog) && Atomic(db, op, db') && op.prog.Submit? && op.prog.inbox.None?
    requires op.basis.Answered? && op.basis.read.Some?
    ensures var now := FreshRead(db, op.prog.t, None);
            now.Some? && now.value.id == op.basis.read.value.id && StandsAs(db, now.value.id, now.value)
  {
    hide LedgerOk, WalletsOk, EventsOk, FindByExternalId, FindByIdempotencyKey, AnswerFrom;
    InvKeys(db);
    HashFindsRow(db, op.prog.t);
    ExternalIdLookup(db, ExtOf(op.prog.t));
  }

  lemma OldStatusIsDisturbed(s: Sys, i: nat)
    requires SysOk(s) && i < |s.log| && i + 1 < |s.hist| && s.log[i].prog.Submit? && s.log[i].prog.inbox.None?
    requires s.log[i].basis.Answered? && s.log[i].basis.read.Some? && s.log[i].basis.read.value.status == PendingReference
    requires IsIn(s.hist[i], s.log[i].basis.read.value.id, Processed) && ExtOf(s.log[i].basis.read.value) == ExtOf(s.log[i].prog.t)
    ensures !Undisturbed(s.hist[i], s.log[i], s.hist[i + 1])
  {
    hide SysOk, Inv, InboxOk, Undisturbed, ValidProgram, FindByExternalId, FindByIdempotencyKey;
    StateOk(s, i);
    LogStep(s, i);
    UndisturbedWhen(s.hist[i], s.log[i], s.hist[i + 1]);
    ReplayedRow(s.hist[i], s.log[i], s.hist[i + 1]);
  }

  /** The settlement has raised the balance of the wallet by the reversal's amount. */
  lemma SettledBalance(a: WalletRow, base: TxRow, mid: TxRow, rev: TxRow, based: Db, settled: Db)
    requires RejectingCast(a, base, mid, rev)
    requires Recording(BothParked(a, mid, rev), base, None, Processed) == Option.Some(based) && Resolve(based, mid.id) == Ok(settled)
    ensures IsIn(settled, mid.id, Processed) && a.id in settled.wallets
    ensures settled.wallets[a.id].balance.amount == mid.money.amount
  {
    hide Inv, Recording, FindByExternalId, BothParked, Resolve, EventFor;
    var based' := BasePaid(a, base, mid, rev);
    MiddleSettles(based, a, mid);
    AddExact(a.balance, mid.money);
  }

  /** A replay is told that its transaction is still parked, beside a balance that the settlement of that
      very transaction has already changed. */
  lemma AnsweredWithOldStatus(a: WalletRow, base: TxRow, mid: TxRow, rev: TxRow) returns (moves: seq<Move>, i: nat)
    requires RejectingCast(a, base, mid, rev)
    ensures After(moves).Some?
    ensures var s := After(moves).value;
            && i < |s.log| && i + 1 < |s.hist| && s.log[i].prog == Submit(mid, None) && s.log[i].basis.Answered?
            && s.log[i].basis.out.status == PendingReference && IsIn(s.hist[i], mid.id, Processed)
            && a.id in s.hist[i].wallets && s.log[i].basis.out.balance == s.hist[i].wallets[a.id].balance
            && s.log[i].basis.out.balance.amount == mid.money.amount
            && !Undisturbed(s.hist[i], s.log[i], s.hist[i + 1])
  {
    hide After, KeysOk, Recording, Resolve, BothParked, FindByExternalId, Clear, Alone, SysOk, Undisturbed, NewRow;
    var based, settled := SettlesMiddle(a, base, mid, rev);
    SettledBalance(a, base, mid, rev, based, settled);
    moves := SettlementOvertakes(a, base, mid, rev, based, settled);
    var s := After(moves).value;
    AnswersLate(5, settled, mid, Parked(mid), 3, 24);
    IdleIsClear(s, 3, Submit(mid, None), mid.walletId);
    moves := Finishes(moves, 3, mid.walletId, 24);
    i := 5;
    CurrentOk(moves);
    OldStatusIsDisturbed(After(moves).value, i);
  }

  // ---------- A message id that comes again with other data ----------

  /** Two losses on an empty wallet, and one message id. */
  predicate MessageCast(a: WalletRow, x: TxRow, y: TxRow) {
    && Openable(EMPTY_DB, a) && NewRow(x) && x.kind == Loss && Of(x, a) && NewRow(y) && y.kind == Loss && Of(y, a) && Distinct(x, y)
  }

  lemma FirstRecorded(a: WalletRow, x: TxRow, y: TxRow, id: string) returns (seen: Db)
    requires MessageCast(a, x, y)
    ensures var db := WithWallet(EMPTY_DB, a);
            Recording(db, x, Option.Some(Delivery.ClaimOf(id, x)), Processed) == Option.Some(seen)
    ensures (Delivery.CONSUMER, id) in seen.inbox && FindByExternalId(seen, ExtOf(y)).None? && a.id in seen.wallets
    ensures NewRow(x) && NewRow(y) && y.walletId == a.id
  {
    hide KeysOk, RowsOk, LedgerOk, WalletsOk, EventsOk, Recording;
    var db, claim := WithWallet(EMPTY_DB, a), Option.Some(Delivery.ClaimOf(id, x));
    InvEmpty();
    OpenEmptyKeeps(EMPTY_DB, a);
    ProcessedWhen(db, x, claim);
    seen := Effect(WithInbox(db, claim), x, a);
  }

  /** The second submission is accepted and lost: in this run its transaction commits, and no row of it is
      on record then. */
  lemma SecondIsLost(a: WalletRow, x: TxRow, y: TxRow, id: string) returns (moves: seq<Move>, i: nat)
    requires MessageCast(a, x, y)
    ensures After(moves).Some?
    ensures var s := After(moves).value;
            && i < |s.log| && i + 1 < |s.hist| && s.log[i].prog == Submit(y, Option.Some(Delivery.ClaimOf(id, y)))
            && s.hist[i + 1] == s.hist[i] && !OnRecord(s.hist[i + 1], y.hash)
  {
    hide After, WithWallet, Recording, Wager, NewRow, Clear, OnRecord, FindByExternalId;
    var seen := FirstRecorded(a, x, y, id);
    moves := OneWallet(a);
    var first, second := Option.Some(Delivery.ClaimOf(id, x)), Option.Some(Delivery.ClaimOf(id, y));
    RecordingIsWager(WithWallet(EMPTY_DB, a), x, first, Processed);
    IdleIsClear(After(moves).value, 1, Submit(x, first), x.walletId);
    var basis: Basis;
    moves, basis := SubmitsWhole(moves, 1, x, first);
    LostSubmission(seen, y, second.value);
    IdleIsClear(After(moves).value, 2, Submit(y, second), y.walletId);
    moves, basis := SubmitsWhole(moves, 2, y, second);
    i := 2;
  }

  lemma MessageCastExists()
    ensures exists a, x, y :: MessageCast(a, x, y)
  {
    hide Canon, ByteLen, Print, CurrencyOk;
    var a := SampleWallet("a", 0);
    SampleWalletIsNew("a", 0);
    SamplesDiffer("1", "2");
    assert MessageCast(a, Sample("1", Loss, a, 0, ""), Sample("2", Loss, a, 0, ""));
  }
}
