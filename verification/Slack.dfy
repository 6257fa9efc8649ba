/** How far a stale read can carry: the one way in which a concurrent run differs from a serial one. */
module Slack {
  import opened Amounts
  import opened Records
  import opened Tables
  import opened Steps
  import opened Invariants
  import opened Preservation
  import opened Interleaving
  import opened Knowledge
  import opened Refinement

  /** The same step with nothing running beside it. */
  predicate Undisturbed(db: Db, op: Op, db': Db) {
    match op.prog
    case Submit(t, inbox) => (op.basis.Answered? || op.basis.Decided?) && Wager(db, t, inbox) == Ok((db', op.basis.out))
    case Settle(id) => Resolve(db, id) == Ok(db')
    case OpenUp(w) => Open(db, w) == Ok(db')
  }

  predicate MoneyMoved(db: Db, db': Db) { db'.wallets != db.wallets || db'.ledger != db.ledger }

  /** A stale reference that is good enough to act on is not stale. */
  lemma ProcessedReadIsFresh(read: Option<TxRow>, now: Option<TxRow>)
    requires Earlier(read, now) && read.Some? && read.value.status == Processed
    ensures read == now
  {
  }

  lemma ParkMovesNothing(db: Db, t: TxRow, w: WalletRow, inbox: Option<Claim>)
    requires t.walletId in db.wallets && (inbox.Some? ==> MessageOf(inbox.value) !in db.inbox)
    ensures var d := DecideReversal(t, w, None);
            d.Plan? && (Run(db, InboxWrites(inbox) + d.writes).Ok? ==> !MoneyMoved(db, Run(db, InboxWrites(inbox) + d.writes).value))
  {
    hide Run;
    var d := DecideReversal(t, w, None);
    RunInbox(db, inbox, d.writes);
    RecordPlanRuns(WithInbox(db, inbox), d.writes[0].tx, d.writes[1].event);
  }

  lemma SubmitSlack(db: Db, op: Op, db': Db)
    requires op.prog.Submit? && Atomic(db, op, db') && MoneyMoved(db, db')
    ensures Undisturbed(db, op, db')
  {
    hide Run, Existing, FindByExternalId, AnswerFrom, PlanMove, PlanRecord, Surface;
    var t, inbox, read := op.prog.t, op.prog.inbox, op.basis.read;
    var repeated := inbox.Some? && MessageOf(inbox.value) in db.inbox;
    if !repeated && Existing(db, t).Same? { RunInbox(db, inbox, []); }
    if !repeated && Existing(db, t).Absent? && IsReversal(t.kind) {
      if read.None? {
        ParkMovesNothing(db, t, db.wallets[t.walletId], inbox);
      } else {
        ProcessedReadIsFresh(read, FreshRead(db, t, inbox));
      }
    }
  }

  lemma SettleSlack(db: Db, op: Op, db': Db)
    requires Inv(db) && op.prog.Settle? && Atomic(db, op, db') && MoneyMoved(db, db')
    ensures Undisturbed(db, op, db')
  {
    hide Run, FindByExternalId, CreditRow, ShelveWrites, SettleWrites, KeysOk, RowsOk, LedgerOk, WalletsOk, EventsOk;
    var id, read := op.prog.id, op.basis.read;
    if id in db.txs && db.txs[id].status == PendingReference {
      if read.None? || read.value.status != Processed {
        RowFacts(db, id);
        ShelvePlanRuns(db, db.txs[id], read);
      } else {
        ProcessedReadIsFresh(read, ReferenceOf(db, id));
      }
    }
  }

  lemma OpenSlack(db: Db, op: Op, db': Db)
    requires op.prog.OpenUp? && Atomic(db, op, db')
    ensures Undisturbed(db, op, db')
  {
  }

  /** No money ever moves on a stale read: a commit that changes a wallet or the ledger is exactly the
      step that would have been taken with nothing else running. */
  lemma StaleReadsMoveNoMoney(db: Db, op: Op, db': Db)
    requires Inv(db) && Atomic(db, op, db') && MoneyMoved(db, db')
    ensures Undisturbed(db, op, db')
  {
    hide Atomic, Undisturbed, MoneyMoved, Inv;
    match op.prog {
      case Submit(_, _) => SubmitSlack(db, op, db');
      case Settle(_) => SettleSlack(db, op, db');
      case OpenUp(_) => OpenSlack(db, op, db');
    }
  }

  // ---------- Exactly when a commit is undisturbed ----------

  /** What a reversal makes of its reference. */
  datatype Standing = Missing | Unpaid | Paid

  function StandingOf(read: Option<TxRow>): Standing {
    if read.None? then Missing else if read.value.status == Processed then Paid else Unpaid
  }

  /** What the transaction had read is, for its purpose, what it would read now. */
  predicate Timely(db: Db, op: Op) {
    match op.prog
    case Submit(t, inbox) =>
      (match op.basis
       case Answered(read, _, _) => read == FreshRead(db, t, inbox)
       case Decided(read, _, _, _) => read == FreshRead(db, t, inbox)
       case _ => false)
    case Settle(id) =>
      (match op.basis
       case Idle(found, _) =>
         found.Some? || id !in db.txs || db.txs[id].status != PendingReference || ReferenceOf(db, id).None?
       case Shelved(_, read, _) => StandingOf(read) == StandingOf(ReferenceOf(db, id))
       case Credited(_, read, _, _) => StandingOf(read) == StandingOf(ReferenceOf(db, id))
       case _ => false)
    case OpenUp(_) => true
  }

  lemma DecisionStatus(t: TxRow, w: WalletRow, read: Option<TxRow>)
    requires NewRow(t) && IsReversal(t.kind) && Decide(t, w, read).Plan?
    ensures Decide(t, w, read).out.status == if read.None? then PendingReference else Processed
    ensures read.Some? ==> read.value.status == Processed
  {
    hide CreditRow, MoveWrites;
  }

  /** A new submission is undisturbed if and only if its reference is still as it was read. */
  lemma DecidedWhen(db: Db, op: Op, db': Db)
    requires op.prog.Submit? && ValidProgram(op.prog) && Atomic(db, op, db') && op.basis.Decided?
    ensures Undisturbed(db, op, db') <==> Timely(db, op)
  {
    hide Run, Existing, FindByExternalId, AnswerFrom, Decide, Surface;
    var t, inbox, read := op.prog.t, op.prog.inbox, op.basis.read;
    var now, w := FreshRead(db, t, inbox), db.wallets[t.walletId];
    if read != now {
      DecisionStatus(t, w, read);
      if Decide(t, w, now).Plan? { DecisionStatus(t, w, now); }
    }
  }

  lemma AnswerShows(db: Db, a: TxRow, b: TxRow)
    requires AnswerFrom(db, a).Ok? && a.status != b.status
    ensures AnswerFrom(db, a) != AnswerFrom(db, b)
  {
  }

  lemma AnsweredRow(db: Db, t: TxRow, inbox: Option<Claim>)
    requires Inv(db) && !IsNew(db, t, inbox) && FreshRead(db, t, inbox).Some?
    requires !IsRepeated(db, inbox) ==> Existing(db, t).Same?
    ensures FreshRead(db, t, inbox).value.status != Pending
  {
    hide LedgerOk, WalletsOk, EventsOk;
    assert RowOk(db.txs[FreshRead(db, t, inbox).value.id]) by {
      if IsRepeated(db, inbox) {
        ExternalIdLookup(db, ExtOf(t));
      } else {
        ExternalIdLookup(db, ExtOf(t));
        IdempotencyKeyLookup(db, t.idemKey);
      }
    }
  }

  /** An answer is undisturbed if and only if the row is still as it was read. */
  lemma AnsweredWhen(db: Db, op: Op, db': Db)
    requires Inv(db) && op.prog.Submit? && ValidProgram(op.prog) && Atomic(db, op, db') && op.basis.Answered?
    ensures Undisturbed(db, op, db') <==> Timely(db, op)
  {
    hide Run, FindByExternalId, FindByIdempotencyKey, AnswerFrom, KeysOk, LedgerOk, WalletsOk, EventsOk;
    var t, inbox, read := op.prog.t, op.prog.inbox, op.basis.read;
    var now := FreshRead(db, t, inbox);
    if read != now {
      AnsweredRow(db, t, inbox);
      AnswerShows(db, if read.Some? then read.value else t, now.value);
    }
  }

  predicate IsIn(db: Db, id: string, status: Status) { id in db.txs && db.txs[id].status == status }

  /** What resolving comes to, by the standing of the reference. */
  lemma ResolvedBy(db: Db, id: string, read: Option<TxRow>)
    requires Inv(db) && id in db.txs && db.txs[id].status == PendingReference
    ensures match StandingOf(read)
            case Missing => ResolveStep(db, id, read) == Ok(db)
            case Unpaid => ResolveStep(db, id, read).Ok? && IsIn(ResolveStep(db, id, read).value, id, Rejected)
            case Paid => ResolveStep(db, id, read).Ok? ==> IsIn(ResolveStep(db, id, read).value, id, Processed)
  {
    hide KeysOk, RowsOk, LedgerOk, WalletsOk, EventsOk, Run, SettleWrites, ShelveWrites, CreditRow, Restated, EntryChecks;
    RowFacts(db, id);
    var row := db.txs[id];
    ShelvePlanRuns(db, row, read);
    if StandingOf(read).Paid? && CreditRow(db.wallets[row.walletId], row.money).Ok? {
      var w := db.wallets[row.walletId];
      WalletFacts(db, row.walletId);
      CreditMoves(w, row);
      UnprocessedEntryNew(db, id);
      SettlePlanRuns(db, row, w, CreditRow(w, row.money).value);
    }
  }

  /** Reads of equal standing resolve alike. */
  lemma SameStanding(db: Db, id: string, a: Option<TxRow>, b: Option<TxRow>)
    requires StandingOf(a) == StandingOf(b)
    ensures ResolveStep(db, id, a) == ResolveStep(db, id, b)
  {
    hide Run, CreditRow;
  }

  lemma NothingParked(db: Db, id: string)
    requires id !in db.txs || db.txs[id].status != PendingReference
    ensures forall read :: ResolveStep(db, id, read) == Ok(db)
  {
  }

  /** A resolution is undisturbed if and only if its reference has the same standing as when it was read;
      one that found nothing to resolve, if and only if there still is nothing to do. */
  lemma ResolutionWhen(db: Db, op: Op, db': Db)
    requires Inv(db) && op.prog.Settle? && Atomic(db, op, db')
    ensures Undisturbed(db, op, db') <==> Timely(db, op)
  {
    hide Inv, FindByExternalId, ResolveStep;
    var id := op.prog.id;
    var now := ReferenceOf(db, id);
    if id in db.txs && db.txs[id].status == PendingReference {
      ResolvedBy(db, id, now);
      match op.basis {
        case Shelved(_, read, _) => ResolvedBy(db, id, read); if StandingOf(read) == StandingOf(now) { SameStanding(db, id, read, now); }
        case Credited(_, read, _, _) => ResolvedBy(db, id, read); if StandingOf(read) == StandingOf(now) { SameStanding(db, id, read, now); }
        case _ =>
      }
    } else {
      NothingParked(db, id);
    }
  }

  lemma OpeningTimely(db: Db, op: Op, db': Db)
    requires op.prog.OpenUp? && Atomic(db, op, db')
    ensures Undisturbed(db, op, db') && Timely(db, op)
  {
  }

  /** A commit is the step that would have been taken with nothing else running if and only if what it had
      read is, for its purpose, what it would read now. */
  lemma UndisturbedWhen(db: Db, op: Op, db': Db)
    requires Inv(db) && ValidProgram(op.prog) && Atomic(db, op, db')
    ensures Undisturbed(db, op, db') <==> Timely(db, op)
  {
    hide Inv, Undisturbed, Timely, ValidProgram, WagerStep, FreshRead, Existing, Resolves, StandsAs;
    match op.prog {
      case Submit(_, _) => if op.basis.Decided? { DecidedWhen(db, op, db'); } else { AnsweredWhen(db, op, db'); }
      case Settle(_) => ResolutionWhen(db, op, db');
      case OpenUp(_) => OpeningTimely(db, op, db');
    }
  }
}
