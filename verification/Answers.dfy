/** What an accepted submission is told, in a concurrent run. */
module Answers {
  import opened Amounts
  import opened Records
  import opened Tables
  import opened Steps
  import opened Invariants
  import opened Preservation
  import opened Evolution
  import opened Outcomes
  import opened Interleaving
  import opened Knowledge
  import opened Refinement
  import opened Histories
  import opened Delivery
  import opened Verdicts
  import opened Settlements
  import opened Openings

  /** At this state the row under the external id had this id and this status. */
  predicate Showed(db: Db, key: (string, string), id: string, status: Status) {
    var row := FindByExternalId(db, key);
    row.Some? && row.value.id == id && row.value.status == status
  }

  lemma PlanAnswer(t: TxRow, w: WalletRow, read: Option<TxRow>)
    requires Decide(t, w, read).Plan?
    ensures var d := Decide(t, w, read);
            d.writes != [] && d.writes[0].InsTx? && d.out.txId == t.id && d.out.status == d.writes[0].tx.status
  {
    hide DebitRow, CreditRow;
  }

  /** A new submission is told what it has just recorded. */
  lemma DecidedAnswer(db: Db, op: Op, db': Db)
    requires Atomic(db, op, db') && op.prog.Submit? && op.basis.Decided? && KeysOk(db')
    ensures Showed(db', ExtOf(op.prog.t), op.basis.out.txId, op.basis.out.status)
  {
    hide Run, Check, Decide, Existing, FreshRead, Earlier, FindByExternalId, KeysOk;
    var t, inbox, read := op.prog.t, op.prog.inbox, op.basis.read;
    var w := db.wallets[t.walletId];
    var ws := Decide(t, w, read).writes;
    RunInbox(db, inbox, ws);
    PlanShape(t, w, read);
    PlanAnswer(t, w, read);
    OneRowChanges(WithInbox(db, inbox), ws);
    ExternalIdLookup(db', ExtOf(t));
    assert StandsAs(db', t.id, ws[0].tx);
  }

  /** What a replay read was a row under the submission's external id. */
  lemma AnsweredExt(db: Db, op: Op, db': Db)
    requires Inv(db) && ValidProgram(op.prog) && Atomic(db, op, db') && op.prog.Submit? && op.basis.Answered? && op.basis.read.Some?
    ensures ExtOf(op.basis.read.value) == ExtOf(op.prog.t)
    ensures op.basis.out.txId == op.basis.read.value.id && op.basis.out.status == op.basis.read.value.status
  {
    hide Run, FindByExternalId, FindByIdempotencyKey, LedgerOk, WalletsOk, EventsOk;
    var t, inbox := op.prog.t, op.prog.inbox;
    if IsRepeated(db, inbox) {
      ExternalIdLookup(db, ExtOf(t));
    } else {
      HashFindsRow(db, t);
      ExternalIdLookup(db, ExtOf(t));
    }
  }

  lemma AnsweredAt(s: Sys, i: nat) returns (at: nat)
    requires SysOk(s) && i < |s.log| && i + 1 < |s.hist| && s.log[i].basis.Answered? && s.log[i].basis.read.Some?
    ensures s.log[i].since <= at <= i && StandsAs(s.hist[at], s.log[i].basis.read.value.id, s.log[i].basis.read.value)
  {
    hide HistOk, ProcOk, Atomic, ValidProgram;
    assert ReadInTime(s.hist[..i + 1], s.log[i]);
    at := s.log[i].basis.at;
    assert s.hist[..i + 1][at] == s.hist[at];
  }

  lemma BasisOfSubmission(db: Db, op: Op, db': Db)
    requires Atomic(db, op, db') && op.prog.Submit?
    ensures op.basis.Answered? || op.basis.Decided?
  {
  }

  /** The balance that is answered is the one that the wallet of the answered row is left with. */
  predicate ShowsBalance(db: Db, out: Output) {
    out.txId in db.txs && db.txs[out.txId].walletId in db.wallets && out.balance == db.wallets[db.txs[out.txId].walletId].balance
  }

  lemma NewShows(db: Db, t: TxRow, done: (Db, Output))
    requires NewAnswer(db, t, done)
    ensures ShowsBalance(done.0, done.1)
  {
  }

  lemma ReplayShows(db: Db, row: TxRow, done: (Db, Output))
    requires ReplayAnswer(db, row, done) && row.id in db.txs && db.txs[row.id].walletId == row.walletId
    ensures ShowsBalance(done.0, done.1)
  {
  }

  lemma StandingWallet(db: Db, db': Db, row: TxRow)
    requires StandsAs(db, row.id, row) && Evolves(db, db')
    ensures row.id in db'.txs && db'.txs[row.id].walletId == row.walletId
  {
    hide IndexesEvolve;
  }

  lemma AtomicStep(db: Db, op: Op, db': Db)
    requires Atomic(db, op, db') && op.prog.Submit?
    ensures WagerStep(db, op.prog.t, op.prog.inbox, op.basis.read) == Ok((db', op.basis.out))
  {
    hide WagerStep;
  }

  lemma ValidSubmission(prog: Program)
    requires ValidProgram(prog) && prog.Submit?
    ensures NewRow(prog.t)
  {
  }

  lemma NewBalance(db: Db, t: TxRow, done: (Db, Output))
    requires NewAnswer(db, t, done)
    ensures t.walletId in done.0.wallets && done.1.balance == done.0.wallets[t.walletId].balance
  {
  }

  lemma ReplayIsAnswered(db: Db, op: Op, db': Db)
    requires Atomic(db, op, db') && op.prog.Submit? && op.basis.out.replay
    ensures op.basis.Answered?
  {
    hide Run, FindByExternalId, FindByIdempotencyKey, Decide, AnswerFrom;
    if op.basis.Decided? && IsNew(db, op.prog.t, op.prog.inbox) {
      PlansDoNotReplay(op.prog.t, db.wallets[op.prog.t.walletId], op.basis.read);
    }
  }

  /** In every run: what an accepted submission is told of the balance is what its commit has left in the
      wallet of the row that it is told of. */
  lemma AnswerShowsBalance(s: Sys, i: nat)
    requires SysOk(s) && i < |s.log| && i + 1 < |s.hist| && s.log[i].prog.Submit? && HasFound(Ready(s.log[i].basis))
    ensures (s.log[i].basis.Answered? || s.log[i].basis.Decided?) && ShowsBalance(s.hist[i + 1], s.log[i].basis.out)
    ensures s.log[i].basis.Decided? ==>
              s.log[i].prog.t.walletId in s.hist[i + 1].wallets
              && s.log[i].basis.out.balance == s.hist[i + 1].wallets[s.log[i].prog.t.walletId].balance
  {
    hide SysOk, Inv, InboxOk, Atomic, ValidProgram, WagerStep, NewAnswer, ReplayAnswer, ShowsBalance, StandsAs, Evolves;
    var op, db, db' := s.log[i], s.hist[i], s.hist[i + 1];
    StateOk(s, i);
    LogStep(s, i);
    BasisOfSubmission(db, op, db');
    AtomicStep(db, op, db');
    ValidSubmission(op.prog);
    AnswerIsBalance(db, op.prog.t, op.prog.inbox, op.basis.read);
    if op.basis.out.replay {
      ReplayIsAnswered(db, op, db');
      var at := AnsweredAt(s, i);
      StatesEvolve(s, at, i);
      StandingWallet(s.hist[at], db, op.basis.read.value);
      ReplayShows(db, op.basis.read.value, (db', op.basis.out));
    } else {
      NewShows(db, op.prog.t, (db', op.basis.out));
      NewBalance(db, op.prog.t, (db', op.basis.out));
    }
  }

  /** In every run an accepted submission is told of the row on record under its external id, with the
      status that this row had at some state between the begin of the transaction and its commit. */
  lemma AnswerNamesTheRow(s: Sys, i: nat) returns (at: nat)
    requires SysOk(s) && i < |s.log| && i + 1 < |s.hist| && s.log[i].prog.Submit? && HasFound(Ready(s.log[i].basis))
    ensures s.log[i].basis.Answered? || s.log[i].basis.Decided?
    ensures var key, out := ExtOf(s.log[i].prog.t), s.log[i].basis.out;
            && at <= i + 1 && Showed(s.hist[at], key, out.txId, out.status) && (at <= i ==> s.log[i].since <= at)
            && FindByExternalId(s.hist[i + 1], key).Some? && FindByExternalId(s.hist[i + 1], key).value.id == out.txId
  {
    hide SysOk, Inv, InboxOk, Atomic, ValidProgram, FindByExternalId, ReadInTime;
    var op, key := s.log[i], ExtOf(s.log[i].prog.t);
    StateOk(s, i);
    StateOk(s, i + 1);
    LogStep(s, i);
    BasisOfSubmission(s.hist[i], op, s.hist[i + 1]);
    at := i + 1;
    if op.basis.Decided? {
      InvKeys(s.hist[i + 1]);
      DecidedAnswer(s.hist[i], op, s.hist[i + 1]);
    } else {
      AnsweredExt(s.hist[i], op, s.hist[i + 1]);
      at := AnsweredAt(s, i);
      StateOk(s, at);
      InvKeys(s.hist[at]);
      ExternalIdLookup(s.hist[at], key);
      ExternalIdBound(s, at, i + 1, key);
    }
  }

  lemma LogLength(s: Sys)
    requires SysOk(s)
    ensures |s.hist| == |s.log| + 1
  {
    hide HistOk, ProcOk, Atomic, ReadInTime, ValidProgram;
  }

  /** And in every run in which a message id determines its data, each committed submission has found or
      written the row that it is told of. */
  lemma EveryAnswerFindsARow(moves: seq<NetMove>, supported: seq<string>, i: nat) returns (at: nat)
    requires Delivered(moves, supported).Some?
    requires var s := Delivered(moves, supported).value.sys; i < |s.log| && s.log[i].prog.Submit?
    ensures var s := Delivered(moves, supported).value.sys;
            && i + 1 < |s.hist| && (s.log[i].basis.Answered? || s.log[i].basis.Decided?)
            && at <= i + 1 && (at <= i ==> s.log[i].since <= at)
            && Showed(s.hist[at], ExtOf(s.log[i].prog.t), s.log[i].basis.out.txId, s.log[i].basis.out.status)
            && ShowsBalance(s.hist[i + 1], s.log[i].basis.out)
  {
    hide SysOk, ClaimsFit, Acknowledged, WorkersFit, ReturnsFit, Delivered, Showed, ShowsBalance;
    EveryRunDelivers(moves, supported);
    var s := Delivered(moves, supported).value.sys;
    LogLength(s);
    at := AnswerNamesTheRow(s, i);
    AnswerShowsBalance(s, i);
  }

  /** In every run each commit leaves exactly what its verdict says, told outright, on the state that it
      commits to: with the row that it had read without a lock. */
  lemma EveryCommitIsItsVerdict(s: Sys, i: nat)
    requires SysOk(s) && i < |s.log| && i + 1 < |s.hist|
    ensures var op, db, db' := s.log[i], s.hist[i], s.hist[i + 1];
            match op.prog
            case Submit(t, inbox) =>
              && (op.basis.Answered? || op.basis.Decided?)
              && ((t.providerId, t.externalId) in db.byExt ==> db.byExt[(t.providerId, t.externalId)] in db.txs)
              && VerdictOf(db, t, inbox, op.basis.read) == Ok((db', op.basis.out))
            case Settle(id) =>
              if op.basis.Idle? then db' == db
              else (op.basis.Shelved? || op.basis.Credited?) && ResolutionOf(db, id, op.basis.read) == Ok(db')
            case OpenUp(w) => OpeningOf(db, w) == Ok(db')
  {
    hide SysOk, Inv, InboxOk, WagerStep, ResolveStep, Open, VerdictOf, ResolutionOf, OpeningOf, NewRow, NewWallet,
         Earlier, FreshRead, ReferenceOf;
    var op, db, db' := s.log[i], s.hist[i], s.hist[i + 1];
    StateOk(s, i);
    LogStep(s, i);
    match op.prog {
      case Submit(t, inbox) => StepIsVerdict(db, t, inbox, op.basis.read);
      case Settle(id) => if !op.basis.Idle? { StepIsResolution(db, id, op.basis.read); }
      case OpenUp(w) => OpenIsOpening(db, w);
    }
  }
}
