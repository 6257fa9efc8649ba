/** Every interleaved run refines the atomic steps: each commit is one whole use case on the state it
    commits to, and every other step leaves the committed state alone. There are two slacks: the row that a
    transaction reads without a lock, which it may have read earlier; and a resolution that found no row
    under its id, which does nothing also if the row has come since. */
module Refinement {
  import opened Amounts
  import opened Records
  import opened Tables
  import opened Steps
  import opened Invariants
  import opened Preservation
  import opened Evolution
  import opened Interleaving
  import opened Isolation
  import opened Knowledge
  import opened Progress

  // ---------- The atomic specification ----------

  /** `read` is what an unlocked read could have returned earlier of a row that now is `now`: nothing,
      or the row before it settled. */
  predicate Earlier(read: Option<TxRow>, now: Option<TxRow>) {
    read.None? || (now.Some? && RowEvolves(read.value, now.value))
  }

  predicate IsRepeated(db: Db, inbox: Option<Claim>) { inbox.Some? && MessageOf(inbox.value) in db.inbox }

  /** The submission is neither a repeated message nor a replay. */
  predicate IsNew(db: Db, t: TxRow, inbox: Option<Claim>) { !IsRepeated(db, inbox) && Existing(db, t).Absent? }

  /** A reference that a reversal may be paid by. */
  predicate Usable(read: Option<TxRow>) { read.Some? && read.value.status == Processed }

  /** The named row is parked, and is resolved by this read of its reference. */
  predicate Resolves(db: Db, id: string, row: TxRow, read: Option<TxRow>, db': Db) {
    StandsAs(db, id, row) && row.status == PendingReference
    && ResolveStep(db, id, read) == Ok(db') && Earlier(read, ReferenceOf(db, id))
  }

  /** `op` takes `db` to `db'` in one atomic step, on the branch that its basis names. */
  predicate Atomic(db: Db, op: Op, db': Db) {
    match op.prog
    case Submit(t, inbox) =>
      (if IsNew(db, t, inbox) then op.basis.Decided?
       else op.basis.Answered? && (IsRepeated(db, inbox) || op.basis.read.Some?))
      && WagerStep(db, t, inbox, op.basis.read) == Ok((db', op.basis.out))
      && Earlier(op.basis.read, FreshRead(db, t, inbox))
    case Settle(id) =>
      (match op.basis
       case Idle(found, _) =>
         db' == db && (found.Some? ==> StandsAs(db, id, found.value) && found.value.status != PendingReference)
       case Shelved(row, read, _) => !Usable(read) && Resolves(db, id, row, read, db')
       case Credited(row, read, _, _) => Usable(read) && Resolves(db, id, row, read, db')
       case _ => false)
    case OpenUp(w) => Open(db, w) == Ok(db')
  }

  /** The unlocked read of a committed transaction is what the table held at one of the committed states
      between the transaction's begin and its commit. A resolution that found no row found none at one of
      those states. */
  predicate ReadInTime(hist: seq<Db>, op: Op) {
    match op.basis
    case Answered(read, at, _) =>
      op.prog.Submit? &&
      if read.Some? then RowAsOf(hist, op.since, at, read.value) else AsOf(hist, op.since, at, ExtOf(op.prog.t), None)
    case Decided(read, at, _, _) =>
      op.prog.Submit? && if IsReversal(op.prog.t.kind) then AsOf(hist, op.since, at, RefOf(op.prog.t), read) else read.None?
    case Shelved(row, read, at) => AsOf(hist, op.since, at, RefOf(row), read)
    case Credited(row, read, at, _) => AsOf(hist, op.since, at, RefOf(row), read)
    case Idle(found, at) => found.None? ==> op.prog.Settle? && op.since <= at < |hist| && op.prog.id !in hist[at].txs
    case Opened => true
  }

  // ---------- A commit is an atomic step ----------

  lemma LastState(hist: seq<Db>)
    requires HistOk(hist)
    ensures Inv(Last(hist)) && InboxOk(Last(hist))
  {
    assert Inv(hist[|hist| - 1]);
  }

  /** The reference as it was read is an earlier form of the reference now. */
  lemma ReadIsEarlier(hist: seq<Db>, since: nat, at: nat, key: (string, string), read: Option<TxRow>)
    requires HistOk(hist) && AsOf(hist, since, at, key, read)
    ensures Earlier(read, FindByExternalId(Last(hist), key))
  {
    hide Inv, InboxOk;
    assert Evolves(hist[at], Last(hist));
    if read.Some? {
      var i := hist[at].byExt[key];
      assert RowEvolves(hist[at].txs[i], Last(hist).txs[i]);
    }
  }

  lemma KeysFree(hist: seq<Db>, p: Proc, t: TxRow)
    requires hist != [] && Owned(Last(hist), p.held) && HasKeys(p.held, t)
    ensures Existing(Last(hist), t) == Absent
  {
    assert OwnedOne(Last(hist), TxExt(ExtOf(t))) && OwnedOne(Last(hist), TxKey(t.idemKey));
  }

  lemma ClaimNew(hist: seq<Db>, p: Proc)
    requires hist != [] && p.prog.Submit? && Owned(Last(hist), p.held) && Claimed(p) && p.prog.inbox.Some?
    ensures MessageOf(p.prog.inbox.value) !in Last(hist).inbox
  {
    assert OwnedOne(Last(hist), InboxKey(MessageOf(p.prog.inbox.value)));
  }

  lemma CommitDecided(hist: seq<Db>, p: Proc, b: Basis)
    requires HistOk(hist) && ProcOk(hist, p) && p.prog.Submit? && p.pc == Ready(b) && b.Decided?
    ensures Atomic(Last(hist), Op(p.prog, b, p.since), View(Last(hist), p))
    ensures ReadInTime(hist, Op(p.prog, b, p.since))
  {
    hide HistOk, Owned, AllCovered, Run, Decide, Existing, FindByExternalId;
    var db, t, inbox := Last(hist), p.prog.t, p.prog.inbox;
    KeysFree(hist, p, t);
    if inbox.Some? { ClaimNew(hist, p); }
    if IsReversal(t.kind) { ReadIsEarlier(hist, p.since, b.at, RefOf(t), b.read); }
  }

  lemma RowEvolved(db: Db, db': Db, row: TxRow)
    requires Evolves(db, db') && row.id in db.txs && db.txs[row.id] == row
    ensures row.id in db'.txs && RowEvolves(row, db'.txs[row.id])
  {
  }

  /** The row a replay found is, by its hash, still what the submission finds. */
  lemma ReplayFound(hist: seq<Db>, since: nat, at: nat, t: TxRow, row: TxRow)
    requires HistOk(hist) && NewRow(t) && row.hash == t.hash && RowAsOf(hist, since, at, row)
    ensures Existing(Last(hist), t).Same? && RowEvolves(row, Existing(Last(hist), t).row)
  {
    hide KeysOk, RowsOk, LedgerOk, WalletsOk, EventsOk, InboxOk;
    var db := Last(hist);
    assert Inv(hist[at]) && Inv(db) && Evolves(hist[at], db) by { LastState(hist); }
    RowEvolved(hist[at], db, row);
    RowFacts(hist[at], row.id);
    RowFacts(db, row.id);
    EqualHashes(row, t);
  }

  lemma FoundAsOf(hist: seq<Db>, at: nat, key: (string, string))
    requires HistOk(hist) && at < |hist| && FindByExternalId(hist[at], key).Some?
    ensures var row := FindByExternalId(hist[at], key).value; row.id in hist[at].txs && hist[at].txs[row.id] == row
  {
    hide LedgerOk, WalletsOk, EventsOk, RowsOk, InboxOk;
    assert Inv(hist[at]);
    FoundRow(hist[at], key);
  }

  lemma CommitAnswered(hist: seq<Db>, p: Proc, b: Basis)
    requires HistOk(hist) && ProcOk(hist, p) && p.prog.Submit? && p.pc == Ready(b) && b.Answered?
    ensures Atomic(Last(hist), Op(p.prog, b, p.since), View(Last(hist), p))
    ensures ReadInTime(hist, Op(p.prog, b, p.since))
  {
    hide HistOk, Owned, AllCovered, Existing, FindByExternalId, AnswerFrom;
    var db, t, inbox := Last(hist), p.prog.t, p.prog.inbox;
    if Repeated(db, p) {
      ReadIsEarlier(hist, p.since, b.at, ExtOf(t), b.read);
      if b.read.Some? { FoundAsOf(hist, b.at, ExtOf(t)); }
    } else {
      ReplayFound(hist, p.since, b.at, t, b.read.value);
      if inbox.Some? { ClaimNew(hist, p); }
    }
  }

  lemma CommitSettled(hist: seq<Db>, p: Proc, b: Basis)
    requires HistOk(hist) && ProcOk(hist, p) && p.prog.Settle? && p.pc == Ready(b)
    ensures Atomic(Last(hist), Op(p.prog, b, p.since), View(Last(hist), p))
    ensures ReadInTime(hist, Op(p.prog, b, p.since))
  {
    hide HistOk, Owned, AllCovered, FindByExternalId, CreditRow, ShelveWrites, SettleWrites;
    var db := Last(hist);
    match b {
      case Shelved(row, read, at) => ReadIsEarlier(hist, p.since, at, RefOf(row), read);
      case Credited(row, read, at, w) => ReadIsEarlier(hist, p.since, at, RefOf(row), read);
      case _ => ViewEmpty(db, p);
    }
  }

  lemma CommitOpened(hist: seq<Db>, p: Proc)
    requires ProcOk(hist, p) && p.prog.OpenUp? && p.pc.Ready?
    ensures Atomic(Last(hist), Op(p.prog, p.pc.basis, p.since), View(Last(hist), p))
    ensures ReadInTime(hist, Op(p.prog, p.pc.basis, p.since))
  {
    hide OpenWrites, Owned, AllCovered;
  }

  lemma CommitAtomic(hist: seq<Db>, p: Proc)
    requires HistOk(hist) && ProcOk(hist, p) && p.pc.Ready?
    ensures Atomic(Last(hist), Op(p.prog, p.pc.basis, p.since), View(Last(hist), p))
    ensures ReadInTime(hist, Op(p.prog, p.pc.basis, p.since))
  {
    hide HistOk, Owned, AllCovered, Run, Atomic, ReadInTime;
    match p.prog {
      case Submit(_, _) => if p.pc.basis.Decided? { CommitDecided(hist, p, p.pc.basis); } else { CommitAnswered(hist, p, p.pc.basis); }
      case Settle(_) => CommitSettled(hist, p, p.pc.basis);
      case OpenUp(w) => CommitOpened(hist, p);
    }
  }

  // ---------- What an atomic step keeps ----------

  /** Every atomic step keeps the invariant of the tables and the inbox, and only adds. */
  lemma AtomicKeeps(db: Db, op: Op, db': Db)
    requires Inv(db) && InboxOk(db) && ValidProgram(op.prog) && Atomic(db, op, db')
    ensures Inv(db') && InboxOk(db') && Evolves(db, db')
  {
    hide Inv, InboxOk, Evolves, WagerStep, ResolveStep, Open, KeysOk, FreshRead, Earlier;
    match op.prog {
      case Submit(t, inbox) =>
        WagerKeeps(db, t, inbox, op.basis.read);
        WagerEvolves(db, t, inbox, op.basis.read);
        WagerKeepsInbox(db, t, inbox, op.basis.read);
      case Settle(id) =>
        if op.basis.Idle? {
          EvolvesReflexive(db);
        } else {
          InvKeys(db);
          ResolveKeeps(db, id, op.basis.read);
          ResolveEvolves(db, id, op.basis.read);
          ResolveInbox(db, id, op.basis.read);
          InboxKept(db, db');
        }
      case OpenUp(w) =>
        OpenKeeps(db, w);
        OpenEvolves(db, w);
        OpenInbox(db, w);
        InboxKept(db, db');
    }
  }

  // ---------- The system ----------

  /** No resource has two owners. */
  ghost predicate Exclusive(s: Sys) {
    forall a, b :: a in s.procs && b in s.procs && a != b ==> s.procs[a].held !! s.procs[b].held
  }

  ghost predicate LogOk(hist: seq<Db>, log: seq<Op>) {
    && |hist| == |log| + 1
    && forall i {:trigger log[i]} :: 0 <= i < |log| ==>
         ValidProgram(log[i].prog) && Atomic(hist[i], log[i], hist[i + 1]) && ReadInTime(hist[..i + 1], log[i])
  }

  ghost predicate ProcsOk(s: Sys) { forall pid :: pid in s.procs ==> ProcOk(s.hist, s.procs[pid]) }

  /** What holds of every reachable state of the system. */
  ghost predicate SysOk(s: Sys) {
    HistOk(s.hist) && s.hist[0] == EMPTY_DB && LogOk(s.hist, s.log) && ProcsOk(s) && Exclusive(s)
  }

  lemma HistGrows(hist: seq<Db>, db': Db)
    requires HistOk(hist) && Inv(db') && InboxOk(db') && Evolves(Last(hist), db')
    ensures HistOk(hist + [db'])
  {
    hide Inv, InboxOk, Evolves;
    var hist' := hist + [db'];
    EvolvesReflexive(db');
    forall i | 0 <= i < |hist'| ensures Evolves(hist'[i], Last(hist')) {
      if i < |hist| {
        assert Evolves(hist[i], Last(hist));
        EvolvesTransitive(hist[i], Last(hist), db');
      }
    }
  }

  lemma LogGrows(hist: seq<Db>, log: seq<Op>, op: Op, db': Db)
    requires LogOk(hist, log) && ValidProgram(op.prog) && Atomic(hist[|hist| - 1], op, db') && ReadInTime(hist, op)
    ensures LogOk(hist + [db'], log + [op])
  {
    hide Atomic, ReadInTime, ValidProgram;
    var hist', log' := hist + [db'], log + [op];
    forall i | 0 <= i < |log'|
      ensures ValidProgram(log'[i].prog) && Atomic(hist'[i], log'[i], hist'[i + 1]) && ReadInTime(hist'[..i + 1], log'[i])
    {
      if i < |log| {
        assert hist'[..i + 1] == hist[..i + 1];
      } else {
        assert hist'[..i + 1] == hist;
      }
    }
  }

  lemma CommitFrames(s: Sys, pid: nat, q: nat)
    requires SysOk(s) && pid in s.procs && q in s.procs && q != pid
    requires Evolves(Last(s.hist), View(Last(s.hist), s.procs[pid]))
    ensures ProcOk(s.hist + [View(Last(s.hist), s.procs[pid])], s.procs[q])
  {
    hide HistOk, LogOk, Evolves, Owned, AllCovered, Run, Agree, SubmitOk, SettleOk, OpenOk;
    var db, p, r := Last(s.hist), s.procs[pid], s.procs[q];
    assert ProcOk(s.hist, p) && ProcOk(s.hist, r);
    DisjointApart(db, p.held, r.held);
    RunFrames(db, p.done, p.held, r.held);
    ProcStable(s.hist, View(db, p), r);
  }

  lemma FinishedOk(hist: seq<Db>, p: Proc, error: Option<Error>)
    requires hist != [] && p.since < |hist| && ValidProgram(p.prog)
    ensures ProcOk(hist, p.(pc := Finished(error), held := {}, done := []))
  {
  }

  lemma ProcParts(hist: seq<Db>, p: Proc)
    requires ProcOk(hist, p)
    ensures hist != [] && p.since < |hist| && ValidProgram(p.prog)
  {
  }

  lemma CommitKeeps(s: Sys, pid: nat)
    requires SysOk(s) && CanMove(s, Act(pid)) && s.procs[pid].pc.Ready?
    ensures SysOk(Step(s, Act(pid)))
  {
    hide HistOk, LogOk, Evolves, Inv, InboxOk, Atomic, ReadInTime, ProcOk, ValidProgram, View;
    var db, p, s' := Last(s.hist), s.procs[pid], Step(s, Act(pid));
    var op, db' := Op(p.prog, p.pc.basis, p.since), View(db, p);
    assert ProcOk(s.hist, p);
    ProcParts(s.hist, p);
    CommitAtomic(s.hist, p);
    LastState(s.hist);
    AtomicKeeps(db, op, db');
    HistGrows(s.hist, db');
    LogGrows(s.hist, s.log, op, db');
    FinishedOk(s'.hist, p, None);
    forall q | q in s'.procs && q != pid ensures ProcOk(s'.hist, s'.procs[q]) { CommitFrames(s, pid, q); }
  }

  /** A statement acquires nothing but what it waited for. */
  lemma Acquires(now: nat, db: Db, p: Proc)
    requires Exec(now, db, p).Go?
    ensures var p', want := Exec(now, db, p).p, Wants(View(db, p), p);
            p'.held <= p.held + (if want.Some? then {want.value} else {}) && p'.prog == p.prog && p'.since == p.since
    requires p.prog.Settle? && p.pc.LockRow? && p.prog.id in View(db, p).txs ==> View(db, p).txs[p.prog.id].id == p.prog.id
  {
    hide Decide, Check, Apply, CreditRow, View, FindByExternalId, FindByIdempotencyKey, Taken;
  }

  lemma LockRowId(hist: seq<Db>, p: Proc)
    requires HistOk(hist) && ProcOk(hist, p) && p.prog.Settle? && p.pc.LockRow?
    ensures p.prog.id in View(Last(hist), p).txs ==> View(Last(hist), p).txs[p.prog.id].id == p.prog.id
  {
    hide HistOk;
    ViewEmpty(Last(hist), p);
    TxIds(hist, p.prog.id);
  }

  lemma ActKeeps(s: Sys, pid: nat)
    requires SysOk(s) && CanMove(s, Act(pid)) && Exec(|s.hist| - 1, Last(s.hist), s.procs[pid]).Go?
    ensures SysOk(Step(s, Act(pid)))
  {
    hide HistOk, LogOk, ProcOk, Exec, Wants, View;
    var p := s.procs[pid];
    assert ProcOk(s.hist, p);
    StatementProgress(s.hist, p);
    if p.prog.Settle? && p.pc.LockRow? { LockRowId(s.hist, p); }
    Acquires(|s.hist| - 1, Last(s.hist), p);
  }

  lemma BeginOk(hist: seq<Db>, prog: Program)
    requires hist != [] && ValidProgram(prog)
    ensures ProcOk(hist, Proc(prog, StartPc(prog), {}, [], |hist| - 1))
  {
    match prog {
      case OpenUp(w) => assert [] + OpenWrites(w) == OpenWrites(w);
      case _ =>
    }
  }

  lemma CommitsOnlyReady(now: nat, db: Db, p: Proc)
    requires Exec(now, db, p).Commit?
    ensures p.pc.Ready?
  {
    hide View, Decide, Check, Apply, CreditRow, FindByExternalId, FindByIdempotencyKey, Taken;
  }

  /** Every move keeps the system invariant. */
  lemma StepKeeps(s: Sys, m: Move)
    requires SysOk(s) && CanMove(s, m)
    ensures SysOk(Step(s, m))
  {
    hide HistOk, LogOk, ProcOk, Exec;
    match m {
      case Begin(pid, prog) => BeginOk(s.hist, prog);
      case Abort(pid, e) => ProcParts(s.hist, s.procs[pid]); FinishedOk(s.hist, s.procs[pid], Some(e));
      case Act(pid) =>
        ProcParts(s.hist, s.procs[pid]);
        match Exec(|s.hist| - 1, Last(s.hist), s.procs[pid]) {
          case Go(_) => ActKeeps(s, pid);
          case Fail(e) => FinishedOk(s.hist, s.procs[pid], Some(e));
          case Commit => CommitsOnlyReady(|s.hist| - 1, Last(s.hist), s.procs[pid]); CommitKeeps(s, pid);
        }
    }
  }

  lemma InitialOk()
    ensures SysOk(INITIAL)
  {
    InvEmpty();
    EvolvesReflexive(EMPTY_DB);
  }

  /** Every interleaved run refines the atomic specification: the committed states form a run of atomic
      steps from the empty database, in which each unlocked read is what the table held at some state
      between the transaction's begin and its commit. */
  lemma {:induction false} EveryRunRefines(moves: seq<Move>)
    requires After(moves).Some?
    ensures SysOk(After(moves).value)
  {
    if moves == [] {
      InitialOk();
    } else {
      hide SysOk, CanMove;
      EveryRunRefines(moves[..|moves| - 1]);
      StepKeeps(After(moves[..|moves| - 1]).value, moves[|moves| - 1]);
    }
  }

  /** Any other step of a run is a stutter. */
  lemma OnlyCommitsChange(s: Sys, m: Move)
    requires SysOk(s) && CanMove(s, m)
    ensures var s' := Step(s, m);
            || (s'.hist == s.hist && s'.log == s.log)
            || (&& m.Act? && s'.log == s.log + [s'.log[|s.log|]] && s'.hist == s.hist + [Last(s'.hist)]
                && Atomic(Last(s.hist), s'.log[|s.log|], Last(s'.hist)))
  {
    hide HistOk, ProcOk, Exec, Atomic;
    StepKeeps(s, m);
    assert LogOk(Step(s, m).hist, Step(s, m).log);
  }
}
