/** When a caller need not fear a stale read. A reversal reads its reference without a lock, but holds the
    lock of its own wallet from before that read until its commit, and every insert of a row for that
    wallet needs the same lock. */
module SameWallet {
  import opened Amounts
  import opened Records
  import opened Tables
  import opened Steps
  import opened Invariants
  import opened Preservation
  import opened Evolution
  import opened Interleaving
  import opened Isolation
  import opened Knowledge
  import opened Progress
  import opened Refinement
  import opened Histories
  import opened Slack

  /** No row of this wallet is under the key. */
  predicate NoneOnWallet(db: Db, key: (string, string), id: string) {
    var row := FindByExternalId(db, key);
    row.Some? ==> row.value.walletId != id
  }

  function BasisOf(p: Proc): Basis {
    match p.pc case Writing(_, _, b) => b case Ready(b) => b case _ => Opened
  }

  /** The decision to park a reversal. */
  predicate Parks(prog: Program, b: Basis) { prog.Submit? && IsReversal(prog.t.kind) && b.Decided? && b.read.None? }

  /** The reversal that is about to be parked has missed no row of its own wallet. */
  predicate MissesNone(db: Db, prog: Program, b: Basis) {
    Parks(prog, b) ==> NoneOnWallet(db, RefOf(prog.t), prog.t.walletId)
  }

  ghost predicate ProcsMissNone(s: Sys)
    requires s.hist != []
  {
    forall pid :: pid in s.procs ==> MissesNone(Last(s.hist), s.procs[pid].prog, BasisOf(s.procs[pid]))
  }

  ghost predicate LogMissesNone(hist: seq<Db>, log: seq<Op>)
    requires |log| <= |hist|
  {
    forall i {:trigger log[i]} :: 0 <= i < |log| ==> MissesNone(hist[i], log[i].prog, log[i].basis)
  }

  ghost predicate NoneMissed(s: Sys) {
    SysOk(s) && s.hist != [] && |s.log| <= |s.hist| && ProcsMissNone(s) && LogMissesNone(s.hist, s.log)
  }

  // ---------- Rows that a commit adds ----------

  predicate AddedBy(db: Db, op: Op, row: TxRow) {
    match op.prog
    case Submit(t, _) => op.basis.Decided? && row.walletId == t.walletId
    case OpenUp(w) => row.walletId == w.id && w.id !in db.wallets
    case Settle(_) => false
  }

  lemma SameTxs(db: Db, t: TxRow, inbox: Option<Claim>, read: Option<TxRow>)
    requires IsRepeated(db, inbox) && WagerStep(db, t, inbox, read).Ok?
    ensures WagerStep(db, t, inbox, read).value.0.txs == db.txs
  {
    hide AnswerFrom;
  }

  lemma SubmitAdds(db: Db, op: Op, db': Db, i: string)
    requires op.prog.Submit? && Atomic(db, op, db') && i in db'.txs && i !in db.txs
    ensures AddedBy(db, op, db'.txs[i])
  {
    hide Run, Check, Decide, Existing, AnswerFrom, FreshRead, Earlier;
    var t, inbox, read := op.prog.t, op.prog.inbox, op.basis.read;
    if IsRepeated(db, inbox) {
      SameTxs(db, t, inbox, read);
    } else {
      RunInbox(db, inbox, []);
      if Existing(db, t).Absent? {
        var w := db.wallets[t.walletId];
        var ws := Decide(t, w, read).writes;
        RunInbox(db, inbox, ws);
        PlanShape(t, w, read);
        OneRowChanges(WithInbox(db, inbox), ws);
      }
    }
  }

  lemma UpdateAddsNone(db: Db, ws: seq<Write>)
    requires Run(db, ws).Ok? && ws != [] && ws[0].UpdTx? && forall k :: 0 < k < |ws| ==> !ws[k].InsTx? && !ws[k].UpdTx?
    ensures Run(db, ws).value.txs.Keys == db.txs.Keys
  {
    hide Run, Check;
    OneRowChanges(db, ws);
  }

  lemma ResolveAddsNone(db: Db, id: string, read: Option<TxRow>)
    requires ResolveStep(db, id, read).Ok?
    ensures ResolveStep(db, id, read).value.txs.Keys == db.txs.Keys
  {
    hide Run, Check, Apply, CreditRow;
    if id in db.txs && db.txs[id].status == PendingReference {
      var row := db.txs[id];
      if Usable(read) {
        var w := db.wallets[row.walletId];
        UpdateAddsNone(db, SettleWrites(row, w, CreditRow(w, row.money).value));
      } else {
        UpdateAddsNone(db, ShelveWrites(row, read));
      }
    }
  }

  lemma SettleAdds(db: Db, op: Op, db': Db)
    requires op.prog.Settle? && Atomic(db, op, db')
    ensures db'.txs.Keys == db.txs.Keys
  {
    hide ResolveStep, Earlier;
    if !op.basis.Idle? { ResolveAddsNone(db, op.prog.id, op.basis.read); }
  }

  lemma OpenAdds(db: Db, op: Op, db': Db, i: string)
    requires op.prog.OpenUp? && Atomic(db, op, db') && i in db'.txs && i !in db.txs
    ensures AddedBy(db, op, db'.txs[i])
  {
    hide Open;
    OpenEffect(db, op.prog.wallet);
  }

  lemma CommitAdds(db: Db, op: Op, db': Db, i: string)
    requires Inv(db) && Atomic(db, op, db') && i in db'.txs && i !in db.txs
    ensures AddedBy(db, op, db'.txs[i])
  {
    hide Inv, Atomic, AddedBy;
    match op.prog {
      case Submit(_, _) => SubmitAdds(db, op, db', i);
      case Settle(_) => SettleAdds(db, op, db');
      case OpenUp(_) => OpenAdds(db, op, db', i);
    }
  }

  lemma RowStays(db: Db, db': Db, id: string)
    requires Evolves(db, db') && id in db.txs
    ensures id in db'.txs && ExtOf(db'.txs[id]) == ExtOf(db.txs[id]) && db'.txs[id].walletId == db.txs[id].walletId
    ensures RowEvolves(db.txs[id], db'.txs[id])
  {
    hide IndexesEvolve;
    assert RowEvolves(db.txs[id], db'.txs[id]);
  }

  /** A commit that adds no row of the wallet leaves none of its rows under the key. */
  lemma NoneOnWalletStays(db: Db, op: Op, db': Db, key: (string, string), id: string)
    requires Inv(db) && Inv(db') && Evolves(db, db') && Atomic(db, op, db')
    requires NoneOnWallet(db, key, id) && forall row :: AddedBy(db, op, row) ==> row.walletId != id
    ensures NoneOnWallet(db', key, id)
  {
    hide Atomic, AddedBy, Evolves, Inv, FindByExternalId;
    InvKeys(db);
    InvKeys(db');
    ExternalIdLookup(db', key);
    if FindByExternalId(db', key).Some? {
      var row := FindByExternalId(db', key).value;
      if row.id in db.txs {
        ExternalIdLookup(db, key);
        RowStays(db, db', row.id);
      } else {
        CommitAdds(db, op, db', row.id);
      }
    }
  }

  // ---------- Every run ----------

  /** A statement that decides to park has just looked for the reference and found none. */
  lemma ParkingLooked(now: nat, db: Db, p: Proc)
    requires Exec(now, db, p).Go? && Parks(p.prog, BasisOf(Exec(now, db, p).p))
    ensures BasisOf(p) == BasisOf(Exec(now, db, p).p)
            || (p.pc.ReadRef? && FindByExternalId(View(db, p), RefOf(p.prog.t)).None?)
  {
    hide Decide, Check, Apply, CreditRow, View, FindByExternalId, FindByIdempotencyKey, Taken, AnswerFrom;
  }

  lemma ViewFinds(hist: seq<Db>, p: Proc)
    requires ProcOk(hist, p) && p.prog.Submit? && p.pc.ReadRef?
    ensures FindByExternalId(View(Last(hist), p), RefOf(p.prog.t)) == FindByExternalId(Last(hist), RefOf(p.prog.t))
  {
    hide Run, Owned, AllCovered;
    ViewBase(Last(hist), p);
  }

  lemma KeepsProgram(now: nat, db: Db, p: Proc)
    requires Exec(now, db, p).Go?
    ensures Exec(now, db, p).p.prog == p.prog
  {
    hide Decide, Check, Apply, CreditRow, View, FindByExternalId, FindByIdempotencyKey, Taken, AnswerFrom;
  }

  lemma GoMissesNone(hist: seq<Db>, p: Proc)
    requires hist != [] && ProcOk(hist, p) && MissesNone(Last(hist), p.prog, BasisOf(p)) && Exec(|hist| - 1, Last(hist), p).Go?
    ensures var p' := Exec(|hist| - 1, Last(hist), p).p; MissesNone(Last(hist), p'.prog, BasisOf(p'))
  {
    hide ProcOk, Exec, FindByExternalId, BasisOf;
    var p' := Exec(|hist| - 1, Last(hist), p).p;
    KeepsProgram(|hist| - 1, Last(hist), p);
    if Parks(p'.prog, BasisOf(p')) {
      ParkingLooked(|hist| - 1, Last(hist), p);
      if p.pc.ReadRef? { ViewFinds(hist, p); }
    }
  }

  /** A transaction about to park a reversal holds the lock of the reversal's wallet. */
  lemma ParkerHoldsLock(hist: seq<Db>, p: Proc)
    requires ProcOk(hist, p) && Parks(p.prog, BasisOf(p))
    ensures WalletLock(p.prog.t.walletId) in p.held && p.prog.t.walletId in Last(hist).wallets
  {
    hide Owned, AllCovered, Run, Decide, FindByExternalId;
  }

  /** So does one about to add a row to the wallet, unless it is opening the wallet. */
  lemma AdderHoldsLock(hist: seq<Db>, p: Proc)
    requires ProcOk(hist, p) && p.pc.Ready? && p.prog.Submit? && p.pc.basis.Decided?
    ensures WalletLock(p.prog.t.walletId) in p.held
  {
    hide Owned, AllCovered, Run, Decide, FindByExternalId;
  }

  lemma AddsElsewhere(s: Sys, pid: nat, q: nat)
    requires SysOk(s) && pid in s.procs && q in s.procs && q != pid && s.procs[pid].pc.Ready?
    requires Parks(s.procs[q].prog, BasisOf(s.procs[q]))
    ensures var p := s.procs[pid];
            forall row :: AddedBy(Last(s.hist), Op(p.prog, p.pc.basis, p.since), row) ==> row.walletId != s.procs[q].prog.t.walletId
  {
    hide HistOk, LogOk, ProcOk, BasisOf;
    var p, r := s.procs[pid], s.procs[q];
    assert ProcOk(s.hist, p) && ProcOk(s.hist, r);
    ParkerHoldsLock(s.hist, r);
    if p.prog.Submit? && p.pc.basis.Decided? {
      AdderHoldsLock(s.hist, p);
      assert p.held !! r.held;
    }
  }

  lemma LogGrowsQuietly(hist: seq<Db>, log: seq<Op>, db': Db, op: Op)
    requires |hist| == |log| + 1 && LogMissesNone(hist, log) && MissesNone(Last(hist), op.prog, op.basis)
    ensures LogMissesNone(hist + [db'], log + [op])
  {
    hide MissesNone;
  }

  lemma CommitFacts(s: Sys, pid: nat)
    requires SysOk(s) && CanMove(s, Act(pid)) && s.procs[pid].pc.Ready?
    ensures var db, p := Last(s.hist), s.procs[pid];
            var db' := View(db, p);
            Inv(db) && Inv(db') && Evolves(db, db') && Atomic(db, Op(p.prog, p.pc.basis, p.since), db') && |s.hist| == |s.log| + 1
  {
    hide HistOk, ProcOk, Inv, InboxOk, Evolves, Atomic, View, Blocked, ReadInTime, ValidProgram;
    var db, p := Last(s.hist), s.procs[pid];
    assert ProcOk(s.hist, p);
    ProcParts(s.hist, p);
    LastState(s.hist);
    CommitAtomic(s.hist, p);
    AtomicKeeps(db, Op(p.prog, p.pc.basis, p.since), View(db, p));
  }

  lemma CommitMissesNone(s: Sys, pid: nat)
    requires NoneMissed(s) && CanMove(s, Act(pid)) && s.procs[pid].pc.Ready?
    ensures NoneMissed(Step(s, Act(pid)))
  {
    hide SysOk, HistOk, ProcOk, Inv, InboxOk, Evolves, Atomic, AddedBy, View, Blocked, ReadInTime, ValidProgram, NoneOnWallet;
    var db, p, s' := Last(s.hist), s.procs[pid], Step(s, Act(pid));
    var op, db' := Op(p.prog, p.pc.basis, p.since), View(db, p);
    StepKeeps(s, Act(pid));
    CommitFacts(s, pid);
    assert MissesNone(db, p.prog, BasisOf(p));
    forall q | q in s'.procs ensures MissesNone(db', s'.procs[q].prog, BasisOf(s'.procs[q])) {
      if q != pid && Parks(s.procs[q].prog, BasisOf(s.procs[q])) {
        assert MissesNone(db, s.procs[q].prog, BasisOf(s.procs[q]));
        AddsElsewhere(s, pid, q);
        NoneOnWalletStays(db, op, db', RefOf(s.procs[q].prog.t), s.procs[q].prog.t.walletId);
      }
    }
    LogGrowsQuietly(s.hist, s.log, db', op);
  }

  lemma SysProc(s: Sys, pid: nat)
    requires SysOk(s) && pid in s.procs
    ensures ProcOk(s.hist, s.procs[pid])
  {
    hide HistOk, LogOk, ProcOk;
  }

  lemma StepMissesNone(s: Sys, m: Move)
    requires NoneMissed(s) && CanMove(s, m)
    ensures NoneMissed(Step(s, m))
  {
    hide SysOk, HistOk, ProcOk, LogMissesNone, Exec, Blocked, ValidProgram, NoneOnWallet;
    StepKeeps(s, m);
    if m.Act? {
      var p := s.procs[m.pid];
      assert ProcOk(s.hist, p) by { SysProc(s, m.pid); }
      match Exec(|s.hist| - 1, Last(s.hist), p) {
        case Go(_) => assert MissesNone(Last(s.hist), p.prog, BasisOf(p)); GoMissesNone(s.hist, p);
        case Fail(_) =>
        case Commit => CommitsOnlyReady(|s.hist| - 1, Last(s.hist), p); CommitMissesNone(s, m.pid);
      }
    }
  }

  /** In every run, a reversal is parked only beside rows of other wallets. */
  lemma {:induction false} EveryRunMissesNone(moves: seq<Move>)
    requires After(moves).Some?
    ensures NoneMissed(After(moves).value)
  {
    if moves == [] {
      hide SysOk;
      InitialOk();
    } else {
      hide NoneMissed, CanMove;
      EveryRunMissesNone(moves[..|moves| - 1]);
      StepMissesNone(After(moves[..|moves| - 1]).value, moves[|moves| - 1]);
    }
  }

  lemma ReadPaid(db: Db, op: Op, db': Db)
    requires Atomic(db, op, db') && ValidProgram(op.prog) && op.prog.Submit? && IsReversal(op.prog.t.kind)
    requires op.basis.Decided? && op.basis.read.Some?
    ensures Timely(db, op)
  {
    hide Run, Existing, FindByExternalId, Decide, Surface;
    DecisionStatus(op.prog.t, db.wallets[op.prog.t.walletId], op.basis.read);
  }

  /** In every run, a new reversal whose reference is on record for its own wallet when it commits is
      undisturbed: it is credited, and never parked beside its reference. */
  lemma SameWalletIsNeverStale(moves: seq<Move>, i: nat)
    requires After(moves).Some? && i < |After(moves).value.log| < |After(moves).value.hist|
    requires var s := After(moves).value;
             var prog := s.log[i].prog;
             prog.Submit? && IsReversal(prog.t.kind) && s.log[i].basis.Decided?
             && !NoneOnWallet(s.hist[i], RefOf(prog.t), prog.t.walletId)
    ensures var s := After(moves).value; Undisturbed(s.hist[i], s.log[i], s.hist[i + 1])
  {
    hide SysOk, After, Inv, InboxOk, Atomic, Undisturbed, ValidProgram, NoneOnWallet;
    var s := After(moves).value;
    EveryRunMissesNone(moves);
    StateOk(s, i);
    LogStep(s, i);
    assert MissesNone(s.hist[i], s.log[i].prog, s.log[i].basis);
    UndisturbedWhen(s.hist[i], s.log[i], s.hist[i + 1]);
    ReadPaid(s.hist[i], s.log[i], s.hist[i + 1]);
  }

  lemma LogRead(s: Sys, i: nat)
    requires SysOk(s) && i < |s.log| && i + 1 < |s.hist|
    ensures ReadInTime(s.hist[..i + 1], s.log[i])
  {
    hide HistOk, ProcOk, Atomic, ReadInTime, ValidProgram;
  }

  lemma ShelvedRead(s: Sys, i: nat)
    requires SysOk(s) && i < |s.log| < |s.hist| && s.log[i].basis.Shelved? && s.log[i].basis.read.Some?
    ensures RowOk(s.log[i].basis.read.value)
  {
    hide SysOk, InboxOk, KeysOk, LedgerOk, WalletsOk, EventsOk, FindByExternalId;
    LogRead(s, i);
    var b := s.log[i].basis;
    assert s.hist[..i + 1][b.at] == s.hist[b.at];
    StateOk(s, b.at);
    ExternalIdLookup(s.hist[b.at], RefOf(b.row));
    assert RowOk(s.hist[b.at].txs[b.read.value.id]);
  }

  /** A parked reversal is rejected for a stale read only if its reference is itself a reversal, was parked
      when it was read, and has been processed since. */
  lemma StaleRejectionNeedsParkedReference(s: Sys, i: nat)
    requires SysOk(s) && i < |s.log| < |s.hist| && s.log[i].prog.Settle? && s.log[i].basis.Shelved?
    requires s.log[i].basis.read.Some? && !Undisturbed(s.hist[i], s.log[i], s.hist[i + 1])
    ensures var read, now := s.log[i].basis.read.value, ReferenceOf(s.hist[i], s.log[i].prog.id);
            read.status == PendingReference && IsReversal(read.kind)
            && now.Some? && now.value.id == read.id && now.value.status == Processed
  {
    hide SysOk, Inv, InboxOk, Undisturbed, ValidProgram, FindByExternalId, ResolveStep, ReadInTime;
    StateOk(s, i);
    LogStep(s, i);
    UndisturbedWhen(s.hist[i], s.log[i], s.hist[i + 1]);
    ShelvedRead(s, i);
  }
}
