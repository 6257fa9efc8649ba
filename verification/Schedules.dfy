/** Runs of the system, put together statement by statement: what the proofs leave possible does happen. */
module Schedules {
  import opened Amounts
  import opened Records
  import opened Tables
  import opened Steps
  import opened Invariants
  import opened Preservation
  import opened Evolution
  import opened Outcomes
  import opened Interleaving
  import opened Isolation
  import opened Knowledge
  import opened Refinement
  import opened Histories
  import opened Solo

  // ---------- Making moves ----------

  lemma AfterSnoc(moves: seq<Move>, m: Move)
    requires After(moves).Some? && CanMove(After(moves).value, m)
    ensures After(moves + [m]) == Option.Some(Step(After(moves).value, m))
  {
    hide CanMove;
    assert (moves + [m])[..|moves + [m]| - 1] == moves;
  }

  /** The one wallet that the program may lock, unless it answers a repeated message. */
  predicate Uses(db: Db, prog: Program, wallet: string) {
    match prog
    case Submit(t, _) => wallet == t.walletId
    case Settle(id) => id in db.txs ==> wallet == db.txs[id].walletId
    case OpenUp(_) => true
  }

  /** A lock that the program never asks for. */
  predicate Elsewhere(r: Resource, prog: Program, wallet: string) {
    match r
    case WalletLock(id) => (id != wallet && (prog.Submit? ==> prog.inbox.None?)) || prog.OpenUp?
    case TxLock(id) => prog.Settle? ==> id != prog.id
    case _ => false
  }

  ghost predicate Clear(s: Sys, pid: nat, prog: Program, wallet: string) {
    forall q, r :: q in s.procs && q != pid && r in s.procs[q].held ==> Elsewhere(r, prog, wallet)
  }

  lemma ReplaysOwnWallet(hist: seq<Db>, p: Proc)
    requires HistOk(hist) && ProcOk(hist, p) && p.prog.Submit? && p.pc.ReplayLock?
    ensures p.pc.row.walletId == p.prog.t.walletId
  {
    hide KeysOk, RowsOk, LedgerOk, WalletsOk, EventsOk, Owned, AllCovered, Run, Evolves, InboxOk;
    var row, at := p.pc.row, p.pc.at;
    assert Inv(hist[at]);
    RowFacts(hist[at], row.id);
    EqualHashes(row, p.prog.t);
  }

  lemma WantsNear(hist: seq<Db>, p: Proc, wallet: string)
    requires HistOk(hist) && ProcOk(hist, p) && Uses(Last(hist), p.prog, wallet)
    ensures var want := Wants(View(Last(hist), p), p); want.Some? ==> !Elsewhere(want.value, p.prog, wallet)
  {
    hide HistOk, Owned, AllCovered, Run, Decide, View, FindByExternalId, FindByIdempotencyKey, AsOf, CreditRow;
    match p.pc {
      case ReplayLock(row, at) => ReplaysOwnWallet(hist, p);
      case _ =>
    }
  }

  lemma NotBlocked(s: Sys, pid: nat, wallet: string)
    requires SysOk(s) && s.hist != [] && pid in s.procs && Uses(Current(s), s.procs[pid].prog, wallet)
    requires Clear(s, pid, s.procs[pid].prog, wallet)
    ensures !Blocked(s, pid)
  {
    hide LogOk, HistOk, ProcOk, Wants, View, Elsewhere;
    assert ProcOk(s.hist, s.procs[pid]);
    WantsNear(s.hist, s.procs[pid], wallet);
  }

  lemma KeepsProg(now: nat, db: Db, p: Proc)
    requires Exec(now, db, p).Go?
    ensures Exec(now, db, p).p.prog == p.prog && Exec(now, db, p).p.since == p.since && Running(p)
  {
    hide Decide, Check, Apply, CreditRow, View, FindByExternalId, FindByIdempotencyKey, Taken, AnswerFrom;
  }

  /** One statement. */
  lemma Acts(moves: seq<Move>, s: Sys, pid: nat, wallet: string, p': Proc)
    requires After(moves) == Option.Some(s) && s.hist != [] && pid in s.procs
    requires Uses(Current(s), s.procs[pid].prog, wallet) && Clear(s, pid, s.procs[pid].prog, wallet)
    requires Exec(|s.hist| - 1, Current(s), s.procs[pid]) == Go(p')
    ensures After(moves + [Act(pid)]) == Option.Some(s.(procs := s.procs[pid := p']))
    ensures p'.prog == s.procs[pid].prog && p'.since == s.procs[pid].since
  {
    hide SysOk, Exec, Blocked, Clear, Uses, After;
    EveryRunRefines(moves);
    NotBlocked(s, pid, wallet);
    KeepsProg(|s.hist| - 1, Current(s), s.procs[pid]);
    AfterSnoc(moves, Act(pid));
  }

  /** A transaction that has ended. */
  function Ended(p: Proc): Proc { Proc(p.prog, Finished(None), {}, [], p.since) }

  /** The system once a transaction has committed. */
  function Grown(s: Sys, pid: nat, p: Proc, db: Db, basis: Basis): Sys {
    Sys(s.hist + [db], s.procs[pid := Ended(p)], s.log + [Op(p.prog, basis, p.since)])
  }

  lemma ClearStays(s: Sys, pid: nat, p': Proc, wallet: string)
    requires Clear(s, pid, p'.prog, wallet)
    ensures Clear(s.(procs := s.procs[pid := p']), pid, p'.prog, wallet)
  {
  }

  /** A transaction that would commit alone commits, provided that the others hold nothing it asks for. */
  lemma {:induction false} Finishes(moves: seq<Move>, pid: nat, wallet: string, n: nat) returns (moves': seq<Move>)
    requires After(moves).Some? && After(moves).value.hist != [] && pid in After(moves).value.procs
    requires var s := After(moves).value;
             Uses(Current(s), s.procs[pid].prog, wallet) && Clear(s, pid, s.procs[pid].prog, wallet)
             && Alone(|s.hist| - 1, Current(s), s.procs[pid], n).Committed?
    ensures var s := After(moves).value;
            var o := Alone(|s.hist| - 1, Current(s), s.procs[pid], n);
            After(moves') == Option.Some(Grown(s, pid, s.procs[pid], o.db, o.basis))
    decreases n
  {
    hide SysOk, Exec, Blocked, Clear, Uses, View, After, Elsewhere;
    var s := After(moves).value;
    var now, db, p := |s.hist| - 1, Current(s), s.procs[pid];
    match Exec(now, db, p) {
      case Go(p') =>
        Acts(moves, s, pid, wallet, p');
        var s' := s.(procs := s.procs[pid := p']);
        ClearStays(s, pid, p', wallet);
        moves' := Finishes(moves + [Act(pid)], pid, wallet, n - 1);
        assert s.procs[pid := p'][pid := Ended(p)] == s.procs[pid := Ended(p)];
      case Commit =>
        EveryRunRefines(moves);
        NotBlocked(s, pid, wallet);
        CommitsOnlyReady(now, db, p);
        moves' := moves + [Act(pid)];
        AfterSnoc(moves, Act(pid));
      case Fail(_) =>
    }
  }

  // ---------- Whole use cases ----------

  lemma Begins(moves: seq<Move>, pid: nat, prog: Program)
    requires After(moves).Some? && After(moves).value.hist != [] && pid !in After(moves).value.procs && ValidProgram(prog)
    ensures var s := After(moves).value;
            After(moves + [Begin(pid, prog)]) == Option.Some(s.(procs := s.procs[pid := Begun(prog, |s.hist| - 1)]))
  {
    hide After, ValidProgram;
    AfterSnoc(moves, Begin(pid, prog));
  }

  /** What a program comes to that begins now and is not disturbed. */
  function FromNow(s: Sys, prog: Program): Outcome
    requires s.hist != []
  {
    Alone(|s.hist| - 1, Current(s), Begun(prog, |s.hist| - 1), 24)
  }

  lemma RunsWhole(moves: seq<Move>, s: Sys, pid: nat, prog: Program, wallet: string) returns (moves': seq<Move>)
    requires After(moves) == Option.Some(s) && s.hist != [] && pid !in s.procs && ValidProgram(prog)
    requires Uses(Current(s), prog, wallet) && Clear(s, pid, prog, wallet) && FromNow(s, prog).Committed?
    ensures After(moves') ==
            Option.Some(Grown(s, pid, Begun(prog, |s.hist| - 1), FromNow(s, prog).db, FromNow(s, prog).basis))
  {
    hide Alone, Clear, Uses, After, ValidProgram;
    var p := Begun(prog, |s.hist| - 1);
    Begins(moves, pid, prog);
    ClearStays(s, pid, p, wallet);
    moves' := Finishes(moves + [Begin(pid, prog)], pid, wallet, 24);
    assert s.procs[pid := p][pid := Ended(p)] == s.procs[pid := Ended(p)];
  }

  /** Nobody holds anything. */
  ghost predicate AllIdle(s: Sys) { forall q :: q in s.procs ==> s.procs[q].held == {} }

  lemma IdleIsClear(s: Sys, pid: nat, prog: Program, wallet: string)
    requires AllIdle(s)
    ensures Clear(s, pid, prog, wallet)
  {
  }

  lemma CurrentOk(moves: seq<Move>)
    requires After(moves).Some?
    ensures SysOk(After(moves).value) && After(moves).value.hist != []
    ensures Inv(Current(After(moves).value)) && KeysOk(Current(After(moves).value))
  {
    hide SysOk, InboxOk, KeysOk, RowsOk, LedgerOk, WalletsOk, EventsOk, After;
    EveryRunRefines(moves);
    Start(After(moves).value);
    StateOk(After(moves).value, |After(moves).value.hist| - 1);
  }

  lemma OpensWhole(moves: seq<Move>, pid: nat, w: WalletRow) returns (moves': seq<Move>)
    requires After(moves).Some? && After(moves).value.hist != [] && pid !in After(moves).value.procs
    requires NewWallet(w) && AllIdle(After(moves).value) && Open(Current(After(moves).value), w).Ok?
    ensures var s := After(moves).value;
            After(moves') == Option.Some(Grown(s, pid, Begun(OpenUp(w), |s.hist| - 1), Open(Current(s), w).value, Opened))
  {
    hide Alone, Clear, AllIdle, Open, After;
    var s := After(moves).value;
    OpeningAlone(|s.hist| - 1, Current(s), w);
    IdleIsClear(s, pid, OpenUp(w), "");
    moves' := RunsWhole(moves, s, pid, OpenUp(w), "");
  }

  lemma SubmitsWhole(moves: seq<Move>, pid: nat, t: TxRow, inbox: Option<Claim>) returns (moves': seq<Move>, basis: Basis)
    requires After(moves).Some? && After(moves).value.hist != [] && pid !in After(moves).value.procs
    requires ValidProgram(Submit(t, inbox)) && Clear(After(moves).value, pid, Submit(t, inbox), t.walletId)
    requires Wager(Current(After(moves).value), t, inbox).Ok?
    ensures var s := After(moves).value;
            After(moves') ==
            Option.Some(Grown(s, pid, Begun(Submit(t, inbox), |s.hist| - 1), Wager(Current(s), t, inbox).value.0, basis))
            && (basis.Answered? || basis.Decided?) && basis.out == Wager(Current(s), t, inbox).value.1
  {
    hide Alone, Clear, AllIdle, Wager, After, KeysOk;
    var s := After(moves).value;
    CurrentOk(moves);
    SubmissionAlone(|s.hist| - 1, Current(s), t, inbox);
    moves' := RunsWhole(moves, s, pid, Submit(t, inbox), t.walletId);
    basis := FromNow(s, Submit(t, inbox)).basis;
  }

  lemma SettlesWhole(moves: seq<Move>, pid: nat, id: string, wallet: string) returns (moves': seq<Move>, basis: Basis)
    requires After(moves).Some? && After(moves).value.hist != [] && pid !in After(moves).value.procs
    requires Uses(Current(After(moves).value), Settle(id), wallet) && Clear(After(moves).value, pid, Settle(id), wallet)
    requires Resolve(Current(After(moves).value), id).Ok?
    ensures var s := After(moves).value;
            After(moves') == Option.Some(Grown(s, pid, Begun(Settle(id), |s.hist| - 1), Resolve(Current(s), id).value, basis))
  {
    hide Alone, Clear, AllIdle, Resolve, After, KeysOk;
    var s := After(moves).value;
    CurrentOk(moves);
    ResolutionAlone(|s.hist| - 1, Current(s), id);
    moves' := RunsWhole(moves, s, pid, Settle(id), wallet);
    basis := Alone(|s.hist| - 1, Current(s), Begun(Settle(id), |s.hist| - 1), 24).basis;
  }

  // ---------- Interrupted use cases ----------

  /** A reversal at each of its statements up to its plan. */
  function Reader(t: TxRow, pc: Pc, held: set<Resource>, since: nat): Proc { Proc(Submit(t, None), pc, held, [], since) }

  function ParkPc(t: TxRow, w: WalletRow, now: nat): Pc {
    Writing(0, PlanRecord(t, w, PendingReference, "", TxParked(t.id)).writes,
            Decided(None, now, w, Output(t.id, PendingReference, w.balance, false)))
  }

  /** A reversal whose reference is unknown comes to its plan, holding no more than its wallet's lock. */
  lemma ReaderSteps(now: nat, db: Db, t: TxRow)
    requires NewRow(t) && IsReversal(t.kind) && Existing(db, t).Absent? && FindByExternalId(db, RefOf(t)).None?
    requires t.walletId in db.wallets && db.wallets[t.walletId].playerId == t.playerId
    ensures var w, lock := db.wallets[t.walletId], {WalletLock(t.walletId)};
            && Exec(now, db, Reader(t, AtInbox, {}, now)) == Go(Reader(t, LookExt(false), {}, now))
            && Exec(now, db, Reader(t, LookExt(false), {}, now)) == Go(Reader(t, LookKey(false), {}, now))
            && Exec(now, db, Reader(t, LookKey(false), {}, now)) == Go(Reader(t, LockWallet, {}, now))
            && Exec(now, db, Reader(t, LockWallet, {}, now)) == Go(Reader(t, ReadRef(w), lock, now))
            && Exec(now, db, Reader(t, ReadRef(w), lock, now)) == Go(Reader(t, ParkPc(t, w, now), lock, now))
  {
    hide Run, FindByExternalId, FindByIdempotencyKey;
    RunNothing(db);
  }

  lemma FreeIsAbsent(db: Db, t: TxRow)
    requires KeysOk(db) && Fresh(db, t)
    ensures Existing(db, t).Absent?
  {
  }

  /** One statement of a transaction beside an otherwise unchanged system. */
  lemma ActsTo(moves: seq<Move>, s: Sys, pid: nat, p: Proc, p': Proc, wallet: string) returns (moves': seq<Move>)
    requires s.hist != [] && After(moves) == Option.Some(s.(procs := s.procs[pid := p]))
    requires Uses(Current(s), p.prog, wallet) && Clear(s, pid, p.prog, wallet) && Exec(|s.hist| - 1, Current(s), p) == Go(p')
    ensures After(moves') == Option.Some(s.(procs := s.procs[pid := p']))
  {
    hide Clear, After, Exec, Uses;
    ClearStays(s, pid, p, wallet);
    Acts(moves, s.(procs := s.procs[pid := p]), pid, wallet, p');
    moves' := moves + [Act(pid)];
    assert s.procs[pid := p][pid := p'] == s.procs[pid := p'];
  }

  /** A reversal is begun and stopped just before it is parked. */
  lemma StopsBeforeParking(moves: seq<Move>, pid: nat, t: TxRow) returns (moves': seq<Move>)
    requires After(moves).Some? && After(moves).value.hist != [] && pid !in After(moves).value.procs
    requires NewRow(t) && IsReversal(t.kind) && AllIdle(After(moves).value)
    requires Enters(Current(After(moves).value), t, None) && FindByExternalId(Current(After(moves).value), RefOf(t)).None?
    ensures var s := After(moves).value;
            var p := Reader(t, ParkPc(t, Current(s).wallets[t.walletId], |s.hist| - 1), {WalletLock(t.walletId)}, |s.hist| - 1);
            After(moves') == Option.Some(s.(procs := s.procs[pid := p]))
  {
    hide Clear, AllIdle, After, KeysOk, Exec, Existing, FindByExternalId, NewRow;
    var s := After(moves).value;
    var now, db, prog := |s.hist| - 1, Current(s), Submit(t, None);
    CurrentOk(moves);
    FreeIsAbsent(db, t);
    ReaderSteps(now, db, t);
    IdleIsClear(s, pid, prog, t.walletId);
    Begins(moves, pid, prog);
    var w, lock := db.wallets[t.walletId], {WalletLock(t.walletId)};
    moves' := moves + [Begin(pid, prog)];
    moves' := ActsTo(moves', s, pid, Reader(t, AtInbox, {}, now), Reader(t, LookExt(false), {}, now), t.walletId);
    moves' := ActsTo(moves', s, pid, Reader(t, LookExt(false), {}, now), Reader(t, LookKey(false), {}, now), t.walletId);
    moves' := ActsTo(moves', s, pid, Reader(t, LookKey(false), {}, now), Reader(t, LockWallet, {}, now), t.walletId);
    moves' := ActsTo(moves', s, pid, Reader(t, LockWallet, {}, now), Reader(t, ReadRef(w), lock, now), t.walletId);
    moves' := ActsTo(moves', s, pid, Reader(t, ReadRef(w), lock, now), Reader(t, ParkPc(t, w, now), lock, now), t.walletId);
  }

  /** A resolution at each of its statements up to its plan. */
  function Settler(id: string, pc: Pc, held: set<Resource>, since: nat): Proc { Proc(Settle(id), pc, held, [], since) }

  function RejectPc(row: TxRow, ref: TxRow, now: nat): Pc {
    Writing(0, ShelveWrites(row, Option.Some(ref)), Shelved(row, Option.Some(ref), now))
  }

  lemma SettlerSteps(now: nat, db: Db, row: TxRow, ref: TxRow)
    requires StandsAs(db, row.id, row) && row.status == PendingReference
    requires FindByExternalId(db, RefOf(row)) == Option.Some(ref) && ref.status != Processed
    ensures var lock := {TxLock(row.id)};
            && Exec(now, db, Settler(row.id, LockRow, {}, now)) == Go(Settler(row.id, ReadRowRef(row), lock, now))
            && Exec(now, db, Settler(row.id, ReadRowRef(row), lock, now)) == Go(Settler(row.id, RejectPc(row, ref, now), lock, now))
  {
    hide Run, FindByExternalId, ShelveWrites;
    RunNothing(db);
  }

  /** A resolution of a row whose reference is not processed is begun and stopped just before it rejects. */
  lemma StopsBeforeRejecting(moves: seq<Move>, pid: nat, row: TxRow, ref: TxRow) returns (moves': seq<Move>)
    requires After(moves).Some? && After(moves).value.hist != [] && pid !in After(moves).value.procs && AllIdle(After(moves).value)
    requires var db := Current(After(moves).value);
             StandsAs(db, row.id, row) && row.status == PendingReference
             && FindByExternalId(db, RefOf(row)) == Option.Some(ref) && ref.status != Processed
    ensures var s := After(moves).value;
            var p := Settler(row.id, RejectPc(row, ref, |s.hist| - 1), {TxLock(row.id)}, |s.hist| - 1);
            After(moves') == Option.Some(s.(procs := s.procs[pid := p]))
  {
    hide Clear, AllIdle, After, Exec, FindByExternalId;
    var s := After(moves).value;
    var now, db, prog := |s.hist| - 1, Current(s), Settle(row.id);
    SettlerSteps(now, db, row, ref);
    IdleIsClear(s, pid, prog, row.walletId);
    Begins(moves, pid, prog);
    var lock := {TxLock(row.id)};
    moves' := moves + [Begin(pid, prog)];
    moves' := ActsTo(moves', s, pid, Settler(row.id, LockRow, {}, now), Settler(row.id, ReadRowRef(row), lock, now), row.walletId);
    moves' := ActsTo(moves', s, pid, Settler(row.id, ReadRowRef(row), lock, now),
                     Settler(row.id, RejectPc(row, ref, now), lock, now), row.walletId);
  }
}
