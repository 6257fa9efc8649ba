/** The lock discipline: a locked wallet stays as it was read, the version guard always hits, no two
    transactions ever wait for each other in a circle, and every transaction ends. */
module Locks {
  import opened Amounts
  import opened Records
  import opened Tables
  import opened Steps
  import opened Invariants
  import opened Evolution
  import opened Interleaving
  import opened Isolation
  import opened Knowledge
  import opened Progress
  import opened Refinement

  // ---------- The wallet lock ----------

  function Actor(m: Move): nat { m.pid }
  function Wallets(s: Sys): map<string, WalletRow> { if s.hist == [] then map[] else Last(s.hist).wallets }

  lemma ProcOwns(hist: seq<Db>, p: Proc)
    requires ProcOk(hist, p)
    ensures Owned(Last(hist), p.held) && AllCovered(p.done, p.held) && Run(Last(hist), p.done).Ok?
  {
  }

  lemma CommitView(db: Db, p: Proc)
    requires Run(db, p.done).Ok?
    ensures View(db, p) == Run(db, p.done).value
  {
  }

  /** While a transaction holds a wallet's lock, no step of another changes that wallet. */
  lemma LockedWalletStays(s: Sys, m: Move, pid: nat, id: string)
    requires SysOk(s) && CanMove(s, m) && pid in s.procs && Actor(m) != pid
    requires WalletLock(id) in s.procs[pid].held
    ensures id in Wallets(s) && id in Wallets(Step(s, m)) && Wallets(Step(s, m))[id] == Wallets(s)[id]
  {
    hide HistOk, LogOk, ProcOk, Exec, View, Agree, Run, AllCovered;
    var p, db := s.procs[pid], Last(s.hist);
    assert ProcOk(s.hist, p);
    ProcOwns(s.hist, p);
    assert OwnedOne(db, WalletLock(id));
    if m.Act? {
      var q := s.procs[m.pid];
      assert ProcOk(s.hist, q);
      ProcOwns(s.hist, q);
      DisjointApart(db, q.held, p.held);
      RunFrames(db, q.done, q.held, p.held);
      CommitView(db, q);
      AgreeParts(db, View(db, q), p.held);
      assert OwnsWallet(p.held, id);
    }
  }

  function Rows(s: Sys): map<string, TxRow> { if s.hist == [] then map[] else Last(s.hist).txs }

  /** While a resolution holds the lock of a row, no step of another changes that row. */
  lemma LockedRowStays(s: Sys, m: Move, pid: nat, id: string)
    requires SysOk(s) && CanMove(s, m) && pid in s.procs && Actor(m) != pid
    requires TxLock(id) in s.procs[pid].held
    ensures id in Rows(s) && id in Rows(Step(s, m)) && Rows(Step(s, m))[id] == Rows(s)[id]
  {
    hide HistOk, LogOk, ProcOk, Exec, View, Agree, Run, AllCovered;
    var p, db := s.procs[pid], Last(s.hist);
    assert ProcOk(s.hist, p);
    ProcOwns(s.hist, p);
    assert OwnedOne(db, TxLock(id));
    if m.Act? {
      var q := s.procs[m.pid];
      assert ProcOk(s.hist, q);
      ProcOwns(s.hist, q);
      DisjointApart(db, q.held, p.held);
      RunFrames(db, q.done, q.held, p.held);
      CommitView(db, q);
      AgreeParts(db, View(db, q), p.held);
      assert OwnsTx(p.held, id);
    }
  }

  predicate GuardHits(view: Db, w: Write)
    requires w.UpdWallet?
  {
    w.wallet.id in view.wallets && view.wallets[w.wallet.id].version == w.expected && Check(view, w) != Some(WalletNotFound)
  }

  predicate AboutToUpdate(p: Proc) { p.pc.Writing? && p.pc.todo != [] && p.pc.todo[0].UpdWallet? }

  lemma PlanUpdate(t: TxRow, w: WalletRow, read: Option<TxRow>, k: nat)
    requires Decide(t, w, read).Plan? && k < |Decide(t, w, read).writes| && Decide(t, w, read).writes[k].UpdWallet?
    ensures k == 1 && Decide(t, w, read).writes[k].wallet.id == w.id && Decide(t, w, read).writes[k].expected == w.version
  {
    hide Decide;
    var _, _ := PlanCases(t, w, read);
  }

  /** A plan updates one wallet, once, by the version it was locked at. */
  lemma GuardOfPlan(t: TxRow, w: WalletRow, read: Option<TxRow>, inbox: Option<Claim>, k: nat)
    requires Decide(t, w, read).Plan? && k < |Decide(t, w, read).writes| && Decide(t, w, read).writes[k].UpdWallet?
    ensures var ws, all := Decide(t, w, read).writes, InboxWrites(inbox) + Decide(t, w, read).writes;
            && ws[k].wallet.id == w.id && ws[k].expected == w.version
            && forall j :: 0 <= j < |InboxWrites(inbox)| + k ==> !all[j].UpdWallet? && !all[j].InsWallet?
  {
    PlanShape(t, w, read);
    PlanUpdate(t, w, read, k);
  }

  lemma ApplyWalletsUntouched(db: Db, w: Write)
    requires !w.UpdWallet? && !w.InsWallet?
    ensures Apply(db, w).wallets == db.wallets
  {
  }

  lemma {:induction false} RunWalletsUntouched(db: Db, ws: seq<Write>)
    requires Run(db, ws).Ok? && forall k :: 0 <= k < |ws| ==> !ws[k].UpdWallet? && !ws[k].InsWallet?
    ensures Run(db, ws).value.wallets == db.wallets
  {
    hide Check, Apply;
    if ws != [] {
      RunWalletsUntouched(db, ws[..|ws| - 1]);
      ApplyWalletsUntouched(Run(db, ws[..|ws| - 1]).value, ws[|ws| - 1]);
    }
  }

  lemma WalletsUntouched(db: Db, done: seq<Write>, todo: seq<Write>, plan: seq<Write>)
    requires Run(db, done).Ok? && done + todo == plan
    requires forall j :: 0 <= j < |done| ==> !plan[j].UpdWallet? && !plan[j].InsWallet?
    ensures Run(db, done).value.wallets == db.wallets
  {
    forall j | 0 <= j < |done| ensures !done[j].UpdWallet? && !done[j].InsWallet? { assert done[j] == (done + todo)[j]; }
    RunWalletsUntouched(db, done);
  }

  lemma SubmitGuardHits(hist: seq<Db>, p: Proc)
    requires HistOk(hist) && ProcOk(hist, p) && p.prog.Submit? && AboutToUpdate(p)
    ensures GuardHits(View(Last(hist), p), p.pc.todo[0])
  {
    hide HistOk, Run, AllCovered, Owned, Decide;
    var t, b := p.prog.t, p.pc.basis;
    Standing(p, b);
    WalletIds(hist, t.walletId);
    GuardOfPlan(t, b.w, b.read, p.prog.inbox, |p.done| - |InboxWrites(p.prog.inbox)|);
    WalletsUntouched(Last(hist), p.done, p.pc.todo, DecidedWrites(p, b));
  }

  lemma GuardOfSettle(b: Basis, k: nat)
    requires b.Shelved? || (b.Credited? && CreditRow(b.w, b.row.money).Ok?)
    requires k < |SettlePlan(b)| && SettlePlan(b)[k].UpdWallet?
    ensures b.Credited? && SettlePlan(b)[k].wallet.id == b.w.id && SettlePlan(b)[k].expected == b.w.version && k == 1
    ensures !SettlePlan(b)[0].UpdWallet? && !SettlePlan(b)[0].InsWallet?
  {
  }

  lemma SettleGuardHits(hist: seq<Db>, p: Proc)
    requires HistOk(hist) && ProcOk(hist, p) && p.prog.Settle? && AboutToUpdate(p)
    ensures GuardHits(View(Last(hist), p), p.pc.todo[0])
  {
    hide HistOk, Run, AllCovered, Owned, CreditRow, SettlePlan;
    var b := p.pc.basis;
    assert p.pc.todo[0] == (p.done + p.pc.todo)[|p.done|];
    GuardOfSettle(b, |p.done|);
    WalletIds(hist, b.row.walletId);
    WalletsUntouched(Last(hist), p.done, p.pc.todo, SettlePlan(b));
  }

  lemma OpeningsInsert(hist: seq<Db>, p: Proc)
    requires ProcOk(hist, p) && p.prog.OpenUp?
    ensures !AboutToUpdate(p)
  {
    hide Owned, AllCovered, Run;
    if p.pc.Writing? && p.pc.todo != [] { assert p.pc.todo[0] == OpenWrites(p.prog.wallet)[|p.done|]; }
  }

  /** The version-guarded update always finds its row: the branch for zero rows is unreachable. */
  lemma GuardAlwaysHits(s: Sys, pid: nat)
    requires SysOk(s) && pid in s.procs && AboutToUpdate(s.procs[pid])
    ensures GuardHits(View(Last(s.hist), s.procs[pid]), s.procs[pid].pc.todo[0])
  {
    hide HistOk, LogOk, ProcOk, View, GuardHits;
    var p := s.procs[pid];
    assert ProcOk(s.hist, p);
    match p.prog {
      case Submit(_, _) => SubmitGuardHits(s.hist, p);
      case Settle(_) => SettleGuardHits(s.hist, p);
      case OpenUp(_) => OpeningsInsert(s.hist, p);
    }
  }

  // ---------- The order of acquisition ----------

  /** Inbox key, parked row, wallet, then the keys of the transaction row. */
  function Rank(r: Resource): nat {
    match r
    case InboxKey(_) => 0
    case TxLock(_) => 1
    case WalletLock(_) => 2
    case WalletId(_) => 2
    case OwnerKey(_) => 3
    case TxId(_) => 4
    case TxExt(_) => 5
    case TxKey(_) => 6
  }

  function Base(w: Write): nat {
    match w case InsWallet(_) => 2 case InsTx(_) => 4 case _ => 7
  }

  predicate Sorted(todo: seq<Write>) {
    forall k :: 0 < k < |todo| ==> Base(todo[k - 1]) + |KeysOf(todo[k - 1])| <= Base(todo[k])
  }

  predicate AllBelow(held: set<Resource>, n: nat) { forall r :: r in held ==> Rank(r) < n }

  /** Everything held ranks below whatever is still to be waited for. */
  predicate Leveled(p: Proc) {
    match p.pc
    case AtInbox => p.held == {}
    case DupRead => p.held == {}
    case DupLock(_, _) => p.held == {}
    case LookExt(again) => again || AllBelow(p.held, 2)
    case LookKey(again) => again || AllBelow(p.held, 2)
    case ReplayLock(row, _) => WalletLock(row.walletId) in p.held || AllBelow(p.held, 2)
    case LockWallet => AllBelow(p.held, 2)
    case ReadRef(_) => AllBelow(p.held, 3)
    case LockRow => p.held == {}
    case ReadRowRef(_) => AllBelow(p.held, 2)
    case LockRowWallet(_, _, _) => AllBelow(p.held, 2)
    case Writing(stage, todo, _) =>
      Sorted(todo) && if todo == [] then stage == 0 else stage <= |KeysOf(todo[0])| && AllBelow(p.held, Base(todo[0]) + stage)
    case _ => true
  }

  lemma PlanSorted(t: TxRow, w: WalletRow, read: Option<TxRow>)
    requires Decide(t, w, read).Plan?
    ensures Sorted(Decide(t, w, read).writes) && Base(Decide(t, w, read).writes[0]) == 4
  {
    hide Decide;
    var _, _ := PlanCases(t, w, read);
  }

  /** An equal payload hash forces the same wallet, so a save conflict leads back to a lock already
      held. */
  lemma SameWalletAgain(hist: seq<Db>, p: Proc, row: TxRow)
    requires HistOk(hist) && ProcOk(hist, p) && p.prog.Submit? && row.hash == p.prog.t.hash
    requires row.id in Last(hist).txs && Last(hist).txs[row.id] == row
    ensures row.walletId == p.prog.t.walletId
  {
    hide KeysOk, LedgerOk, WalletsOk, EventsOk, SubmitOk, Owned, AllCovered, Run;
    LastState(hist);
    assert RowOk(Last(hist).txs[row.id]);
    EqualHashes(row, p.prog.t);
  }

  lemma LookupLeveled(hist: seq<Db>, p: Proc)
    requires HistOk(hist) && ProcOk(hist, p) && Leveled(p) && p.prog.Submit? && (p.pc.LookExt? || p.pc.LookKey?)
    requires SubmitStatement(|hist| - 1, View(Last(hist), p), p).Go?
    ensures Leveled(SubmitStatement(|hist| - 1, View(Last(hist), p), p).p)
  {
    hide Run, Owned, AllCovered, KeysOk, Decide, HistOk;
    var db, t := Last(hist), p.prog.t;
    ViewBase(db, p);
    LastKeys(hist);
    var found := if p.pc.LookExt? then FindByExternalId(db, ExtOf(t)) else FindByIdempotencyKey(db, t.idemKey);
    if found.Some? && found.value.hash == t.hash {
      if p.pc.LookExt? { FoundRow(db, ExtOf(t)); } else { FoundByKey(db, t.idemKey); }
      SameWalletAgain(hist, p, found.value);
    }
  }

  lemma SubmitLeveled(now: nat, db: Db, p: Proc)
    requires Leveled(p) && p.prog.Submit? && !p.pc.LookExt? && !p.pc.LookKey? && SubmitStatement(now, db, p).Go?
    ensures Leveled(SubmitStatement(now, db, p).p)
  {
    hide Decide, FindByExternalId, FindByIdempotencyKey, Sorted;
    match p.pc {
      case LockWallet =>
        var w := db.wallets[p.prog.t.walletId];
        if !IsReversal(p.prog.t.kind) { PlanSorted(p.prog.t, w, None); }
      case ReadRef(w) => PlanSorted(p.prog.t, w, FindByExternalId(db, RefOf(p.prog.t)));
      case _ =>
    }
  }

  lemma SettleLeveled(now: nat, db: Db, p: Proc)
    requires Leveled(p) && p.prog.Settle? && SettleStatement(now, db, p).Go?
    ensures Leveled(SettleStatement(now, db, p).p)
  {
    hide CreditRow, FindByExternalId;
  }

  lemma KeyRank(w: Write, stage: nat)
    requires stage < |KeysOf(w)|
    ensures Rank(KeysOf(w)[stage]) == Base(w) + stage
  {
  }

  lemma WriteLeveled(db: Db, p: Proc)
    requires Leveled(p) && p.pc.Writing? && WriteStatement(db, p).Go?
    ensures Leveled(WriteStatement(db, p).p)
  {
    hide Check, Apply, Taken;
    var Writing(stage, todo, b) := p.pc;
    if todo != [] {
      if stage < |KeysOf(todo[0])| {
        KeyRank(todo[0], stage);
      } else if |todo| > 1 {
        assert todo[1..][0] == todo[1];
      }
    }
  }

  ghost predicate AllLeveled(s: Sys) { forall pid :: pid in s.procs ==> Leveled(s.procs[pid]) }

  lemma FinishedLeveled(p: Proc)
    ensures forall e :: Leveled(p.(pc := Finished(e), held := {}, done := []))
  {
  }

  lemma BeginLeveled(prog: Program, since: nat)
    ensures Leveled(Proc(prog, StartPc(prog), {}, [], since))
  {
  }

  /** Every move keeps the order of acquisition. */
  lemma StepLeveled(s: Sys, m: Move)
    requires SysOk(s) && AllLeveled(s) && CanMove(s, m)
    ensures AllLeveled(Step(s, m))
  {
    hide HistOk, LogOk, ProcOk, Leveled, SubmitStatement, SettleStatement, WriteStatement, View;
    if m.Begin? {
      BeginLeveled(m.prog, |s.hist| - 1);
    } else if m.Act? {
      var p, db := s.procs[m.pid], Last(s.hist);
      assert ProcOk(s.hist, p);
      FinishedLeveled(p);
      if Exec(|s.hist| - 1, db, p).Go? {
        if p.pc.Writing? {
          WriteLeveled(View(db, p), p);
        } else if p.prog.Settle? {
          SettleLeveled(|s.hist| - 1, View(db, p), p);
        } else if p.pc.LookExt? || p.pc.LookKey? {
          LookupLeveled(s.hist, p);
        } else {
          SubmitLeveled(|s.hist| - 1, View(db, p), p);
        }
      }
    } else {
      FinishedLeveled(s.procs[m.pid]);
    }
  }

  lemma {:induction false} EveryRunLeveled(moves: seq<Move>)
    requires After(moves).Some?
    ensures SysOk(After(moves).value) && AllLeveled(After(moves).value)
  {
    EveryRunRefines(moves);
    if moves != [] {
      hide SysOk, CanMove;
      EveryRunLeveled(moves[..|moves| - 1]);
      StepLeveled(After(moves[..|moves| - 1]).value, moves[|moves| - 1]);
    }
  }

  // ---------- No deadlock ----------

  function Want(s: Sys, pid: nat): Resource
    requires s.hist != [] && pid in s.procs && Blocked(s, pid)
  {
    Wants(View(Current(s), s.procs[pid]), s.procs[pid]).value
  }

  /** a waits for what b holds. */
  predicate WaitsFor(s: Sys, a: nat, b: nat) {
    s.hist != [] && a in s.procs && b in s.procs && a != b && Blocked(s, a) && Want(s, a) in s.procs[b].held
  }

  lemma BlockedAbove(s: Sys, pid: nat)
    requires SysOk(s) && AllLeveled(s) && pid in s.procs && Blocked(s, pid)
    ensures AllBelow(s.procs[pid].held, Rank(Want(s, pid))) && Rank(Want(s, pid)) < 7
  {
    hide HistOk, ProcsOk, View;
    var p, r := s.procs[pid], Want(s, pid);
    assert Leveled(p);
    var q :| q in s.procs && q != pid && r in s.procs[q].held;
    assert r !in p.held;
  }

  /** Waiting leads to a transaction that waits, if at all, for something of a higher rank. */
  lemma WaitsUpwards(s: Sys, a: nat, b: nat)
    requires SysOk(s) && AllLeveled(s) && WaitsFor(s, a, b) && Blocked(s, b)
    ensures Rank(Want(s, a)) < Rank(Want(s, b))
  {
    hide SysOk, AllLeveled, Blocked;
    BlockedAbove(s, b);
  }

  lemma {:induction false} PathAscends(s: Sys, path: seq<nat>)
    requires SysOk(s) && AllLeveled(s) && |path| > 1
    requires forall k :: 0 <= k < |path| - 1 ==> WaitsFor(s, path[k], path[k + 1])
    requires path[|path| - 1] in s.procs && Blocked(s, path[|path| - 1])
    ensures WaitsFor(s, path[0], path[1]) && Rank(Want(s, path[0])) < Rank(Want(s, path[|path| - 1]))
  {
    hide SysOk, AllLeveled, Blocked;
    assert WaitsFor(s, path[0], path[1]);
    if |path| == 2 {
      WaitsUpwards(s, path[0], path[1]);
    } else {
      var rest := path[1..];
      forall k | 0 <= k < |rest| - 1 ensures WaitsFor(s, rest[k], rest[k + 1]) {
        assert WaitsFor(s, path[k + 1], path[k + 2]);
      }
      PathAscends(s, rest);
      WaitsUpwards(s, path[0], path[1]);
    }
  }

  /** In a reachable state no chain of waiting transactions closes. */
  lemma {:induction false} NoWaitCycle(s: Sys, path: seq<nat>)
    requires SysOk(s) && AllLeveled(s) && |path| > 1
    requires forall k :: 0 <= k < |path| - 1 ==> WaitsFor(s, path[k], path[k + 1])
    ensures path[0] != path[|path| - 1]
  {
    var last := path[|path| - 1];
    if path[0] == last {
      assert WaitsFor(s, path[0], path[1]);
      PathAscends(s, path);
    }
  }

  lemma HoldersRun(hist: seq<Db>, p: Proc)
    requires ProcOk(hist, p) && p.held != {}
    ensures Running(p)
  {
  }

  /** No deadlock: as long as a transaction is unfinished, some unfinished transaction can execute its
      next statement. */
  lemma {:induction false} NoDeadlock(s: Sys, pid: nat) returns (free: nat)
    requires SysOk(s) && AllLeveled(s) && pid in s.procs && Running(s.procs[pid])
    ensures free in s.procs && CanMove(s, Act(free))
    decreases if Blocked(s, pid) then 7 - Rank(Want(s, pid)) else 0
  {
    if Blocked(s, pid) {
      hide HistOk, LogOk, Exclusive, View, Wants;
      BlockedAbove(s, pid);
      var q :| q in s.procs && q != pid && Want(s, pid) in s.procs[q].held;
      assert ProcOk(s.hist, s.procs[q]);
      HoldersRun(s.hist, s.procs[q]);
      if Blocked(s, q) { WaitsUpwards(s, pid, q); }
      free := NoDeadlock(s, q);
    } else {
      free := pid;
    }
  }

  // ---------- Every transaction ends ----------

  function TodoFuel(todo: seq<Write>): nat {
    if todo == [] then 0 else |KeysOf(todo[0])| + 1 + TodoFuel(todo[1..])
  }

  /** A bound on the statements a transaction still has to execute. */
  function Fuel(p: Proc): nat {
    match p.pc
    case Finished(_) => 0
    case Ready(_) => 1
    case ReplayLock(_, _) => 2
    case DupLock(_, _) => 2
    case DupRead => 3
    case LookKey(again) => if again then 3 else 22
    case LookExt(again) => if again then 4 else 23
    case Writing(stage, todo, _) => if stage <= TodoFuel(todo) then 5 + TodoFuel(todo) - stage else 0
    case ReadRef(_) => 20
    case LockWallet => 21
    case AtInbox => 24
    case LockRowWallet(_, _, _) => 18
    case ReadRowRef(_) => 19
    case LockRow => 20
  }

  lemma FuelOf2(ws: seq<Write>)
    requires |ws| == 2
    ensures TodoFuel(ws) == |KeysOf(ws[0])| + |KeysOf(ws[1])| + 2
  {
    assert TodoFuel(ws[1..]) == |KeysOf(ws[1])| + 1 by { assert ws[1..][1..] == []; }
  }

  lemma FuelOf5(ws: seq<Write>)
    requires |ws| == 5
    ensures TodoFuel(ws) == |KeysOf(ws[0])| + |KeysOf(ws[1])| + |KeysOf(ws[2])| + |KeysOf(ws[3])| + |KeysOf(ws[4])| + 5
  {
    assert TodoFuel(ws[3..]) == |KeysOf(ws[3])| + |KeysOf(ws[4])| + 2 by { FuelOf2(ws[3..]); }
    assert ws[1..][1..] == ws[2..] && ws[2..][1..] == ws[3..];
    assert TodoFuel(ws[2..]) == |KeysOf(ws[2])| + 1 + TodoFuel(ws[3..]);
    assert TodoFuel(ws[1..]) == |KeysOf(ws[1])| + 1 + TodoFuel(ws[2..]);
  }

  lemma PlanFuel(t: TxRow, w: WalletRow, read: Option<TxRow>)
    requires Decide(t, w, read).Plan?
    ensures TodoFuel(Decide(t, w, read).writes) <= 8
  {
    hide Decide;
    var _, _ := PlanCases(t, w, read);
    var ws := Decide(t, w, read).writes;
    if |ws| == 5 { FuelOf5(ws); } else { FuelOf2(ws); }
  }

  lemma SettleFuel(row: TxRow, read: Option<TxRow>, w: WalletRow, w': WalletRow)
    ensures TodoFuel(ShelveWrites(row, read)) == 1 && TodoFuel(SettleWrites(row, w, w')) == 5
  {
    assert ShelveWrites(row, read)[1..] == [];
    FuelOf5(SettleWrites(row, w, w'));
  }

  lemma WriteBurns(db: Db, p: Proc)
    requires p.pc.Writing? && Leveled(p) && WriteStatement(db, p).Go?
    ensures Fuel(WriteStatement(db, p).p) < Fuel(p)
  {
    hide Check, Apply, Taken, Sorted, AllBelow;
    var todo := p.pc.todo;
    if todo != [] {
      assert TodoFuel(todo) == |KeysOf(todo[0])| + 1 + TodoFuel(todo[1..]);
    }
  }

  /** Every statement a transaction executes lowers its fuel, which starts at 24 or less: a transaction
      that is never stopped for good commits or fails within that many statements. */
  lemma StatementBurns(now: nat, db: Db, p: Proc)
    requires Running(p) && Leveled(p) && Exec(now, db, p).Go?
    ensures Fuel(Exec(now, db, p).p) < Fuel(p)
  {
    hide Check, Apply, View, Decide, CreditRow, ShelveWrites, SettleWrites, FindByExternalId, FindByIdempotencyKey, Taken;
    var view := View(db, p);
    if p.pc.Writing? {
      WriteBurns(view, p);
    } else if p.prog.Submit? && p.pc.LockWallet? && !IsReversal(p.prog.t.kind) {
      PlanFuel(p.prog.t, view.wallets[p.prog.t.walletId], None);
    } else if p.prog.Submit? && p.pc.ReadRef? {
      PlanFuel(p.prog.t, p.pc.w, FindByExternalId(view, RefOf(p.prog.t)));
    } else if p.prog.Settle? && p.pc.ReadRowRef? {
      SettleFuel(p.pc.row, FindByExternalId(view, RefOf(p.pc.row)), WalletRow("", "", Money(0, ""), 0), WalletRow("", "", Money(0, ""), 0));
    } else if p.prog.Settle? && p.pc.LockRowWallet? {
      var w := view.wallets[p.pc.row.walletId];
      SettleFuel(p.pc.row, None, w, CreditRow(w, p.pc.row.money).value);
    }
  }

  lemma StartFuel(prog: Program, since: nat)
    ensures Fuel(Proc(prog, StartPc(prog), {}, [], since)) <= 24
  {
    if prog.OpenUp? {
      var ws := OpenWrites(prog.wallet);
      if |ws| == 5 { FuelOf5(ws); } else { assert |ws| == 1 && ws[1..] == []; }
    }
  }
}
