/** Every statement a transaction executes keeps what it knows true. */
module Progress {
  import opened Amounts
  import opened Records
  import opened Tables
  import opened Steps
  import opened Invariants
  import opened Preservation
  import opened Evolution
  import opened Interleaving
  import opened Isolation
  import opened Knowledge

  // ---------- Views ----------

  lemma ViewEmpty(db: Db, p: Proc)
    requires p.done == []
    ensures View(db, p) == db
  {
  }

  lemma ViewBase(db: Db, p: Proc)
    requires p.prog.Submit? && p.done == InboxWrites(p.prog.inbox) && Run(db, p.done).Ok?
    ensures View(db, p) == db.(inbox := View(db, p).inbox)
  {
    if p.prog.inbox.Some? { Run1(db, p.done[0]); }
  }

  lemma WriteTaken(db: Db, w: Write, r: Resource)
    requires Taken(db, r)
    ensures Taken(Apply(db, w), r)
  {
  }

  /** A key is never given up: what is taken before a transaction's writes is taken after them. */
  lemma {:induction false} RunTaken(db: Db, ws: seq<Write>, r: Resource)
    requires Run(db, ws).Ok? && Taken(db, r)
    ensures Taken(Run(db, ws).value, r)
  {
    if ws != [] {
      RunTaken(db, ws[..|ws| - 1], r);
      WriteTaken(Run(db, ws[..|ws| - 1]).value, ws[|ws| - 1], r);
    }
  }

  // ---------- Acquiring ----------

  /** The part of ProcOk that does not depend on the statement. */
  ghost predicate Sound(hist: seq<Db>, p: Proc) {
    && hist != [] && p.since < |hist| && ValidProgram(p.prog)
    && Owned(Last(hist), p.held) && AllCovered(p.done, p.held) && Run(Last(hist), p.done).Ok?
  }

  lemma CoveredMore(w: Write, held: set<Resource>, more: set<Resource>)
    requires Covered(w, held) && held <= more
    ensures Covered(w, more)
  {
  }

  lemma SoundMore(hist: seq<Db>, p: Proc, r: Resource, p': Proc)
    requires Sound(hist, p) && OwnedOne(Last(hist), r)
    requires p' == p.(held := p.held + {r}, pc := p'.pc)
    ensures Sound(hist, p')
  {
    forall k | 0 <= k < |p.done| ensures Covered(p.done[k], p'.held) { CoveredMore(p.done[k], p.held, p'.held); }
  }

  lemma SoundLess(hist: seq<Db>, p: Proc, p': Proc)
    requires Sound(hist, p) && p' == p.(held := p'.held, pc := p'.pc) && p'.held <= p.held
    requires AllCovered(p.done, p'.held)
    ensures Sound(hist, p')
  {
  }

  lemma SoundWrite(hist: seq<Db>, p: Proc, w: Write, p': Proc)
    requires Sound(hist, p) && Covered(w, p.held) && Check(View(Last(hist), p), w) == None
    requires p' == p.(done := p.done + [w], pc := p'.pc)
    ensures Sound(hist, p')
  {
    RunSnoc(Last(hist), p.done, w);
  }

  // ---------- Submissions, up to the plan ----------

  lemma NewMessageChecks(db: Db, c: Claim)
    requires MessageOf(c) !in db.inbox
    ensures Check(db, InsInbox(c)) == None
  {
  }

  lemma InboxProgress(hist: seq<Db>, p: Proc)
    requires ProcOk(hist, p) && p.prog.Submit? && p.pc.AtInbox?
    ensures ProcOk(hist, SubmitStatement(|hist| - 1, View(Last(hist), p), p).p)
  {
    hide Run, Check, Apply;
    var db := Last(hist);
    assert View(db, p) == db by { ViewEmpty(db, p); }
    var p' := SubmitStatement(|hist| - 1, db, p).p;
    if p.prog.inbox.Some? && MessageOf(p.prog.inbox.value) !in db.inbox {
      var w := InsInbox(p.prog.inbox.value);
      Run1(db, w);
      assert Check(db, w) == None by { NewMessageChecks(db, p.prog.inbox.value); }
    }
  }

  lemma DupProgress(hist: seq<Db>, p: Proc)
    requires ProcOk(hist, p) && p.prog.Submit? && (p.pc.DupRead? || p.pc.DupLock?)
    requires SubmitStatement(|hist| - 1, View(Last(hist), p), p).Go?
    ensures ProcOk(hist, SubmitStatement(|hist| - 1, View(Last(hist), p), p).p)
  {
    ViewEmpty(Last(hist), p);
    var p' := SubmitStatement(|hist| - 1, View(Last(hist), p), p).p;
    if p.pc.DupLock? {
      var row := if p.pc.found.Some? then p.pc.found.value else p.prog.t;
      SoundMore(hist, p, WalletLock(row.walletId), p');
    }
  }

  lemma SameReads(db: Db, view: Db, t: TxRow)
    requires view == db.(inbox := view.inbox)
    ensures FindByExternalId(view, ExtOf(t)) == FindByExternalId(db, ExtOf(t))
    ensures FindByIdempotencyKey(view, t.idemKey) == FindByIdempotencyKey(db, t.idemKey)
  {
  }

  lemma LastKeys(hist: seq<Db>)
    requires HistOk(hist)
    ensures KeysOk(Last(hist))
  {
    assert Inv(hist[|hist| - 1]);
  }

  /** A row that a lookup finds is the row stored under its id. */
  lemma FoundNow(hist: seq<Db>, t: TxRow)
    requires hist != [] && HistOk(hist)
    ensures var e, k := FindByExternalId(Last(hist), ExtOf(t)), FindByIdempotencyKey(Last(hist), t.idemKey);
            && (e.Some? ==> e.value.id in Last(hist).txs && Last(hist).txs[e.value.id] == e.value)
            && (k.Some? ==> k.value.id in Last(hist).txs && Last(hist).txs[k.value.id] == k.value)
  {
    hide HistOk, KeysOk;
    LastKeys(hist);
    if FindByExternalId(Last(hist), ExtOf(t)).Some? { FoundRow(Last(hist), ExtOf(t)); }
    if FindByIdempotencyKey(Last(hist), t.idemKey).Some? { FoundByKey(Last(hist), t.idemKey); }
  }

  lemma LookupProgress(hist: seq<Db>, p: Proc)
    requires HistOk(hist) && ProcOk(hist, p) && p.prog.Submit? && (p.pc.LookExt? || p.pc.LookKey?)
    requires SubmitStatement(|hist| - 1, View(Last(hist), p), p).Go?
    ensures ProcOk(hist, SubmitStatement(|hist| - 1, View(Last(hist), p), p).p)
  {
    hide Run, Owned, AllCovered, Decide, HistOk, FindByExternalId, FindByIdempotencyKey;
    var db, t := Last(hist), p.prog.t;
    ViewBase(db, p);
    SameReads(db, View(db, p), t);
    FoundNow(hist, t);
  }

  lemma ReplayProgress(hist: seq<Db>, p: Proc)
    requires ProcOk(hist, p) && p.prog.Submit? && p.pc.ReplayLock?
    requires SubmitStatement(|hist| - 1, View(Last(hist), p), p).Go?
    ensures ProcOk(hist, SubmitStatement(|hist| - 1, View(Last(hist), p), p).p)
  {
    hide Run, Owned, AllCovered;
    ViewBase(Last(hist), p);
    var p' := SubmitStatement(|hist| - 1, View(Last(hist), p), p).p;
    SoundMore(hist, p, WalletLock(p.pc.row.walletId), p');
  }

  /** The plan rests on the wallet as locked. */
  lemma PlannedOk(hist: seq<Db>, p: Proc, w: WalletRow, read: Option<TxRow>)
    requires Sound(hist, p) && p.prog.Submit? && AtBase(p)
    requires LockedWallet(Last(hist), p.held, p.prog.t.walletId, w) && w.playerId == p.prog.t.playerId
    requires if IsReversal(p.prog.t.kind) then read == FindByExternalId(Last(hist), RefOf(p.prog.t)) else read.None?
    requires Planned(p, p.prog.t, w, read, |hist| - 1).Go?
    ensures ProcOk(hist, Planned(p, p.prog.t, w, read, |hist| - 1).p)
  {
    hide Run, Owned, AllCovered, FindByExternalId;
    PlanShape(p.prog.t, w, read);
  }

  lemma WalletProgress(hist: seq<Db>, p: Proc)
    requires ProcOk(hist, p) && p.prog.Submit? && (p.pc.LockWallet? || p.pc.ReadRef?)
    requires SubmitStatement(|hist| - 1, View(Last(hist), p), p).Go?
    ensures ProcOk(hist, SubmitStatement(|hist| - 1, View(Last(hist), p), p).p)
  {
    hide Run, Owned, AllCovered, Decide;
    ViewBase(Last(hist), p);
    var t, db := p.prog.t, Last(hist);
    if p.pc.LockWallet? {
      var w := db.wallets[t.walletId];
      var p1 := Hold(p, WalletLock(t.walletId), ReadRef(w));
      SoundMore(hist, p, WalletLock(t.walletId), p1);
      if !IsReversal(t.kind) { PlannedOk(hist, p1, w, None); }
    } else {
      PlannedOk(hist, p, p.pc.w, FindByExternalId(db, RefOf(t)));
    }
  }

  // ---------- Writes of a submission ----------

  lemma PlanCovered(t: TxRow, w: WalletRow, read: Option<TxRow>, held: set<Resource>, k: nat)
    requires Decide(t, w, read).Plan? && 0 < k < |Decide(t, w, read).writes|
    requires WalletLock(w.id) in held && TxId(t.id) in held
    ensures Covered(Decide(t, w, read).writes[k], held)
  {
    hide Decide;
    var _, _ := PlanCases(t, w, read);
  }

  /** An insert all of whose keys are claimed is covered. */
  lemma StagedCovers(w: Write, held: set<Resource>)
    requires (w.InsTx? || w.InsWallet?) && Staged(w, |KeysOf(w)|, held)
    ensures Covered(w, held) && (w.InsTx? ==> HasKeys(held, w.tx))
  {
    var keys := KeysOf(w);
    assert keys[0] in held && keys[1] in held;
    if w.InsTx? { assert keys[2] in held; }
  }

  lemma SplitAt<T>(done: seq<T>, todo: seq<T>, base: seq<T>, ws: seq<T>)
    requires done + todo == base + ws && todo != [] && |done| >= |base|
    ensures |done| - |base| < |ws| && todo[0] == ws[|done| - |base|]
    ensures |done| == |base| ==> done == base
  {
    assert (done + todo)[|done|] == todo[0] && (base + ws)[|done|] == ws[|done| - |base|];
    assert (done + todo)[..|base|] == done[..|base|] && (base + ws)[..|base|] == base;
  }

  /** Where a submission stands in its writes. */
  lemma Standing(p: Proc, b: Basis)
    requires p.prog.Submit? && b.Decided? && Decide(p.prog.t, b.w, b.read).Plan? && p.pc.Writing? && p.pc.todo != []
    requires p.done + p.pc.todo == DecidedWrites(p, b) && |p.done| >= |InboxWrites(p.prog.inbox)|
    ensures var ws, n := Decide(p.prog.t, b.w, b.read).writes, |p.done| - |InboxWrites(p.prog.inbox)|;
            n < |ws| && p.pc.todo[0] == ws[n] && (n == 0 ==> p.done == InboxWrites(p.prog.inbox))
            && (KeysOf(ws[n]) != [] ==> n == 0) && ws[0].InsTx?
            && KeysOf(ws[0]) == [TxId(p.prog.t.id), TxExt(ExtOf(p.prog.t)), TxKey(p.prog.t.idemKey)]
  {
    hide Decide;
    var base, ws := InboxWrites(p.prog.inbox), Decide(p.prog.t, b.w, b.read).writes;
    PlanShape(p.prog.t, b.w, b.read);
    SplitAt(p.done, p.pc.todo, base, ws);
  }

  /** A duplicate key: the partial keys go, the inbox claim and the wallet lock stay. */
  lemma ConflictProgress(hist: seq<Db>, p: Proc, p': Proc)
    requires ProcOk(hist, p) && p.prog.Submit? && p.pc.Writing? && p.pc.todo != [] && p.pc.stage < |KeysOf(p.pc.todo[0])|
    requires p' == p.(pc := LookExt(true), held := p.held - set k | k in KeysOf(p.pc.todo[0])[..p.pc.stage])
    ensures ProcOk(hist, p')
  {
    hide Run, Owned, Decide, Check, Apply;
    Standing(p, p.pc.basis);
    forall k | 0 <= k < |p.done| ensures Covered(p.done[k], p'.held) { }
    SoundLess(hist, p, p');
  }

  lemma WalletIds(hist: seq<Db>, id: string)
    requires HistOk(hist)
    ensures id in Last(hist).wallets ==> Last(hist).wallets[id].id == id
  {
    hide Inv;
    assert Inv(hist[|hist| - 1]);
    assert KeysOk(Last(hist)) by { LastKeys(hist); }
  }

  lemma ExecuteProgress(hist: seq<Db>, p: Proc, p': Proc)
    requires HistOk(hist) && ProcOk(hist, p) && p.prog.Submit? && p.pc.Writing? && p.pc.todo != []
    requires p.pc.stage >= |KeysOf(p.pc.todo[0])| && Check(View(Last(hist), p), p.pc.todo[0]) == None
    requires p' == p.(done := p.done + [p.pc.todo[0]], pc := Writing(0, p.pc.todo[1..], p.pc.basis))
    ensures ProcOk(hist, p')
  {
    hide Run, Owned, AllCovered, HistOk, Decide, Check, Apply, View;
    var t, todo, b := p.prog.t, p.pc.todo, p.pc.basis;
    Standing(p, b);
    WalletIds(hist, t.walletId);
    var n := |p.done| - |InboxWrites(p.prog.inbox)|;
    if n > 0 { PlanCovered(t, b.w, b.read, p.held, n); } else { StagedCovers(todo[0], p.held); }
    SoundWrite(hist, p, todo[0], p');
    assert p.done + [todo[0]] + todo[1..] == p.done + todo;
  }

  lemma FreeKeyOwned(db: Db, p: Proc, k: Resource)
    requires Run(db, p.done).Ok? && !Taken(View(db, p), k) && !k.TxLock? && !k.WalletLock?
    ensures OwnedOne(db, k)
  {
    if Taken(db, k) { RunTaken(db, p.done, k); }
  }

  lemma ClaimProgress(hist: seq<Db>, p: Proc, p': Proc)
    requires ProcOk(hist, p) && p.prog.Submit? && p.pc.Writing? && p.pc.todo != [] && p.pc.stage < |KeysOf(p.pc.todo[0])|
    requires !Taken(View(Last(hist), p), KeysOf(p.pc.todo[0])[p.pc.stage])
    requires p' == Hold(p, KeysOf(p.pc.todo[0])[p.pc.stage], Writing(p.pc.stage + 1, p.pc.todo, p.pc.basis))
    ensures ProcOk(hist, p')
  {
    hide Run, Owned, AllCovered, Decide, Check, Apply, Taken, View;
    Standing(p, p.pc.basis);
    FreeKeyOwned(Last(hist), p, KeysOf(p.pc.todo[0])[p.pc.stage]);
    SoundMore(hist, p, KeysOf(p.pc.todo[0])[p.pc.stage], p');
  }

  lemma DoneProgress(hist: seq<Db>, p: Proc)
    requires ProcOk(hist, p) && p.prog.Submit? && p.pc.Writing? && p.pc.todo == []
    ensures ProcOk(hist, p.(pc := Ready(p.pc.basis)))
  {
    hide Run, Owned, AllCovered, Decide;
    PlanShape(p.prog.t, p.pc.basis.w, p.pc.basis.read);
  }

  lemma SubmitWriteProgress(hist: seq<Db>, p: Proc)
    requires HistOk(hist) && ProcOk(hist, p) && p.prog.Submit? && p.pc.Writing?
    requires WriteStatement(View(Last(hist), p), p).Go?
    ensures ProcOk(hist, WriteStatement(View(Last(hist), p), p).p)
  {
    hide HistOk, SubmitOk, Owned, AllCovered, Run, Check, Apply, Taken, View, KeysOf;
    var todo := p.pc.todo;
    var p' := WriteStatement(View(Last(hist), p), p).p;
    if todo == [] {
      DoneProgress(hist, p);
    } else if p.pc.stage >= |KeysOf(todo[0])| {
      ExecuteProgress(hist, p, p');
    } else if Taken(View(Last(hist), p), KeysOf(todo[0])[p.pc.stage]) {
      ConflictProgress(hist, p, p');
    } else {
      ClaimProgress(hist, p, p');
    }
  }

  // ---------- Resolutions ----------

  lemma TxIds(hist: seq<Db>, id: string)
    requires HistOk(hist)
    ensures id in Last(hist).txs ==> Last(hist).txs[id].id == id
  {
    hide Inv;
    assert KeysOk(Last(hist)) by { LastKeys(hist); }
  }

  lemma SettleProgress(hist: seq<Db>, p: Proc)
    requires HistOk(hist) && ProcOk(hist, p) && p.prog.Settle? && !p.pc.Writing?
    requires SettleStatement(|hist| - 1, View(Last(hist), p), p).Go?
    ensures ProcOk(hist, SettleStatement(|hist| - 1, View(Last(hist), p), p).p)
  {
    hide Run, Owned, AllCovered, HistOk, CreditRow, ShelveWrites, SettleWrites;
    var db := Last(hist);
    ViewEmpty(db, p);
    var p' := SettleStatement(|hist| - 1, db, p).p;
    match p.pc {
      case LockRow =>
        if p.prog.id in db.txs {
          TxIds(hist, p.prog.id);
          SoundMore(hist, p, TxLock(p.prog.id), p');
        }
      case LockRowWallet(row, _, _) => SoundMore(hist, p, WalletLock(row.walletId), p');
      case _ =>
    }
  }

  lemma SettleCovered(b: Basis, held: set<Resource>, k: nat)
    requires b.Shelved? || (b.Credited? && CreditRow(b.w, b.row.money).Ok? && WalletLock(b.w.id) in held)
    requires TxLock(b.row.id) in held && k < |SettlePlan(b)|
    ensures Covered(SettlePlan(b)[k], held) && KeysOf(SettlePlan(b)[k]) == []
  {
  }

  lemma SettleWriteProgress(hist: seq<Db>, p: Proc)
    requires HistOk(hist) && ProcOk(hist, p) && p.prog.Settle? && p.pc.Writing?
    requires WriteStatement(View(Last(hist), p), p).Go?
    ensures ProcOk(hist, WriteStatement(View(Last(hist), p), p).p)
  {
    hide Run, Owned, AllCovered, HistOk, SettlePlan, Check, Apply, Taken, View, CreditRow;
    var Writing(stage, todo, b) := p.pc;
    var p' := WriteStatement(View(Last(hist), p), p).p;
    if todo != [] {
      TxIds(hist, p.prog.id);
      if b.Credited? { WalletIds(hist, b.row.walletId); }
      assert todo[0] == (p.done + todo)[|p.done|];
      SettleCovered(b, p.held, |p.done|);
      SoundWrite(hist, p, todo[0], p');
      assert p.done + [todo[0]] + todo[1..] == p.done + todo;
    }
  }

  // ---------- Openings ----------

  /** The keys claimed by the inserts done so far. */
  lemma OpenCovered(hist: seq<Db>, p: Proc)
    requires ProcOk(hist, p) && p.prog.OpenUp? && p.pc.Writing? && p.pc.todo != []
    requires p.pc.stage == |KeysOf(p.pc.todo[0])|
    ensures Covered(p.pc.todo[0], p.held)
  {
    hide Run, Owned;
    var ws, n := OpenWrites(p.prog.wallet), |p.done|;
    assert p.pc.todo[0] == ws[n];
    if p.pc.todo[0].InsEntry? {
      assert p.done[1] == ws[1] && Covered(p.done[1], p.held);
    } else if p.pc.todo[0].InsWallet? || p.pc.todo[0].InsTx? {
      StagedCovers(p.pc.todo[0], p.held);
    }
  }

  lemma OpenProgress(hist: seq<Db>, p: Proc)
    requires ProcOk(hist, p) && p.prog.OpenUp? && p.pc.Writing?
    requires WriteStatement(View(Last(hist), p), p).Go?
    ensures ProcOk(hist, WriteStatement(View(Last(hist), p), p).p)
  {
    hide Run, Owned, AllCovered, Check, Apply, Taken, View, OpenWrites;
    var db, view := Last(hist), View(Last(hist), p);
    var Writing(stage, todo, b) := p.pc;
    var p' := WriteStatement(view, p).p;
    if todo != [] {
      if stage < |KeysOf(todo[0])| {
        FreeKeyOwned(db, p, KeysOf(todo[0])[stage]);
        SoundMore(hist, p, KeysOf(todo[0])[stage], p');
      } else {
        OpenCovered(hist, p);
        SoundWrite(hist, p, todo[0], p');
        assert p.done + [todo[0]] + todo[1..] == p.done + todo;
      }
    }
  }

  // ---------- All together ----------

  /** One statement of any transaction keeps what that transaction knows. */
  lemma StatementProgress(hist: seq<Db>, p: Proc)
    requires HistOk(hist) && ProcOk(hist, p) && Running(p) && Exec(|hist| - 1, Last(hist), p).Go?
    ensures ProcOk(hist, Exec(|hist| - 1, Last(hist), p).p)
  {
    hide HistOk, Owned, AllCovered, Run, WriteStatement, SettleStatement, SubmitStatement;
    match p.prog {
      case Submit(_, _) =>
        match p.pc {
          case AtInbox => InboxProgress(hist, p);
          case DupRead => DupProgress(hist, p);
          case DupLock(_, _) => DupProgress(hist, p);
          case LookExt(_) => LookupProgress(hist, p);
          case LookKey(_) => LookupProgress(hist, p);
          case ReplayLock(_, _) => ReplayProgress(hist, p);
          case LockWallet => WalletProgress(hist, p);
          case ReadRef(_) => WalletProgress(hist, p);
          case Writing(_, _, _) => SubmitWriteProgress(hist, p);
          case _ =>
        }
      case Settle(_) => if p.pc.Writing? { SettleWriteProgress(hist, p); } else { SettleProgress(hist, p); }
      case OpenUp(_) => OpenProgress(hist, p);
    }
  }
}
