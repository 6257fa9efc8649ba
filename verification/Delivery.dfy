/** The wager queue (internal/infrastructure/transport/sqs_worker.go): messages are delivered at least
    once, to any number of consumers, any of which can crash at any moment, also between the commit of a
    message's transaction and its deletion from the queue. */
module Delivery {
  import opened Amounts
  import opened Records
  import opened Tables
  import opened Steps
  import opened Invariants
  import opened Evolution
  import opened Interleaving
  import opened Isolation
  import opened Knowledge
  import opened Refinement
  import opened Histories
  import opened Progress

  const CONSUMER := "sqs_wager_consumer"

  /** A body that cannot be decoded, or the submission it carries. */
  datatype Body = Garbled | Carries(input: Submission)

  /** What a consumer has in hand: the message and the transaction it runs for it. */
  datatype Worker = Worker(message: string, pid: nat)

  /** `sent` holds every message ever sent, `queue` those not deleted. A message in the queue can be in
      many hands at once. */
  datatype Net = Net(sys: Sys, sent: map<string, Body>, queue: set<string>, workers: map<nat, Worker>)

  datatype NetMove =
    | Send(message: string, body: Body)
    | Receive(worker: nat, message: string, pid: nat)
    | Database(move: Move)
    | Delete(worker: nat)
    | Crash(worker: nat)

  const EMPTY: Net := Net(INITIAL, map[], {}, map[])

  /** The transaction that a message asks for, if it is decodable and valid. */
  function Asked(sent: map<string, Body>, id: string, supported: seq<string>): Option<TxRow> {
    if id !in sent || sent[id].Garbled? then None
    else match Prepare(sent[id].input, supported) case Ok(t) => Some(t) case Err(_) => None
  }

  function ClaimOf(id: string, t: TxRow): Claim { Claim(CONSUMER, id, t.hash) }

  /** Anything else that goes on in the database: HTTP submissions, which claim no message, resolutions,
      openings, and transactions that are lost. */
  predicate Ordinary(m: Move) {
    match m
    case Begin(_, prog) => prog.Submit? ==> prog.inbox.None?
    case Abort(_, e) => e != DuplicateMessage
    case Act(_) => true
  }

  /** A worker deletes its message once its transaction has returned without an error, or has returned
      the duplicate-message error. */
  predicate Returned(sys: Sys, pid: nat) {
    pid in sys.procs && (sys.procs[pid].pc == Finished(None) || sys.procs[pid].pc == Finished(Some(DuplicateMessage)))
  }

  predicate Can(n: Net, m: NetMove, supported: seq<string>) {
    match m
    case Send(id, _) => id !in n.sent
    case Receive(worker, id, pid) =>
      id in n.queue && worker !in n.workers
      && (Asked(n.sent, id, supported).Some? ==>
            CanMove(n.sys, Begin(pid, Submit(Asked(n.sent, id, supported).value, Some(ClaimOf(id, Asked(n.sent, id, supported).value))))))
    case Database(move) => Ordinary(move) && CanMove(n.sys, move)
    case Delete(worker) => worker in n.workers && Returned(n.sys, n.workers[worker].pid)
    case Crash(worker) => worker in n.workers
  }

  /** A message that cannot be decoded or is not valid is left in the queue. */
  function Do(n: Net, m: NetMove, supported: seq<string>): Net
    requires Can(n, m, supported)
  {
    match m
    case Send(id, body) => n.(sent := n.sent[id := body], queue := n.queue + {id})
    case Receive(worker, id, pid) =>
      (match Asked(n.sent, id, supported)
       case None => n
       case Some(t) =>
         n.(sys := Step(n.sys, Begin(pid, Submit(t, Some(ClaimOf(id, t))))), workers := n.workers[worker := Worker(id, pid)]))
    case Database(move) => n.(sys := Step(n.sys, move))
    case Delete(worker) => n.(queue := n.queue - {n.workers[worker].message}, workers := n.workers - {worker})
    case Crash(worker) => n.(workers := n.workers - {worker})
  }

  function Delivered(moves: seq<NetMove>, supported: seq<string>): Option<Net> {
    if moves == [] then Some(EMPTY)
    else match Delivered(moves[..|moves| - 1], supported)
      case None => None
      case Some(n) => if Can(n, moves[|moves| - 1], supported) then Some(Do(n, moves[|moves| - 1], supported)) else None
  }

  // ---------- What holds of every run ----------

  /** A claim is made only for a sent message, with the payload of that message. */
  predicate ClaimFits(sent: map<string, Body>, supported: seq<string>, key: (string, string), payload: Payload) {
    key.0 == CONSUMER && Asked(sent, key.1, supported).Some? && payload == Asked(sent, key.1, supported).value.hash
  }

  predicate ProgramFits(sent: map<string, Body>, supported: seq<string>, prog: Program) {
    prog.Submit? && prog.inbox.Some? ==> ClaimFits(sent, supported, MessageOf(prog.inbox.value), prog.inbox.value.payload)
  }

  ghost predicate ClaimsFit(n: Net, supported: seq<string>)
    requires n.sys.hist != []
  {
    && (forall k :: k in Last(n.sys.hist).inbox ==> ClaimFits(n.sent, supported, k, Last(n.sys.hist).inbox[k]))
    && (forall pid :: pid in n.sys.procs ==> ProgramFits(n.sent, supported, n.sys.procs[pid].prog))
  }

  /** A transaction that has returned to its caller has left its row on record. */
  predicate ReturnFits(db: Db, p: Proc) {
    p.prog.Submit? && p.pc.Finished? ==>
      p.pc != Finished(Some(DuplicateMessage)) && (p.pc == Finished(None) ==> OnRecord(db, p.prog.t.hash))
  }

  ghost predicate ReturnsFit(sys: Sys)
    requires sys.hist != []
  {
    forall pid :: pid in sys.procs ==> ReturnFits(Last(sys.hist), sys.procs[pid])
  }

  /** A transaction that answers has found the row it answers from. */
  predicate HasFound(pc: Pc) {
    match pc
    case DupLock(found, _) => found.Some?
    case Writing(_, _, b) => b.Answered? ==> b.read.Some?
    case Ready(b) => b.Answered? ==> b.read.Some?
    case _ => true
  }

  ghost predicate FindsRows(sys: Sys) {
    && (forall pid :: pid in sys.procs ==> HasFound(sys.procs[pid].pc))
    && (forall i {:trigger sys.log[i]} :: 0 <= i < |sys.log| ==> HasFound(Ready(sys.log[i].basis)))
  }

  predicate WorkerFits(n: Net, supported: seq<string>, w: Worker) {
    && Asked(n.sent, w.message, supported).Some? && w.pid in n.sys.procs
    && var t := Asked(n.sent, w.message, supported).value;
       n.sys.procs[w.pid].prog == Submit(t, Some(ClaimOf(w.message, t)))
  }

  ghost predicate WorkersFit(n: Net, supported: seq<string>) {
    forall w :: w in n.workers ==> WorkerFits(n, supported, n.workers[w])
  }

  /** A message that has left the queue has left its transaction on record. */
  predicate Acknowledged(n: Net, supported: seq<string>, id: string)
    requires n.sys.hist != []
  {
    Asked(n.sent, id, supported).Some? && OnRecord(Last(n.sys.hist), Asked(n.sent, id, supported).value.hash)
  }

  ghost predicate NetOk(n: Net, supported: seq<string>) {
    && SysOk(n.sys) && n.sys.hist != [] && n.queue <= n.sent.Keys
    && ClaimsFit(n, supported) && ReturnsFit(n.sys) && FindsRows(n.sys) && WorkersFit(n, supported)
    && (forall id :: id in n.sent && id !in n.queue ==> Acknowledged(n, supported, id))
  }

  // ---------- Database steps ----------

  lemma GoRuns(now: nat, db: Db, p: Proc)
    requires Exec(now, db, p).Go?
    ensures Exec(now, db, p).p.prog == p.prog && !Exec(now, db, p).p.pc.Finished?
  {
    hide Decide, Check, Apply, CreditRow, View, FindByExternalId, FindByIdempotencyKey, Taken, AnswerFrom;
  }

  lemma DecisionErrors(t: TxRow, w: WalletRow, read: Option<TxRow>)
    ensures Decide(t, w, read) != Refuse(DuplicateMessage)
  {
    hide Add, Subtract, MoveWrites;
  }

  lemma DecisionsFine(t: TxRow)
    ensures forall w, read :: Decide(t, w, read) != Refuse(DuplicateMessage)
  {
    forall w, read ensures Decide(t, w, read) != Refuse(DuplicateMessage) { DecisionErrors(t, w, read); }
  }

  lemma NoDuplicateCheck(db: Db, w: Write)
    requires !w.InsInbox?
    ensures Check(db, w) != Some(DuplicateMessage)
  {
  }

  lemma WritesNoInbox(p: Proc, b: Basis)
    requires p.prog.Submit? && b.Decided? && Decide(p.prog.t, b.w, b.read).Plan? && p.pc.Writing? && p.pc.todo != []
    requires p.done + p.pc.todo == DecidedWrites(p, b) && |p.done| >= |InboxWrites(p.prog.inbox)|
    ensures !p.pc.todo[0].InsInbox?
  {
    hide Decide;
    Standing(p, b);
    PlanShape(p.prog.t, b.w, b.read);
  }

  /** The duplicate-message error never reaches the worker: the use case handles it. */
  lemma NeverDuplicateMessage(hist: seq<Db>, p: Proc)
    requires HistOk(hist) && ProcOk(hist, p) && p.prog.Submit?
    ensures Exec(|hist| - 1, Last(hist), p) != Fail(DuplicateMessage)
  {
    hide HistOk, Owned, AllCovered, Run, Decide, FindByExternalId, FindByIdempotencyKey, Taken, AsOf, RowAsOf;
    var t := p.prog.t;
    match p.pc {
      case Writing(stage, todo, b) => if todo != [] { WritesNoInbox(p, b); NoDuplicateCheck(View(Last(hist), p), todo[0]); }
      case LockWallet => DecisionsFine(t);
      case ReadRef(w) => DecisionsFine(t);
      case _ =>
    }
  }

  lemma RepeatIdle(db: Db, t: TxRow, inbox: Option<Claim>, read: Option<TxRow>)
    requires inbox.Some? && MessageOf(inbox.value) in db.inbox && WagerStep(db, t, inbox, read).Ok?
    ensures WagerStep(db, t, inbox, read).value.0 == db
  {
    hide AnswerFrom;
  }

  /** A committed submission has its row on record, whether it was new, a replay or a repeated message. */
  lemma AtomicRecords(db: Db, op: Op, db': Db)
    requires Inv(db) && InboxOk(db) && ValidProgram(op.prog) && Atomic(db, op, db') && op.prog.Submit?
    requires op.prog.inbox.Some? && MessageOf(op.prog.inbox.value) in db.inbox ==>
               db.inbox[MessageOf(op.prog.inbox.value)] == op.prog.inbox.value.payload
    ensures OnRecord(db', op.prog.t.hash)
  {
    hide Inv, WagerStep, Earlier, FreshRead, OnRecord;
    var t, inbox := op.prog.t, op.prog.inbox;
    if inbox.Some? && MessageOf(inbox.value) in db.inbox {
      RepeatIdle(db, t, inbox, op.basis.read);
    } else {
      WagerRecords(db, t, inbox, op.basis.read);
    }
  }

  /** A commit adds no claim but its own. */
  lemma AtomicClaims(db: Db, op: Op, db': Db)
    requires Atomic(db, op, db')
    ensures forall k :: k in db'.inbox ==>
              (k in db.inbox && db'.inbox[k] == db.inbox[k])
              || (op.prog.Submit? && op.prog.inbox.Some? && k == MessageOf(op.prog.inbox.value)
                  && db'.inbox[k] == op.prog.inbox.value.payload)
  {
    hide WagerStep, ResolveStep, Open, Earlier, FreshRead, ReferenceOf;
    match op.prog {
      case Submit(t, inbox) =>
        if inbox.Some? && MessageOf(inbox.value) in db.inbox {
          RepeatIdle(db, t, inbox, op.basis.read);
        } else {
          WagerInbox(db, t, inbox, op.basis.read);
        }
      case Settle(id) => if !op.basis.Idle? { ResolveInbox(db, id, op.basis.read); }
      case OpenUp(w) => OpenInbox(db, w);
    }
  }

  lemma RecordStays(hist: seq<Db>, db': Db, p: Proc)
    requires hist != [] && ReturnFits(Last(hist), p) && Evolves(Last(hist), db')
    ensures ReturnFits(db', p)
  {
    hide Evolves, OnRecord;
    if p.prog.Submit? && p.pc == Finished(None) { OnRecordForever(Last(hist), db', p.prog.t.hash); }
  }

  lemma ProcOf(s: Sys, pid: nat)
    requires SysOk(s) && pid in s.procs
    ensures s.hist != [] && HistOk(s.hist) && ProcOk(s.hist, s.procs[pid])
    ensures Inv(Last(s.hist)) && InboxOk(Last(s.hist)) && ValidProgram(s.procs[pid].prog)
  {
    hide HistOk, ProcOk, LogOk, Inv, InboxOk;
    Start(s);
    LastState(s.hist);
    ProcParts(s.hist, s.procs[pid]);
  }

  /** A message id determines its data. */
  lemma SameClaim(sent: map<string, Body>, supported: seq<string>, key: (string, string), a: Payload, b: Payload)
    requires ClaimFits(sent, supported, key, a) && ClaimFits(sent, supported, key, b)
    ensures a == b
  {
  }

  /** What a commit leaves behind. */
  lemma CommitLeaves(n: Net, supported: seq<string>, pid: nat)
    requires NetOk(n, supported) && CanMove(n.sys, Act(pid)) && n.sys.procs[pid].pc.Ready?
    ensures var db, p := Last(n.sys.hist), n.sys.procs[pid];
            var db' := View(db, p);
            && Evolves(db, db') && (p.prog.Submit? ==> OnRecord(db', p.prog.t.hash))
            && forall k :: k in db'.inbox ==> ClaimFits(n.sent, supported, k, db'.inbox[k])
  {
    hide SysOk, HistOk, ProcOk, Inv, InboxOk, Atomic, View, ClaimFits, OnRecord, Evolves, ValidProgram, ReadInTime,
         WorkersFit, ReturnsFit, Acknowledged;
    var db, p := Last(n.sys.hist), n.sys.procs[pid];
    var op, db' := Op(p.prog, p.pc.basis, p.since), View(db, p);
    ProcOf(n.sys, pid);
    CommitAtomic(n.sys.hist, p);
    AtomicKeeps(db, op, db');
    AtomicClaims(db, op, db');
    assert ProgramFits(n.sent, supported, p.prog);
    if p.prog.Submit? {
      if p.prog.inbox.Some? && MessageOf(p.prog.inbox.value) in db.inbox {
        SameClaim(n.sent, supported, MessageOf(p.prog.inbox.value), db.inbox[MessageOf(p.prog.inbox.value)], p.prog.inbox.value.payload);
      }
      AtomicRecords(db, op, db');
    }
  }

  lemma CommitDelivers(n: Net, supported: seq<string>, pid: nat)
    requires NetOk(n, supported) && CanMove(n.sys, Act(pid)) && n.sys.procs[pid].pc.Ready?
    ensures NetOk(n.(sys := Step(n.sys, Act(pid))), supported)
  {
    hide SysOk, View, ClaimFits, Evolves, Asked, Blocked, OnRecord;
    var db, p := Last(n.sys.hist), n.sys.procs[pid];
    var sys' := Step(n.sys, Act(pid));
    var n' := n.(sys := sys');
    StepKeeps(n.sys, Act(pid));
    CommitLeaves(n, supported, pid);
    assert Last(sys'.hist) == View(db, p);
    forall q | q in sys'.procs ensures ReturnFits(Last(sys'.hist), sys'.procs[q]) {
      if q != pid { RecordStays(n.sys.hist, View(db, p), n.sys.procs[q]); }
    }
    forall id | id in n.sent && id !in n.queue ensures Acknowledged(n', supported, id) {
      assert Acknowledged(n, supported, id);
      OnRecordForever(db, View(db, p), Asked(n.sent, id, supported).value.hash);
    }
  }

  lemma StatementFinds(now: nat, db: Db, p: Proc)
    requires Exec(now, db, p).Go? && HasFound(p.pc)
    requires p.prog.Submit? && p.pc.DupRead? ==> FindByExternalId(View(db, p), ExtOf(p.prog.t)).Some?
    ensures HasFound(Exec(now, db, p).p.pc)
  {
    hide Decide, Check, Apply, CreditRow, View, FindByExternalId, FindByIdempotencyKey, Taken, AnswerFrom;
  }

  /** A repeated message always finds the row of the submission that claimed it: the branch that
      acknowledges without one is never entered. */
  lemma RepeatFinds(n: Net, supported: seq<string>, pid: nat)
    requires NetOk(n, supported) && pid in n.sys.procs && n.sys.procs[pid].prog.Submit? && n.sys.procs[pid].pc.DupRead?
    ensures var p := n.sys.procs[pid]; FindByExternalId(View(Last(n.sys.hist), p), ExtOf(p.prog.t)).Some?
  {
    hide SysOk, HistOk, Inv, ClaimFits, Asked, Owned, AllCovered, Evolves, ReturnsFit, WorkersFit, Acknowledged, FindsRows;
    var db, p := Last(n.sys.hist), n.sys.procs[pid];
    ProcOf(n.sys, pid);
    ViewEmpty(db, p);
    var key := MessageOf(p.prog.inbox.value);
    assert ClaimFits(n.sent, supported, key, db.inbox[key]) && ProgramFits(n.sent, supported, p.prog);
    SameClaim(n.sent, supported, key, db.inbox[key], p.prog.inbox.value.payload);
    assert OnRecord(db, db.inbox[key]);
  }

  lemma GoFinds(n: Net, supported: seq<string>, pid: nat)
    requires NetOk(n, supported) && pid in n.sys.procs && Exec(|n.sys.hist| - 1, Last(n.sys.hist), n.sys.procs[pid]).Go?
    ensures HasFound(Exec(|n.sys.hist| - 1, Last(n.sys.hist), n.sys.procs[pid]).p.pc)
  {
    hide SysOk, ClaimsFit, Acknowledged, WorkersFit, ReturnsFit, Exec, View, FindByExternalId;
    var p := n.sys.procs[pid];
    if p.prog.Submit? && p.pc.DupRead? { RepeatFinds(n, supported, pid); }
    StatementFinds(|n.sys.hist| - 1, Last(n.sys.hist), p);
  }

  /** A step that commits nothing changes one transaction, which does not return without an error. */
  lemma QuietDelivers(n: Net, supported: seq<string>, sys': Sys, pid: nat, p': Proc)
    requires NetOk(n, supported) && SysOk(sys') && sys'.hist == n.sys.hist && sys'.procs == n.sys.procs[pid := p']
    requires if pid in n.sys.procs then p'.prog == n.sys.procs[pid].prog else ProgramFits(n.sent, supported, p'.prog)
    requires p'.prog.Submit? && p'.pc.Finished? ==> p'.pc.error.Some? && p'.pc.error != Some(DuplicateMessage)
    requires sys'.log == n.sys.log && HasFound(p'.pc)
    ensures NetOk(n.(sys := sys'), supported)
  {
    hide SysOk, ClaimFits, Asked, OnRecord;
    var n' := n.(sys := sys');
    forall id | id in n.sent && id !in n.queue ensures Acknowledged(n', supported, id) {
      assert Acknowledged(n, supported, id);
    }
  }

  lemma NetSys(n: Net, supported: seq<string>)
    requires NetOk(n, supported)
    ensures SysOk(n.sys) && n.sys.hist != []
  {
    hide SysOk, ClaimsFit, ReturnsFit, WorkersFit, Acknowledged;
  }

  lemma DatabaseDelivers(n: Net, supported: seq<string>, m: Move)
    requires NetOk(n, supported) && CanMove(n.sys, m)
    requires Ordinary(m) || (m.Begin? && ProgramFits(n.sent, supported, m.prog))
    ensures NetOk(n.(sys := Step(n.sys, m)), supported)
  {
    hide SysOk, NetOk, Exec, Blocked, ProcOk, HistOk, Inv, InboxOk, ValidProgram, Asked;
    assert SysOk(n.sys) by { NetSys(n, supported); }
    StepKeeps(n.sys, m);
    var sys' := Step(n.sys, m);
    match m {
      case Begin(pid, prog) => QuietDelivers(n, supported, sys', pid, sys'.procs[pid]);
      case Abort(pid, e) => QuietDelivers(n, supported, sys', pid, sys'.procs[pid]);
      case Act(pid) =>
        var p := n.sys.procs[pid];
        ProcOf(n.sys, pid);
        match Exec(|n.sys.hist| - 1, Last(n.sys.hist), p) {
          case Go(p') =>
            GoRuns(|n.sys.hist| - 1, Last(n.sys.hist), p);
            GoFinds(n, supported, pid);
            QuietDelivers(n, supported, sys', pid, p');
          case Fail(e) =>
            if p.prog.Submit? { NeverDuplicateMessage(n.sys.hist, p); }
            QuietDelivers(n, supported, sys', pid, sys'.procs[pid]);
          case Commit => CommitsOnlyReady(|n.sys.hist| - 1, Last(n.sys.hist), p); CommitDelivers(n, supported, pid);
        }
    }
  }

  // ---------- Queue steps ----------

  lemma SendDelivers(n: Net, supported: seq<string>, id: string, body: Body)
    requires NetOk(n, supported) && id !in n.sent
    ensures NetOk(Do(n, Send(id, body), supported), supported)
  {
    hide SysOk, OnRecord, Prepare;
    var n' := Do(n, Send(id, body), supported);
    assert forall i :: i in n.sent ==> Asked(n'.sent, i, supported) == Asked(n.sent, i, supported);
    forall k | k in Last(n.sys.hist).inbox ensures ClaimFits(n'.sent, supported, k, Last(n.sys.hist).inbox[k]) {
      assert ClaimFits(n.sent, supported, k, Last(n.sys.hist).inbox[k]);
    }
    forall pid | pid in n.sys.procs ensures ProgramFits(n'.sent, supported, n.sys.procs[pid].prog) {
      assert ProgramFits(n.sent, supported, n.sys.procs[pid].prog);
    }
    forall i | i in n'.sent && i !in n'.queue ensures Acknowledged(n', supported, i) {
      assert Acknowledged(n, supported, i);
    }
    forall w | w in n.workers ensures WorkerFits(n', supported, n.workers[w]) {
      assert WorkerFits(n, supported, n.workers[w]);
    }
  }

  lemma SameClaims(n: Net, n': Net, supported: seq<string>)
    requires n.sys.hist != [] && ClaimsFit(n, supported) && n'.sys == n.sys && n'.sent == n.sent
    ensures ClaimsFit(n', supported)
  {
  }

  lemma ReceiveDelivers(n: Net, supported: seq<string>, worker: nat, id: string, pid: nat)
    requires NetOk(n, supported) && Can(n, Receive(worker, id, pid), supported)
    ensures NetOk(Do(n, Receive(worker, id, pid), supported), supported)
  {
    hide SysOk, OnRecord, Asked, ClaimsFit, ReturnsFit, CanMove;
    if Asked(n.sent, id, supported).Some? {
      var t := Asked(n.sent, id, supported).value;
      var m := Begin(pid, Submit(t, Some(ClaimOf(id, t))));
      DatabaseDelivers(n, supported, m);
      var n1, n' := n.(sys := Step(n.sys, m)), Do(n, Receive(worker, id, pid), supported);
      SameClaims(n1, n', supported);
      forall i | i in n'.sent && i !in n'.queue ensures Acknowledged(n', supported, i) { assert Acknowledged(n1, supported, i); }
      forall w | w in n'.workers ensures WorkerFits(n', supported, n'.workers[w]) {
        assert w in n.workers ==> WorkerFits(n1, supported, n1.workers[w]);
      }
    }
  }

  /** A message is deleted only after the row of its submission has been committed. */
  lemma DeleteDelivers(n: Net, supported: seq<string>, worker: nat)
    requires NetOk(n, supported) && Can(n, Delete(worker), supported)
    ensures NetOk(Do(n, Delete(worker), supported), supported)
    ensures Acknowledged(n, supported, n.workers[worker].message)
  {
    hide SysOk, OnRecord, Asked, ClaimsFit;
    var w := n.workers[worker];
    var n' := Do(n, Delete(worker), supported);
    assert WorkerFits(n, supported, w);
    assert ReturnFits(Last(n.sys.hist), n.sys.procs[w.pid]);
    assert Acknowledged(n, supported, w.message);
    forall i | i in n'.sent && i !in n'.queue ensures Acknowledged(n', supported, i) {
      assert i != w.message ==> Acknowledged(n, supported, i);
    }
    SameClaims(n, n', supported);
  }

  lemma MoveDelivers(n: Net, supported: seq<string>, m: NetMove)
    requires NetOk(n, supported) && Can(n, m, supported)
    ensures NetOk(Do(n, m, supported), supported)
  {
    hide SysOk, Asked, CanMove, OnRecord, ClaimsFit;
    match m {
      case Send(id, body) => SendDelivers(n, supported, id, body);
      case Receive(worker, id, pid) => ReceiveDelivers(n, supported, worker, id, pid);
      case Database(move) => DatabaseDelivers(n, supported, move);
      case Delete(worker) => DeleteDelivers(n, supported, worker);
      case Crash(worker) =>
        var n' := Do(n, m, supported);
        SameClaims(n, n', supported);
        forall i | i in n'.sent && i !in n'.queue ensures Acknowledged(n', supported, i) { assert Acknowledged(n, supported, i); }
    }
  }

  lemma NothingDelivered(supported: seq<string>)
    ensures NetOk(EMPTY, supported)
  {
    hide SysOk;
    InitialOk();
  }

  /** No message is lost: in every run each message sent is still in the queue, or the row of its
      submission is on record for ever. */
  lemma {:induction false} EveryRunDelivers(moves: seq<NetMove>, supported: seq<string>)
    requires Delivered(moves, supported).Some?
    ensures NetOk(Delivered(moves, supported).value, supported)
  {
    if moves == [] {
      NothingDelivered(supported);
    } else {
      hide NetOk, Can;
      EveryRunDelivers(moves[..|moves| - 1], supported);
      MoveDelivers(Delivered(moves[..|moves| - 1], supported).value, supported, moves[|moves| - 1]);
    }
  }

  /** In every run, no transaction ever comes to acknowledge a repeated message without a persisted row. */
  lemma NeverAcknowledgesWithoutRow(moves: seq<NetMove>, supported: seq<string>, pid: nat, at: nat)
    requires Delivered(moves, supported).Some? && pid in Delivered(moves, supported).value.sys.procs
    ensures Delivered(moves, supported).value.sys.procs[pid].pc != DupLock(None, at)
  {
    hide SysOk, ClaimsFit, Acknowledged, WorkersFit, ReturnsFit, Delivered;
    EveryRunDelivers(moves, supported);
    assert HasFound(Delivered(moves, supported).value.sys.procs[pid].pc);
  }

  // ---------- Exactly once ----------

  /** The k-th ledger entry was written for this provider and external id. */
  predicate EntryOf(db: Db, k: nat, key: (string, string)) {
    k < |db.ledger| && db.ledger[k].txId in db.txs && ExtOf(db.txs[db.ledger[k].txId]) == key
  }

  lemma SameTx(db: Db, a: string, b: string)
    requires Inv(db) && a in db.txs && b in db.txs && ExtOf(db.txs[a]) == ExtOf(db.txs[b])
    ensures a == b
  {
    hide RowsOk, LedgerOk, WalletsOk, EventsOk;
  }

  lemma EntryMoves(db: Db, k: nat, key: (string, string))
    requires Inv(db) && EntryOf(db, k, key)
    ensures FindByExternalId(db, key).Some? && Moves(FindByExternalId(db, key).value)
  {
    hide RowsOk, WalletsOk, EventsOk;
    assert db.ledger[k] in db.ledger;
    assert EntryMatches(db.txs, db.ledger[k]);
  }

  /** Redelivered, duplicated, taken by several consumers or resubmitted over HTTP: an external id of a
      provider moves money at most once, and it does if and only if its row is one that moves money. */
  lemma ExactlyOnceEffect(s: Sys, n: nat, key: (string, string))
    requires SysOk(s) && n < |s.hist|
    ensures forall j: nat, k: nat :: EntryOf(s.hist[n], j, key) && EntryOf(s.hist[n], k, key) ==> j == k
    ensures var row := FindByExternalId(s.hist[n], key);
            (exists k: nat :: EntryOf(s.hist[n], k, key)) <==> row.Some? && Moves(row.value)
  {
    hide SysOk, Inv;
    StateOk(s, n);
    var db := s.hist[n];
    forall j: nat, k: nat | EntryOf(db, j, key) && EntryOf(db, k, key) ensures j == k {
      SameTx(db, db.ledger[j].txId, db.ledger[k].txId);
      EntryUnique(db, j, k);
    }
    var row := FindByExternalId(db, key);
    if row.Some? && Moves(row.value) {
      Found(db, key);
      OneEntryPerMovement(db, row.value.id);
      var k :| 0 <= k < |db.ledger| && EntryFits(row.value, db.ledger[k]);
      assert EntryOf(db, k, key);
    }
    forall k: nat | EntryOf(db, k, key) ensures row.Some? && Moves(row.value) { EntryMoves(db, k, key); }
  }
}
