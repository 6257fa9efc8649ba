/** The wager queue under PostgreSQL's rule that a transaction which has failed on a unique key executes no
    further statement: what then becomes of a message that is delivered again. */
module Redelivery {
  import opened Amounts
  import opened Tables
  import opened Steps
  import opened Invariants
  import opened Evolution
  import opened Interleaving
  import opened Isolation
  import opened Knowledge
  import opened Refinement
  import opened Histories
  import opened Progress
  import opened Delivery

  /** The statement before this one ran into a duplicate key. */
  predicate Failed(pc: Pc) { pc.DupRead? || (pc.LookExt? && pc.again) }

  predicate Lawful(n: Net, m: NetMove) {
    m.Database? && m.move.Act? && m.move.pid in n.sys.procs ==> !Failed(n.sys.procs[m.move.pid].pc)
  }

  /** A run in which a transaction that has failed does nothing but end. */
  predicate LawfulRun(moves: seq<NetMove>, supported: seq<string>) {
    moves == []
    || (&& LawfulRun(moves[..|moves| - 1], supported)
        && match Delivered(moves[..|moves| - 1], supported)
           case None => false
           case Some(n) => Lawful(n, moves[|moves| - 1]) && Can(n, moves[|moves| - 1], supported))
  }

  // ---------- A repeated message is never answered ----------

  /** Not on the branch that answers a repeated message from its row. */
  predicate Unanswering(p: Proc) {
    p.prog.Submit? && p.prog.inbox.Some? ==> !p.pc.DupLock? && (p.pc.Ready? && p.pc.basis.Answered? ==> p.done != [])
  }

  ghost predicate NoneAnswers(n: Net) {
    forall pid :: pid in n.sys.procs ==> Unanswering(n.sys.procs[pid])
  }

  lemma StatementUnanswering(hist: seq<Db>, p: Proc)
    requires HistOk(hist) && ProcOk(hist, p) && Unanswering(p) && !Failed(p.pc)
    requires Exec(|hist| - 1, Last(hist), p).Go?
    ensures Unanswering(Exec(|hist| - 1, Last(hist), p).p)
  {
    hide HistOk, Owned, AllCovered, Run, Decide, Check, Apply, View, FindByExternalId, FindByIdempotencyKey, Taken, AsOf, RowAsOf,
         AnswerFrom, LockedWallet;
  }

  lemma MoveUnanswering(n: Net, supported: seq<string>, m: Move)
    requires NetOk(n, supported) && CanMove(n.sys, m) && NoneAnswers(n) && Lawful(n, Database(m))
    ensures NoneAnswers(n.(sys := Step(n.sys, m)))
  {
    hide NetOk, SysOk, Exec, ProcOk, HistOk, ValidProgram, Blocked, View, Inv, InboxOk;
    NetSys(n, supported);
    if m.Act? {
      var p := n.sys.procs[m.pid];
      ProcOf(n.sys, m.pid);
      match Exec(|n.sys.hist| - 1, Last(n.sys.hist), p) {
        case Go(p') => StatementUnanswering(n.sys.hist, p);
        case _ =>
      }
    }
  }

  lemma SameProcs(n: Net, n': Net)
    requires NoneAnswers(n) && n'.sys == n.sys
    ensures NoneAnswers(n')
  {
  }

  lemma NobodyAnswers(n: Net)
    requires n.sys.procs == map[]
    ensures NoneAnswers(n)
  {
  }

  lemma DoUnanswering(n: Net, supported: seq<string>, m: NetMove)
    requires NetOk(n, supported) && Can(n, m, supported) && NoneAnswers(n) && Lawful(n, m)
    ensures NoneAnswers(Do(n, m, supported))
  {
    hide NetOk, Asked, Step, CanMove, NoneAnswers;
    match m {
      case Receive(_, id, pid) =>
        if Asked(n.sent, id, supported).Some? {
          var t := Asked(n.sent, id, supported).value;
          MoveUnanswering(n, supported, Begin(pid, Submit(t, Some(ClaimOf(id, t)))));
          SameProcs(n.(sys := Step(n.sys, Begin(pid, Submit(t, Some(ClaimOf(id, t)))))), Do(n, m, supported));
        }
      case Database(move) => MoveUnanswering(n, supported, move);
      case _ => SameProcs(n, Do(n, m, supported));
    }
  }

  lemma {:induction false} LawfulUnanswering(moves: seq<NetMove>, supported: seq<string>)
    requires LawfulRun(moves, supported)
    ensures Delivered(moves, supported).Some? && NoneAnswers(Delivered(moves, supported).value)
    ensures NetOk(Delivered(moves, supported).value, supported)
  {
    hide NetOk, NoneAnswers, Can, Do, Lawful;
    if moves == [] {
      NothingDelivered(supported);
      NobodyAnswers(EMPTY);
    } else {
      var before := moves[..|moves| - 1];
      LawfulUnanswering(before, supported);
      DoUnanswering(Delivered(before, supported).value, supported, moves[|moves| - 1]);
      MoveDelivers(Delivered(before, supported).value, supported, moves[|moves| - 1]);
    }
  }

  // ---------- A claimed message is never deleted again ----------

  /** The message is in the queue, its claim has been committed, and no consumer is about to delete it. */
  predicate Undeleted(n: Net, id: string)
    requires n.sys.hist != []
  {
    && id in n.queue && (CONSUMER, id) in Last(n.sys.hist).inbox
    && forall w :: w in n.workers && n.workers[w].message == id ==> !Returned(n.sys, n.workers[w].pid)
  }

  /** A transaction whose claim another has committed has nothing left to do: it is before its insert, its
      insert has failed, or it has ended. */
  lemma ClaimedByAnother(hist: seq<Db>, p: Proc)
    requires HistOk(hist) && ProcOk(hist, p) && Unanswering(p) && p.prog.Submit? && p.prog.inbox.Some?
    requires MessageOf(p.prog.inbox.value) in Last(hist).inbox
    ensures (p.pc.AtInbox? || p.pc.DupRead? || p.pc.Finished?) && p.done == []
  {
    hide HistOk, AllCovered, Run, Decide, AsOf, RowAsOf, AnswerFrom, LockedWallet, HasKeys;
    assert !OwnedOne(Last(hist), InboxKey(MessageOf(p.prog.inbox.value)));
  }

  lemma WorkerOf(n: Net, supported: seq<string>, w: nat)
    requires NetOk(n, supported) && w in n.workers
    ensures var worker := n.workers[w];
            worker.pid in n.sys.procs && worker.message in n.sent
            && var prog := n.sys.procs[worker.pid].prog;
               prog.Submit? && prog.inbox.Some? && MessageOf(prog.inbox.value) == (CONSUMER, worker.message)
  {
    hide SysOk, ClaimsFit, ReturnsFit, FindsRows, Acknowledged;
  }

  /** Nor does its next statement let it return without an error. */
  lemma ClaimedDoesNotReturn(n: Net, supported: seq<string>, id: string, w: nat, m: Move)
    requires NetOk(n, supported) && CanMove(n.sys, m) && NoneAnswers(n) && Lawful(n, Database(m)) && (Ordinary(m) || m.Begin?)
    requires Undeleted(n, id) && w in n.workers && n.workers[w].message == id
    ensures !Returned(Step(n.sys, m), n.workers[w].pid)
  {
    hide NetOk, SysOk, ProcOk, HistOk, ValidProgram, Blocked, Inv, InboxOk, Asked, ClaimsFit, ReturnsFit, FindsRows;
    NetSys(n, supported);
    WorkerOf(n, supported, w);
    var pid := n.workers[w].pid;
    if m.pid == pid && m.Act? {
      ProcOf(n.sys, pid);
      ClaimedByAnother(n.sys.hist, n.sys.procs[pid]);
      ViewEmpty(Last(n.sys.hist), n.sys.procs[pid]);
    }
  }

  lemma InboxStays(sys: Sys, m: Move, key: (string, string))
    requires SysOk(sys) && CanMove(sys, m) && sys.hist != [] && key in Last(sys.hist).inbox
    ensures var sys' := Step(sys, m); sys'.hist != [] && key in Last(sys'.hist).inbox
  {
    hide SysOk, CanMove, Step, TablesEvolve;
    OnlyCommitsChange(sys, m);
    StepKeeps(sys, m);
    if Step(sys, m).hist != sys.hist {
      var i := |sys.hist| - 1;
      StatesEvolve(Step(sys, m), i, i + 1);
    }
  }

  lemma DatabaseKeepsIt(n: Net, supported: seq<string>, id: string, m: Move)
    requires NetOk(n, supported) && CanMove(n.sys, m) && NoneAnswers(n) && Lawful(n, Database(m)) && (Ordinary(m) || m.Begin?)
    requires Undeleted(n, id)
    ensures Step(n.sys, m).hist != [] && Undeleted(n.(sys := Step(n.sys, m)), id)
  {
    hide NetOk, Step, CanMove, Ordinary, Lawful, Returned, NoneAnswers;
    NetSys(n, supported);
    InboxStays(n.sys, m, (CONSUMER, id));
    forall w | w in n.workers && n.workers[w].message == id ensures !Returned(Step(n.sys, m), n.workers[w].pid) {
      ClaimedDoesNotReturn(n, supported, id, w, m);
    }
  }

  lemma KeepsIt(n: Net, supported: seq<string>, id: string, m: NetMove)
    requires NetOk(n, supported) && Can(n, m, supported) && NoneAnswers(n) && Lawful(n, m) && n.sys.hist != [] && Undeleted(n, id)
    ensures Do(n, m, supported).sys.hist != [] && Undeleted(Do(n, m, supported), id)
  {
    hide NetOk, Asked, CanMove, NoneAnswers;
    match m {
      case Receive(worker, i, pid) =>
        if Asked(n.sent, i, supported).Some? {
          DatabaseKeepsIt(n, supported, id, Begin(pid, Submit(Asked(n.sent, i, supported).value,
                                                              Some(ClaimOf(i, Asked(n.sent, i, supported).value)))));
        }
      case Database(move) => DatabaseKeepsIt(n, supported, id, move);
      case _ =>
    }
  }

  /** Under PostgreSQL's rule a message that has been processed, and that the consumer which processed it did
      not live to delete, is never deleted: it is in the queue after every continuation of the run. */
  lemma {:induction false} ProcessedButNeverDeleted(moves: seq<NetMove>, more: seq<NetMove>, supported: seq<string>, id: string)
    requires LawfulRun(moves, supported) && LawfulRun(moves + more, supported)
    requires Delivered(moves, supported).Some? && Delivered(moves, supported).value.sys.hist != []
    requires Undeleted(Delivered(moves, supported).value, id)
    ensures Delivered(moves + more, supported).Some? && Delivered(moves + more, supported).value.sys.hist != []
    ensures Undeleted(Delivered(moves + more, supported).value, id)
  {
    hide NetOk, NoneAnswers, Can, Do, Lawful, Undeleted;
    if more == [] {
      assert moves + more == moves;
    } else {
      var before := more[..|more| - 1];
      assert (moves + more)[..|moves + more| - 1] == moves + before;
      ProcessedButNeverDeleted(moves, before, supported, id);
      LawfulUnanswering(moves + before, supported);
      KeepsIt(Delivered(moves + before, supported).value, supported, id, more[|more| - 1]);
    }
  }
}
