/** The use cases and the publishers together: the table that the publishers drain is the one that the
    commits of the use cases fill. */
module Publishing {
  import opened Amounts
  import opened Tables
  import opened Invariants
  import opened Evolution
  import opened Interleaving
  import opened Knowledge
  import opened Refinement
  import opened Histories
  import O = Outbox

  datatype Joint = Joint(sys: Sys, out: O.Outbox)
  datatype JointMove = Database(move: Move) | Publish(step: O.OutMove)
  const START: Joint := Joint(INITIAL, O.EMPTY)

  /** One row for each event that a commit has added. */
  function Filled(o: O.Outbox, n: nat): O.Outbox
    decreases n
  {
    if n == 0 then o else Filled(o, n - 1).(rows := Filled(o, n - 1).rows + [O.OutRow(O.Due, 0)])
  }

  function Added(db: Db, db': Db): nat { if |db.outbox| <= |db'.outbox| then |db'.outbox| - |db.outbox| else 0 }

  /** Publishers insert no events. */
  predicate JointCan(j: Joint, m: JointMove) {
    j.sys.hist != [] &&
    match m
    case Database(move) => CanMove(j.sys, move)
    case Publish(step) => step != O.Insert && O.Can(j.out, step)
  }

  function JointDo(j: Joint, m: JointMove, max: int): Joint
    requires JointCan(j, m)
  {
    match m
    case Database(move) =>
      var sys' := Step(j.sys, move);
      Joint(sys', if sys'.hist == [] then j.out else Filled(j.out, Added(Current(j.sys), Current(sys'))))
    case Publish(step) => Joint(j.sys, O.Do(j.out, step, max))
  }

  function JointRun(moves: seq<JointMove>, max: int): Option<Joint> {
    if moves == [] then Some(START)
    else match JointRun(moves[..|moves| - 1], max)
      case None => None
      case Some(j) => if JointCan(j, moves[|moves| - 1]) then Some(JointDo(j, moves[|moves| - 1], max)) else None
  }

  /** The publishers' rows are the committed events, one for one. */
  ghost predicate JointOk(j: Joint, max: int) {
    SysOk(j.sys) && j.sys.hist != [] && O.OutboxOk(j.out, max) && |j.out.rows| == |Last(j.sys.hist).outbox|
  }

  lemma {:induction false} FilledOk(o: O.Outbox, n: nat, max: int)
    requires O.OutboxOk(o, max)
    ensures O.OutboxOk(Filled(o, n), max) && |Filled(o, n).rows| == |o.rows| + n
    ensures Filled(o, n).sent == o.sent && Filled(o, n).batches == o.batches
    decreases n
  {
    hide O.OutboxOk;
    if n > 0 {
      FilledOk(o, n - 1, max);
      O.InsertKeeps(Filled(o, n - 1), max);
    }
  }

  lemma MarkedSize(o: O.Outbox, m: O.OutMove, max: int)
    requires O.Can(o, m) && m != O.Insert
    ensures |O.Do(o, m, max).rows| == |o.rows|
  {
  }

  lemma EventsGrow(db: Db, db': Db)
    requires Evolves(db, db')
    ensures db.outbox <= db'.outbox
  {
    hide TablesEvolve, IndexesEvolve;
  }

  lemma OutboxGrows(s: Sys, m: Move)
    requires SysOk(s) && CanMove(s, m)
    ensures SysOk(Step(s, m)) && Step(s, m).hist != []
    ensures s.hist != [] && Last(s.hist).outbox <= Last(Step(s, m).hist).outbox
  {
    hide SysOk, CanMove, Atomic, Evolves, Inv, InboxOk;
    Start(s);
    StepKeeps(s, m);
    Start(Step(s, m));
    OnlyCommitsChange(s, m);
    var s' := Step(s, m);
    if s'.hist != s.hist {
      StatesEvolve(s', |s.hist| - 1, |s.hist|);
      EventsGrow(s'.hist[|s.hist| - 1], s'.hist[|s.hist|]);
    }
  }

  lemma JointKeeps(j: Joint, m: JointMove, max: int)
    requires JointOk(j, max) && JointCan(j, m)
    ensures JointOk(JointDo(j, m, max), max)
  {
    hide SysOk, CanMove, O.OutboxOk, O.Do, Filled;
    match m {
      case Database(move) =>
        OutboxGrows(j.sys, move);
        FilledOk(j.out, Added(Current(j.sys), Current(Step(j.sys, move))), max);
      case Publish(step) =>
        O.MoveKeeps(j.out, step, max);
        MarkedSize(j.out, step, max);
    }
  }

  lemma {:induction false} EveryJointRun(moves: seq<JointMove>, max: int)
    requires JointRun(moves, max).Some?
    ensures JointOk(JointRun(moves, max).value, max)
  {
    if moves == [] {
      hide SysOk;
      InitialOk();
    } else {
      hide JointOk, JointCan;
      EveryJointRun(moves[..|moves| - 1], max);
      JointKeeps(JointRun(moves[..|moves| - 1], max).value, moves[|moves| - 1], max);
    }
  }

  /** In every run of use cases and publishers together, only committed events are sent: the event that a
      publisher is about to send is one that a commit has written (and it stays that event, by
      Ledger.EventNumbersStay). */
  lemma OnlyCommittedEventsAreSent(moves: seq<JointMove>, max: int, pid: nat, ok: bool)
    requires JointRun(moves, max).Some? && JointCan(JointRun(moves, max).value, Publish(O.Send(pid, ok)))
    ensures var j := JointRun(moves, max).value;
            var b := j.out.batches[pid];
            var event := b.claimed[|b.outcomes|];
            event < |Last(j.sys.hist).outbox| == |j.out.rows| && j.out.rows[event].status == O.Due
            && JointDo(j, Publish(O.Send(pid, ok)), max).out.sent == j.out.sent + if ok then [event] else []
  {
    hide SysOk, JointRun;
    EveryJointRun(moves, max);
    var j := JointRun(moves, max).value;
    assert O.BatchOk(j.out.rows, j.out.batches[pid]);
  }

  /** Whatever has ever been sent has been committed. */
  lemma SentIsCommitted(moves: seq<JointMove>, max: int, k: nat)
    requires JointRun(moves, max).Some? && k in JointRun(moves, max).value.out.sent
    ensures var j := JointRun(moves, max).value;
            j.sys.hist != [] && k < |Last(j.sys.hist).outbox| == |j.out.rows|
  {
    hide SysOk, JointRun, O.BatchesOk;
    EveryJointRun(moves, max);
  }
}
