/** Whatever has been begun can be brought to its end. */
module Completion {
  import opened Interleaving
  import opened Refinement
  import opened Histories
  import opened Locks
  import opened Schedules

  /** The statements that a transaction may still take, its last one included. */
  function Measure(p: Proc): nat { if Running(p) then Fuel(p) + 1 else 0 }

  /** The measures of the transactions numbered below n. */
  function Work(procs: map<nat, Proc>, n: nat): nat {
    if n == 0 then 0 else Work(procs, n - 1) + if n - 1 in procs then Measure(procs[n - 1]) else 0
  }

  lemma {:induction false} WorkUpdate(procs: map<nat, Proc>, n: nat, pid: nat, p: Proc)
    requires pid in procs
    ensures Work(procs[pid := p], n) == Work(procs, n) + if pid < n then Measure(p) - Measure(procs[pid]) else 0
  {
    hide Measure;
    if n > 0 { WorkUpdate(procs, n - 1, pid, p); }
  }

  lemma {:induction false} Bounded(s: set<nat>) returns (n: nat)
    ensures forall k :: k in s ==> k < n
    decreases s
  {
    n := 0;
    if s != {} {
      var k :| k in s;
      var m := Bounded(s - {k});
      n := if m <= k then k + 1 else m;
      forall j | j in s ensures j < n {
        if j != k { assert j in s - {k}; }
      }
    }
  }

  /** A statement of a transaction that is not blocked lowers its measure. */
  lemma ActBurns(s: Sys, pid: nat)
    requires SysOk(s) && AllLeveled(s) && CanMove(s, Act(pid))
    ensures var s' := Step(s, Act(pid));
            pid in s'.procs && s'.procs == s.procs[pid := s'.procs[pid]] && Measure(s'.procs[pid]) < Measure(s.procs[pid])
  {
    hide SysOk, Leveled, Exec, Fuel, Blocked;
    var p := s.procs[pid];
    assert Leveled(p);
    Start(s);
    match Exec(|s.hist| - 1, Current(s), p) {
      case Go(p') => StatementBurns(|s.hist| - 1, Current(s), p);
      case _ =>
    }
  }

  /** In every run the transactions that are unfinished can be run to their ends, all of them, by no more
      statements than their measures add up to: no wait is for ever, and none starves another. */
  lemma {:induction false} RunsToTheEnd(moves: seq<Move>, n: nat) returns (more: seq<Move>)
    requires After(moves).Some? && forall pid :: pid in After(moves).value.procs ==> pid < n
    ensures After(moves + more).Some? && |more| <= Work(After(moves).value.procs, n)
    ensures After(moves + more).value.procs.Keys == After(moves).value.procs.Keys
    ensures forall pid :: pid in After(moves + more).value.procs ==> !Running(After(moves + more).value.procs[pid])
    decreases Work(After(moves).value.procs, n)
  {
    hide SysOk, AllLeveled, CanMove, Measure, After;
    var s := After(moves).value;
    more := [];
    assert moves + [] == moves;
    if pid :| pid in s.procs && Running(s.procs[pid]) {
      EveryRunRefines(moves);
      EveryRunLeveled(moves);
      var free := NoDeadlock(s, pid);
      ActBurns(s, free);
      AfterSnoc(moves, Act(free));
      WorkUpdate(s.procs, n, free, Step(s, Act(free)).procs[free]);
      var rest := RunsToTheEnd(moves + [Act(free)], n);
      more := [Act(free)] + rest;
      assert moves + more == moves + [Act(free)] + rest;
    }
  }

  /** So every run can be continued to one in which nothing is left open. */
  lemma EveryRunCanFinish(moves: seq<Move>) returns (more: seq<Move>)
    requires After(moves).Some?
    ensures After(moves + more).Some?
    ensures forall pid :: pid in After(moves + more).value.procs ==> !Running(After(moves + more).value.procs[pid])
  {
    hide After;
    var n := Bounded(After(moves).value.procs.Keys);
    more := RunsToTheEnd(moves, n);
  }
}
