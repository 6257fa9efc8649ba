/** Draining the outbox (internal/infrastructure/transport/outbox_worker.go,
    internal/infrastructure/repository/messaging_repository.go): several publishers claim batches with
    FOR UPDATE SKIP LOCKED, send, mark each event, and commit or roll back the whole batch. The events
    are numbered in the order of their commits; whether one is due is left to the environment. */
module Outbox {
  datatype SendStatus = Due | Published | GivenUp

  /** The columns of an event that a publisher reads or writes. */
  datatype OutRow = OutRow(status: SendStatus, attempts: nat)

  /** An open batch: the events it has locked, and whether each send so far succeeded. */
  datatype Batch = Batch(claimed: seq<nat>, outcomes: seq<bool>)

  /** `sent` lists the successful sends in order; `lost` those whose batch rolled back afterwards; `failed`
      the failed sends of the batches that committed. */
  datatype Outbox = Outbox(rows: seq<OutRow>, batches: map<nat, Batch>, sent: seq<nat>, lost: seq<nat>, failed: seq<nat>)

  const EMPTY: Outbox := Outbox([], map[], [], [], [])
  const LIMIT := 10

  datatype OutMove =
    | Insert
    | Claim(pid: nat, events: seq<nat>)
    | Send(pid: nat, ok: bool)
    | Commit(pid: nat)
    | Rollback(pid: nat)

  /** MarkOutboxAsPublished, or UpdateOutboxRetry, which gives up when the attempts reach the maximum. */
  function After(row: OutRow, ok: bool, max: int): OutRow {
    if ok then row.(status := Published)
    else OutRow(if row.attempts + 1 >= max then GivenUp else row.status, row.attempts + 1)
  }

  predicate Within(rows: seq<OutRow>, events: seq<nat>) { forall i :: 0 <= i < |events| ==> events[i] < |rows| }
  predicate NoRepeats(events: seq<nat>) { forall i, j :: 0 <= i < j < |events| ==> events[i] != events[j] }

  /** The table once the first sends of a batch have been marked. */
  function Marked(rows: seq<OutRow>, claimed: seq<nat>, outcomes: seq<bool>, max: int): (r: seq<OutRow>)
    requires |outcomes| <= |claimed| && Within(rows, claimed)
    ensures |r| == |rows|
  {
    if outcomes == [] then rows
    else
      var n := |outcomes| - 1;
      var before := Marked(rows, claimed, outcomes[..n], max);
      before[claimed[n] := After(before[claimed[n]], outcomes[n], max)]
  }

  function SentBy(claimed: seq<nat>, outcomes: seq<bool>): seq<nat>
    requires |outcomes| <= |claimed|
  {
    if outcomes == [] then []
    else
      var n := |outcomes| - 1;
      SentBy(claimed, outcomes[..n]) + if outcomes[n] then [claimed[n]] else []
  }

  function FailedBy(claimed: seq<nat>, outcomes: seq<bool>): seq<nat>
    requires |outcomes| <= |claimed|
  {
    if outcomes == [] then []
    else
      var n := |outcomes| - 1;
      FailedBy(claimed, outcomes[..n]) + if outcomes[n] then [] else [claimed[n]]
  }

  predicate Locked(o: Outbox, event: nat) { exists pid :: pid in o.batches && event in o.batches[pid].claimed }

  predicate Can(o: Outbox, m: OutMove) {
    match m
    case Insert => true
    case Claim(pid, events) =>
      && pid !in o.batches && |events| <= LIMIT && Within(o.rows, events) && NoRepeats(events)
      && forall i :: 0 <= i < |events| ==> o.rows[events[i]].status == Due && !Locked(o, events[i])
    case Send(pid, _) => pid in o.batches && |o.batches[pid].outcomes| < |o.batches[pid].claimed|
    case Commit(pid) => pid in o.batches && |o.batches[pid].outcomes| == |o.batches[pid].claimed| && Within(o.rows, o.batches[pid].claimed)
    case Rollback(pid) => pid in o.batches && |o.batches[pid].outcomes| <= |o.batches[pid].claimed|
  }

  /** A send cannot be taken back by a rollback. */
  function Do(o: Outbox, m: OutMove, max: int): Outbox
    requires Can(o, m)
  {
    match m
    case Insert => o.(rows := o.rows + [OutRow(Due, 0)])
    case Claim(pid, events) => o.(batches := o.batches[pid := Batch(events, [])])
    case Send(pid, ok) =>
      var b := o.batches[pid];
      o.(batches := o.batches[pid := b.(outcomes := b.outcomes + [ok])],
         sent := o.sent + if ok then [b.claimed[|b.outcomes|]] else [])
    case Commit(pid) =>
      var b := o.batches[pid];
      o.(rows := Marked(o.rows, b.claimed, b.outcomes, max), batches := o.batches - {pid},
         failed := o.failed + FailedBy(b.claimed, b.outcomes))
    case Rollback(pid) =>
      var b := o.batches[pid];
      o.(lost := o.lost + SentBy(b.claimed, b.outcomes), batches := o.batches - {pid})
  }

  datatype Option = None | Some(value: Outbox)

  /** The state after a run, if every move of it could be made. */
  function Drained(start: Outbox, moves: seq<OutMove>, max: int): Option {
    if moves == [] then Some(start)
    else match Drained(start, moves[..|moves| - 1], max)
      case None => None
      case Some(o) => if Can(o, moves[|moves| - 1]) then Some(Do(o, moves[|moves| - 1], max)) else None
  }

  // ---------- One batch ----------

  /** The position of an event in a batch, if its send has been tried. */
  predicate TriedAt(claimed: seq<nat>, outcomes: seq<bool>, event: nat, i: nat) {
    i < |outcomes| && i < |claimed| && claimed[i] == event
  }

  /** Marking touches exactly the tried events, each once. */
  lemma {:induction false} MarkedAt(rows: seq<OutRow>, claimed: seq<nat>, outcomes: seq<bool>, max: int, k: nat)
    requires |outcomes| <= |claimed| && Within(rows, claimed) && NoRepeats(claimed) && k < |rows|
    ensures forall i: nat :: TriedAt(claimed, outcomes, k, i) ==>
              Marked(rows, claimed, outcomes, max)[k] == After(rows[k], outcomes[i], max)
    ensures (forall i: nat :: !TriedAt(claimed, outcomes, k, i)) ==> Marked(rows, claimed, outcomes, max)[k] == rows[k]
  {
    if outcomes != [] {
      var n := |outcomes| - 1;
      MarkedAt(rows, claimed, outcomes[..n], max, k);
      forall i: nat | TriedAt(claimed, outcomes, k, i)
        ensures Marked(rows, claimed, outcomes, max)[k] == After(rows[k], outcomes[i], max)
      {
        if i < n {
          assert TriedAt(claimed, outcomes[..n], k, i);
        } else {
          assert forall j: nat :: !TriedAt(claimed, outcomes[..n], k, j);
        }
      }
      if forall i: nat :: !TriedAt(claimed, outcomes, k, i) {
        assert !TriedAt(claimed, outcomes, k, n);
        forall j: nat | TriedAt(claimed, outcomes[..n], k, j) ensures false { assert TriedAt(claimed, outcomes, k, j); }
      }
    }
  }

  /** How often a batch has sent an event: once if its send was tried and succeeded, otherwise never. */
  lemma {:induction false} SentByTimes(claimed: seq<nat>, outcomes: seq<bool>, k: nat)
    requires |outcomes| <= |claimed| && NoRepeats(claimed)
    ensures forall i: nat :: TriedAt(claimed, outcomes, k, i) ==> multiset(SentBy(claimed, outcomes))[k] == if outcomes[i] then 1 else 0
    ensures (forall i: nat :: !TriedAt(claimed, outcomes, k, i)) ==> multiset(SentBy(claimed, outcomes))[k] == 0
  {
    if outcomes != [] {
      var n := |outcomes| - 1;
      SentByTimes(claimed, outcomes[..n], k);
      forall i: nat | TriedAt(claimed, outcomes, k, i)
        ensures multiset(SentBy(claimed, outcomes))[k] == if outcomes[i] then 1 else 0
      {
        if i < n {
          assert TriedAt(claimed, outcomes[..n], k, i);
        } else {
          assert forall j: nat :: !TriedAt(claimed, outcomes[..n], k, j);
        }
      }
      if forall i: nat :: !TriedAt(claimed, outcomes, k, i) {
        assert !TriedAt(claimed, outcomes, k, n);
        forall j: nat | TriedAt(claimed, outcomes[..n], k, j) ensures false { assert TriedAt(claimed, outcomes, k, j); }
      }
    }
  }

  /** Every send that was tried has either succeeded or failed. */
  lemma {:induction false} SentOrFailed(claimed: seq<nat>, outcomes: seq<bool>)
    requires |outcomes| <= |claimed|
    ensures multiset(SentBy(claimed, outcomes)) + multiset(FailedBy(claimed, outcomes)) == multiset(claimed[..|outcomes|])
  {
    if outcomes != [] {
      var n := |outcomes| - 1;
      SentOrFailed(claimed, outcomes[..n]);
      assert claimed[..n + 1] == claimed[..n] + [claimed[n]];
    }
  }

  lemma {:induction false} ClaimedOnce(claimed: seq<nat>, k: nat)
    requires NoRepeats(claimed)
    ensures multiset(claimed)[k] == if k in claimed then 1 else 0
  {
    if claimed != [] {
      var n := |claimed| - 1;
      ClaimedOnce(claimed[..n], k);
      assert claimed == claimed[..n] + [claimed[n]];
    }
  }

  // ---------- Every run ----------

  predicate BatchOk(rows: seq<OutRow>, b: Batch) {
    && |b.outcomes| <= |b.claimed| <= LIMIT && Within(rows, b.claimed) && NoRepeats(b.claimed)
    && forall i :: 0 <= i < |b.claimed| ==> rows[b.claimed[i]].status == Due
  }

  predicate Apart(a: Batch, b: Batch) { forall i, j :: 0 <= i < |a.claimed| && 0 <= j < |b.claimed| ==> a.claimed[i] != b.claimed[j] }

  ghost predicate BatchesOk(o: Outbox) {
    && (forall pid :: pid in o.batches ==> BatchOk(o.rows, o.batches[pid]))
    && (forall p, q :: p in o.batches && q in o.batches && p != q ==> Apart(o.batches[p], o.batches[q]))
  }

  /** The open batch has sent the event. */
  predicate SentIn(b: Batch, k: nat) {
    exists i: nat :: i < |b.outcomes| && TriedAt(b.claimed, b.outcomes, k, i) && b.outcomes[i]
  }

  predicate InFlight(o: Outbox, k: nat) { exists pid :: pid in o.batches && SentIn(o.batches[pid], k) }

  /** Every successful send is accounted for: by the event's status, by the open batch that made it, or
      by a rollback. */
  predicate SendsFit(o: Outbox, k: nat)
    requires k < |o.rows|
  {
    multiset(o.sent)[k] ==
    (if o.rows[k].status == Published then 1 else 0) + multiset(o.lost)[k] + (if InFlight(o, k) then 1 else 0)
  }

  /** The sends that may fail before an event is given up. */
  function Allowed(max: int): nat { if max >= 1 then max else 1 }

  /** An event that is due or published has attempts left; one that was given up has used them up. */
  predicate AttemptsFit(row: OutRow, max: int) {
    if row.status == GivenUp then row.attempts == Allowed(max) else row.attempts < Allowed(max)
  }

  /** The attempts of an event are its failed sends, of committed batches. */
  predicate FailuresFit(o: Outbox, k: nat)
    requires k < |o.rows|
  {
    o.rows[k].attempts == multiset(o.failed)[k]
  }

  ghost predicate OutboxOk(o: Outbox, max: int) {
    && BatchesOk(o)
    && (forall k :: 0 <= k < |o.rows| ==> SendsFit(o, k) && AttemptsFit(o.rows[k], max) && FailuresFit(o, k))
    && (forall k :: k in o.sent ==> k < |o.rows|) && (forall k :: k in o.lost ==> k < |o.rows|)
    && (forall k :: k in o.failed ==> k < |o.rows|)
  }

  lemma SentOnce(b: Batch, k: nat)
    requires |b.outcomes| <= |b.claimed| && NoRepeats(b.claimed)
    ensures multiset(SentBy(b.claimed, b.outcomes))[k] == if SentIn(b, k) then 1 else 0
  {
    SentByTimes(b.claimed, b.outcomes, k);
    if i: nat :| TriedAt(b.claimed, b.outcomes, k, i) {
      forall j: nat | TriedAt(b.claimed, b.outcomes, k, j) ensures j == i { }
    }
  }

  /** An event in flight is in the hands of one batch. */
  lemma InFlightSplit(o: Outbox, pid: nat, k: nat)
    requires BatchesOk(o) && pid in o.batches
    ensures var rest := o.(batches := o.batches - {pid});
            (InFlight(o, k) <==> SentIn(o.batches[pid], k) || InFlight(rest, k)) && !(SentIn(o.batches[pid], k) && InFlight(rest, k))
  {
    var rest := o.(batches := o.batches - {pid});
    forall q | q in rest.batches && SentIn(rest.batches[q], k) ensures !SentIn(o.batches[pid], k) && InFlight(o, k) {
      assert Apart(o.batches[q], o.batches[pid]);
      assert o.batches[q] == rest.batches[q];
    }
    if q :| q in o.batches && SentIn(o.batches[q], k) {
      if q != pid { assert q in rest.batches && SentIn(rest.batches[q], k); }
    }
  }

  lemma BatchesLess(o: Outbox, pid: nat)
    requires BatchesOk(o)
    ensures BatchesOk(o.(batches := o.batches - {pid}))
  {
    hide BatchOk, Apart;
  }

  lemma InsertKeeps(o: Outbox, max: int)
    requires OutboxOk(o, max)
    ensures OutboxOk(Do(o, Insert, max), max)
  {
    var o' := Do(o, Insert, max);
    forall pid | pid in o'.batches ensures BatchOk(o'.rows, o'.batches[pid]) { assert BatchOk(o.rows, o.batches[pid]); }
    forall k | 0 <= k < |o'.rows| ensures SendsFit(o', k) && FailuresFit(o', k) {
      if k < |o.rows| {
        assert SendsFit(o, k) && FailuresFit(o, k);
      } else {
        forall pid | pid in o.batches ensures !SentIn(o.batches[pid], k) { assert BatchOk(o.rows, o.batches[pid]); }
        assert k !in o.sent && k !in o.lost && k !in o.failed;
        assert !InFlight(o', k);
      }
    }
  }

  lemma NothingSentYet(o: Outbox, o': Outbox, pid: nat, events: seq<nat>, k: nat)
    requires pid !in o.batches && o'.batches == o.batches[pid := Batch(events, [])]
    ensures InFlight(o', k) <==> InFlight(o, k)
  {
    if q :| q in o.batches && SentIn(o.batches[q], k) { assert q in o'.batches && SentIn(o'.batches[q], k); }
    if q :| q in o'.batches && SentIn(o'.batches[q], k) { assert q != pid && SentIn(o.batches[q], k); }
  }

  lemma FreshApart(o: Outbox, events: seq<nat>, q: nat)
    requires q in o.batches && forall i :: 0 <= i < |events| ==> !Locked(o, events[i])
    ensures Apart(o.batches[q], Batch(events, [])) && Apart(Batch(events, []), o.batches[q])
  {
    forall i, j | 0 <= i < |events| && 0 <= j < |o.batches[q].claimed| ensures events[i] != o.batches[q].claimed[j] {
      assert !Locked(o, events[i]);
    }
  }

  lemma ClaimKeeps(o: Outbox, pid: nat, events: seq<nat>, max: int)
    requires OutboxOk(o, max) && Can(o, Claim(pid, events))
    ensures OutboxOk(Do(o, Claim(pid, events), max), max)
  {
    hide AttemptsFit;
    var o' := Do(o, Claim(pid, events), max);
    forall p, q | p in o'.batches && q in o'.batches && p != q ensures Apart(o'.batches[p], o'.batches[q]) {
      if p != pid && q != pid { assert Apart(o.batches[p], o.batches[q]); } else { FreshApart(o, events, if p == pid then q else p); }
    }
    forall k | 0 <= k < |o'.rows| ensures SendsFit(o', k) && FailuresFit(o', k) {
      assert SendsFit(o, k) && FailuresFit(o, k);
      NothingSentYet(o, o', pid, events, k);
    }
  }

  lemma NotElsewhere(o: Outbox, pid: nat, k: nat)
    requires BatchesOk(o) && pid in o.batches && k in o.batches[pid].claimed
    ensures !InFlight(o.(batches := o.batches - {pid}), k)
  {
    var rest := o.(batches := o.batches - {pid});
    forall q | q in rest.batches ensures !SentIn(rest.batches[q], k) { assert Apart(o.batches[pid], o.batches[q]); }
  }

  lemma SendCounts(b: Batch, ok: bool, k: nat)
    requires |b.outcomes| < |b.claimed| && NoRepeats(b.claimed)
    ensures SentIn(b.(outcomes := b.outcomes + [ok]), k) <==> SentIn(b, k) || (ok && k == b.claimed[|b.outcomes|])
    ensures k == b.claimed[|b.outcomes|] ==> !SentIn(b, k)
  {
    var b' := b.(outcomes := b.outcomes + [ok]);
    if SentIn(b, k) {
      var i: nat :| i < |b.outcomes| && TriedAt(b.claimed, b.outcomes, k, i) && b.outcomes[i];
      assert TriedAt(b'.claimed, b'.outcomes, k, i);
    }
    if ok && k == b.claimed[|b.outcomes|] { assert TriedAt(b'.claimed, b'.outcomes, k, |b.outcomes|); }
    if SentIn(b', k) {
      var i: nat :| i < |b'.outcomes| && TriedAt(b'.claimed, b'.outcomes, k, i) && b'.outcomes[i];
      assert i < |b.outcomes| ==> TriedAt(b.claimed, b.outcomes, k, i);
    }
  }

  lemma SendKeeps(o: Outbox, pid: nat, ok: bool, max: int)
    requires OutboxOk(o, max) && Can(o, Send(pid, ok))
    ensures OutboxOk(Do(o, Send(pid, ok), max), max)
  {
    hide AttemptsFit;
    var o', b := Do(o, Send(pid, ok), max), o.batches[pid];
    var b', event := o'.batches[pid], b.claimed[|b.outcomes|];
    assert BatchOk(o.rows, b);
    forall p | p in o'.batches ensures BatchOk(o'.rows, o'.batches[p]) { assert BatchOk(o.rows, o.batches[p]); }
    forall p, q | p in o'.batches && q in o'.batches && p != q ensures Apart(o'.batches[p], o'.batches[q]) {
      assert Apart(o.batches[p], o.batches[q]);
    }
    forall k | 0 <= k < |o'.rows| ensures SendsFit(o', k) && FailuresFit(o', k) {
      assert SendsFit(o, k) && FailuresFit(o, k);
      InFlightSplit(o, pid, k);
      InFlightSplit(o', pid, k);
      assert o'.batches - {pid} == o.batches - {pid};
      SendCounts(b, ok, k);
      if k == event { NotElsewhere(o, pid, k); }
    }
  }

  lemma {:induction false} SentByWithin(rows: seq<OutRow>, claimed: seq<nat>, outcomes: seq<bool>)
    requires |outcomes| <= |claimed| && Within(rows, claimed)
    ensures forall k :: k in SentBy(claimed, outcomes) ==> k < |rows|
  {
    if outcomes != [] { SentByWithin(rows, claimed, outcomes[..|outcomes| - 1]); }
  }

  lemma RollbackKeeps(o: Outbox, pid: nat, max: int)
    requires OutboxOk(o, max) && Can(o, Rollback(pid))
    ensures OutboxOk(Do(o, Rollback(pid), max), max)
  {
    hide AttemptsFit;
    var o', b := Do(o, Rollback(pid), max), o.batches[pid];
    BatchesLess(o, pid);
    assert BatchOk(o.rows, b);
    forall k | 0 <= k < |o'.rows| ensures SendsFit(o', k) && FailuresFit(o', k) {
      assert SendsFit(o, k) && FailuresFit(o, k);
      InFlightSplit(o, pid, k);
      SentOnce(b, k);
      assert InFlight(o', k) == InFlight(o.(batches := o.batches - {pid}), k);
    }
    SentByWithin(o.rows, b.claimed, b.outcomes);
  }

  /** What marking does to one event of the table. */
  lemma MarkedRow(rows: seq<OutRow>, b: Batch, max: int, k: nat)
    requires BatchOk(rows, b) && |b.outcomes| == |b.claimed| && k < |rows|
    ensures var row := Marked(rows, b.claimed, b.outcomes, max)[k];
            if k in b.claimed then row == After(rows[k], SentIn(b, k), max) && rows[k].status == Due else row == rows[k]
  {
    MarkedAt(rows, b.claimed, b.outcomes, max, k);
    if k in b.claimed {
      var i: nat :| i < |b.claimed| && b.claimed[i] == k;
      assert TriedAt(b.claimed, b.outcomes, k, i);
    } else {
      assert forall i: nat :: !TriedAt(b.claimed, b.outcomes, k, i);
    }
  }

  lemma AfterAttempts(row: OutRow, ok: bool, max: int)
    requires AttemptsFit(row, max) && row.status == Due
    ensures AttemptsFit(After(row, ok, max), max) && (After(row, ok, max).status == Published <==> ok)
    ensures After(row, ok, max).attempts == row.attempts + if ok then 0 else 1
  {
  }

  /** An event of a batch whose sends have all been tried has failed unless it was sent. */
  lemma FailedOnce(b: Batch, k: nat)
    requires |b.outcomes| == |b.claimed| && NoRepeats(b.claimed)
    ensures multiset(FailedBy(b.claimed, b.outcomes))[k] == if k in b.claimed && !SentIn(b, k) then 1 else 0
    ensures SentIn(b, k) ==> k in b.claimed
  {
    SentOnce(b, k);
    SentOrFailed(b.claimed, b.outcomes);
    assert b.claimed[..|b.outcomes|] == b.claimed;
    ClaimedOnce(b.claimed, k);
  }

  lemma {:induction false} FailedByWithin(rows: seq<OutRow>, claimed: seq<nat>, outcomes: seq<bool>)
    requires |outcomes| <= |claimed| && Within(rows, claimed)
    ensures forall k :: k in FailedBy(claimed, outcomes) ==> k < |rows|
  {
    if outcomes != [] { FailedByWithin(rows, claimed, outcomes[..|outcomes| - 1]); }
  }

  lemma SentClaimed(b: Batch, k: nat)
    ensures SentIn(b, k) ==> k in b.claimed
  {
  }

  lemma CommitKeeps(o: Outbox, pid: nat, max: int)
    requires OutboxOk(o, max) && Can(o, Commit(pid))
    ensures OutboxOk(Do(o, Commit(pid), max), max)
  {
    hide AttemptsFit, After, Marked, SentBy, FailedBy;
    var o', b := Do(o, Commit(pid), max), o.batches[pid];
    BatchesLess(o, pid);
    assert BatchOk(o.rows, b);
    forall p | p in o'.batches ensures BatchOk(o'.rows, o'.batches[p]) {
      assert BatchOk(o.rows, o.batches[p]) && Apart(o.batches[p], b);
      forall i | 0 <= i < |o.batches[p].claimed| ensures o'.rows[o.batches[p].claimed[i]].status == Due {
        MarkedRow(o.rows, b, max, o.batches[p].claimed[i]);
      }
    }
    forall k | 0 <= k < |o'.rows| ensures SendsFit(o', k) && AttemptsFit(o'.rows[k], max) && FailuresFit(o', k) {
      assert SendsFit(o, k) && AttemptsFit(o.rows[k], max) && FailuresFit(o, k);
      InFlightSplit(o, pid, k);
      MarkedRow(o.rows, b, max, k);
      SentClaimed(b, k);
      FailedOnce(b, k);
      if k in b.claimed { AfterAttempts(o.rows[k], SentIn(b, k), max); }
      assert InFlight(o', k) == InFlight(o.(batches := o.batches - {pid}), k);
    }
    FailedByWithin(o.rows, b.claimed, b.outcomes);
  }

  lemma MoveKeeps(o: Outbox, m: OutMove, max: int)
    requires OutboxOk(o, max) && Can(o, m)
    ensures OutboxOk(Do(o, m, max), max)
  {
    hide OutboxOk, Do;
    match m {
      case Insert => InsertKeeps(o, max);
      case Claim(pid, events) => ClaimKeeps(o, pid, events, max);
      case Send(pid, ok) => SendKeeps(o, pid, ok, max);
      case Commit(pid) => CommitKeeps(o, pid, max);
      case Rollback(pid) => RollbackKeeps(o, pid, max);
    }
  }

  /** In every run open batches share no event, every successful send is accounted for, and an event
      that is due has attempts left. */
  lemma {:induction false} EveryRunDrains(moves: seq<OutMove>, max: int)
    requires Drained(EMPTY, moves, max).Some?
    ensures OutboxOk(Drained(EMPTY, moves, max).value, max)
  {
    if moves == [] {
    } else {
      hide OutboxOk, Can, Do;
      EveryRunDrains(moves[..|moves| - 1], max);
      MoveKeeps(Drained(EMPTY, moves[..|moves| - 1], max).value, moves[|moves| - 1], max);
    }
  }

  // ---------- Consequences ----------

  /** PUBLISHED events have been sent; and an event is sent once more than it should be only if a batch
      that had sent it rolled back. */
  lemma SendsOfEvent(o: Outbox, max: int, k: nat)
    requires OutboxOk(o, max) && k < |o.rows|
    ensures o.rows[k].status == Published ==> k in o.sent
    ensures multiset(o.sent)[k] <= 1 + multiset(o.lost)[k]
    ensures o.lost == [] && o.batches == map[] ==> multiset(o.sent)[k] == if o.rows[k].status == Published then 1 else 0
  {
    assert SendsFit(o, k);
    if InFlight(o, k) {
      var pid :| pid in o.batches && SentIn(o.batches[pid], k);
      assert BatchOk(o.rows, o.batches[pid]);
    }
  }

  /** In every run an event is given up when so many of its sends have failed as the configuration allows, and
      not before: FAILED if and only if that many sends, of committed batches, have failed; fewer for
      any other. */
  lemma GivenUpWhen(moves: seq<OutMove>, max: int, k: nat)
    requires Drained(EMPTY, moves, max).Some? && k < |Drained(EMPTY, moves, max).value.rows|
    ensures var o := Drained(EMPTY, moves, max).value;
            var failures, allowed := multiset(o.failed)[k], if max >= 1 then max else 1;
            o.rows[k].attempts == failures <= allowed && (o.rows[k].status == GivenUp <==> failures == allowed)
  {
    hide BatchesOk;
    EveryRunDrains(moves, max);
    var o := Drained(EMPTY, moves, max).value;
    assert AttemptsFit(o.rows[k], max) && FailuresFit(o, k);
  }

  lemma SentAt(b: Batch, i: nat)
    requires i < |b.claimed| == |b.outcomes| && NoRepeats(b.claimed)
    ensures SentIn(b, b.claimed[i]) <==> b.outcomes[i]
  {
    assert TriedAt(b.claimed, b.outcomes, b.claimed[i], i);
    if SentIn(b, b.claimed[i]) {
      var j: nat :| j < |b.outcomes| && TriedAt(b.claimed, b.outcomes, b.claimed[i], j) && b.outcomes[j];
    }
  }

  lemma FailedAt(b: Batch, i: nat)
    requires i < |b.claimed| == |b.outcomes| && NoRepeats(b.claimed)
    ensures multiset(FailedBy(b.claimed, b.outcomes))[b.claimed[i]] == if b.outcomes[i] then 0 else 1
  {
    hide SentIn, FailedBy;
    SentAt(b, i);
    FailedOnce(b, b.claimed[i]);
  }

  /** What a batch that commits adds to the failures is exactly those of its sends that failed. */
  lemma FailuresOfBatch(o: Outbox, pid: nat, max: int)
    requires OutboxOk(o, max) && Can(o, Commit(pid))
    ensures var b, o' := o.batches[pid], Do(o, Commit(pid), max);
            && |b.outcomes| == |b.claimed|
            && (forall i :: 0 <= i < |b.claimed| ==>
                  multiset(o'.failed)[b.claimed[i]] == multiset(o.failed)[b.claimed[i]] + if b.outcomes[i] then 0 else 1)
            && (forall k :: k !in b.claimed ==> multiset(o'.failed)[k] == multiset(o.failed)[k])
  {
    hide FailedBy, Marked, SentIn, SendsFit, AttemptsFit, FailuresFit;
    var b := o.batches[pid];
    assert BatchOk(o.rows, b);
    forall i: nat | i < |b.claimed|
      ensures multiset(FailedBy(b.claimed, b.outcomes))[b.claimed[i]] == if b.outcomes[i] then 0 else 1
    {
      FailedAt(b, i);
    }
    forall k: nat | k !in b.claimed ensures multiset(FailedBy(b.claimed, b.outcomes))[k] == 0 { FailedOnce(b, k); }
  }

  /** PUBLISHED and FAILED are final, and no event is ever lost. */
  lemma FinalStates(o: Outbox, m: OutMove, max: int, k: nat)
    requires OutboxOk(o, max) && Can(o, m) && k < |o.rows| && o.rows[k].status != Due
    ensures k < |Do(o, m, max).rows| && Do(o, m, max).rows[k] == o.rows[k]
  {
    if m.Commit? {
      assert BatchOk(o.rows, o.batches[m.pid]);
      MarkedRow(o.rows, o.batches[m.pid], max, k);
    }
  }

  function Left(row: OutRow, max: int): nat { if row.status == Due && row.attempts < max then max - row.attempts else 0 }

  /** The attempts that are left. */
  function Budget(rows: seq<OutRow>, max: int): nat {
    if rows == [] then 0 else Budget(rows[..|rows| - 1], max) + Left(rows[|rows| - 1], max)
  }

  lemma {:induction false} BudgetUpdate(rows: seq<OutRow>, max: int, k: nat, row: OutRow)
    requires k < |rows|
    ensures Budget(rows[k := row], max) - Left(row, max) == Budget(rows, max) - Left(rows[k], max)
  {
    var n := |rows| - 1;
    if k < n {
      BudgetUpdate(rows[..n], max, k, row);
      assert rows[k := row][..n] == rows[..n][k := row];
    } else {
      assert rows[k := row][..n] == rows[..n];
    }
  }

  lemma {:induction false} MarkingBurns(rows: seq<OutRow>, claimed: seq<nat>, outcomes: seq<bool>, max: int)
    requires |outcomes| <= |claimed| && Within(rows, claimed) && NoRepeats(claimed)
    requires forall i :: 0 <= i < |claimed| ==> rows[claimed[i]].status == Due && rows[claimed[i]].attempts < max
    ensures Budget(Marked(rows, claimed, outcomes, max), max) + |outcomes| <= Budget(rows, max)
  {
    if outcomes != [] {
      var n := |outcomes| - 1;
      var before := Marked(rows, claimed, outcomes[..n], max);
      MarkingBurns(rows, claimed, outcomes[..n], max);
      MarkedAt(rows, claimed, outcomes[..n], max, claimed[n]);
      assert forall i: nat :: !TriedAt(claimed, outcomes[..n], claimed[n], i);
      BudgetUpdate(before, max, claimed[n], After(before[claimed[n]], outcomes[n], max));
    }
  }

  /** Each send of a batch that commits, failed or not, uses up an attempt: a run in which no event is
      added and no batch rolls back commits only so many sends. */
  lemma CommitBurns(o: Outbox, pid: nat, max: int)
    requires OutboxOk(o, max) && Can(o, Commit(pid)) && max >= 1
    ensures Budget(Do(o, Commit(pid), max).rows, max) + |o.batches[pid].claimed| <= Budget(o.rows, max)
  {
    var b := o.batches[pid];
    assert BatchOk(o.rows, b);
    forall i | 0 <= i < |b.claimed| ensures o.rows[b.claimed[i]].attempts < max { assert AttemptsFit(o.rows[b.claimed[i]], max); }
    MarkingBurns(o.rows, b.claimed, b.outcomes, max);
  }
}
