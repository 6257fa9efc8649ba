/** One batch of the outbox worker, event by event (internal/infrastructure/transport/outbox_worker.go). */
module OutboxWorker {
  import opened Outbox

  class Publisher {
    const max: int
    var rows: seq<OutRow>
    var sent: seq<nat>

    constructor (rows: seq<OutRow>, max: int)
      ensures this.rows == rows && sent == [] && this.max == max
    {
      this.max, this.rows, this.sent := max, rows, [];
    }

    /** The events that are still due and not locked by another publisher, longest due first, up to ten: `at`
        are their places in `order`, which lists the events whose time has come, longest first. */
    method FindPendingOutboxEvents(order: seq<nat>, locked: set<nat>) returns (events: seq<nat>, ghost at: seq<nat>)
      requires Within(rows, order) && NoRepeats(order)
      ensures Within(rows, events) && NoRepeats(events)
      ensures |events| <= 10
      ensures forall k :: k in events ==> k in order && rows[k].status == Due && k !in locked
      ensures forall k :: k in order && rows[k].status == Due && k !in locked ==> k in events || |events| == 10
      ensures |at| == |events| && (forall i, j :: 0 <= i < j < |at| ==> at[i] < at[j])
      ensures forall i :: 0 <= i < |events| ==>
                at[i] < |order| && events[i] == order[at[i]] && rows[events[i]].status == Due && events[i] !in locked
      ensures forall k :: 0 <= k < |order| && rows[order[k]].status == Due && order[k] !in locked ==>
                k in at || (|events| == 10 && forall i :: 0 <= i < |at| ==> at[i] < k)
    {
      events, at := [], [];
      for n := 0 to |order|
        invariant Within(rows, events) && NoRepeats(events)
        invariant |at| == |events| <= 10 && (forall i, j :: 0 <= i < j < |at| ==> at[i] < at[j])
        invariant forall i :: 0 <= i < |events| ==>
                    at[i] < n && events[i] == order[at[i]] && rows[events[i]].status == Due && events[i] !in locked
        invariant forall k :: 0 <= k < n && rows[order[k]].status == Due && order[k] !in locked ==>
                    k in at || (|events| == 10 && forall i :: 0 <= i < |at| ==> at[i] < k)
      {
        if rows[order[n]].status == Due && order[n] !in locked && |events| < LIMIT { events, at := events + [order[n]], at + [n]; }
      }
    }

    /** `events` is the batch the transaction has locked, `delivers[i]` says whether the queue accepts the
        i-th event, and `breaks` is the number of the event whose UPDATE fails, if any does. When one
        does, the transaction rolls back, but what was sent stays sent. */
    method Publish(events: seq<nat>, delivers: seq<bool>, breaks: nat) returns (ok: bool)
      requires Within(rows, events) && NoRepeats(events) && |delivers| == |events|
      modifies this`rows, this`sent
      ensures ok == (breaks >= |events|) && |rows| == |old(rows)|
      ensures ok ==> forall i :: 0 <= i < |events| ==>
                var row, row' := old(rows)[events[i]], rows[events[i]];
                && row'.attempts == row.attempts + (if delivers[i] then 0 else 1)
                && row'.status == if delivers[i] then Published else if row'.attempts >= max then GivenUp else row.status
      ensures ok ==> forall k :: 0 <= k < |rows| && k !in events ==> rows[k] == old(rows)[k]
      ensures ok ==> rows == Marked(old(rows), events, delivers, max) && sent == old(sent) + SentBy(events, delivers)
      ensures !ok ==> rows == old(rows) && sent == old(sent) + SentBy(events, delivers[..breaks + 1])
    {
      var work := rows;
      assert delivers[..0] == [] && old(sent) + [] == sent;
      for i := 0 to |events|
        invariant breaks >= i && rows == old(rows)
        invariant work == Marked(rows, events, delivers[..i], max)
        invariant sent == old(sent) + SentBy(events, delivers[..i])
      {
        assert delivers[..i + 1][..i] == delivers[..i];
        if delivers[i] { sent := sent + [events[i]]; }
        assert sent == old(sent) + SentBy(events, delivers[..i + 1]);
        if breaks == i { return false; }
        var row := work[events[i]];
        if delivers[i] {
          work := work[events[i] := row.(status := Published)];
        } else {
          work := work[events[i] := OutRow(if row.attempts + 1 >= max then GivenUp else row.status, row.attempts + 1)];
        }
      }
      assert delivers[..|events|] == delivers;
      forall k | 0 <= k < |rows| ensures k !in events ==> work[k] == rows[k] { MarkedAt(rows, events, delivers, max, k); }
      forall i: nat | i < |events| ensures work[events[i]] == After(rows[events[i]], delivers[i], max) {
        MarkedAt(rows, events, delivers, max, events[i]);
        assert TriedAt(events, delivers, events[i], i);
      }
      rows := work;
      return true;
    }

    /** The whole batch. It claims what the protocol lets it claim, and publishes that; `accepts` says
        which events the queue accepts. */
    method ProcessPendingEvents(order: seq<nat>, locked: set<nat>, accepts: nat -> bool, breaks: nat)
      returns (events: seq<nat>, ok: bool, ghost at: seq<nat>)
      requires Within(rows, order) && NoRepeats(order)
      modifies this`rows, this`sent
      ensures Within(old(rows), events) && NoRepeats(events) && ok == (breaks >= |events|) && |rows| == |old(rows)|
      ensures |events| <= 10
      ensures forall k :: k in events ==> k in order && old(rows)[k].status == Due && k !in locked
      ensures forall k :: k in order && old(rows)[k].status == Due && k !in locked ==> k in events || |events| == 10
      ensures |at| == |events| && (forall i, j :: 0 <= i < j < |at| ==> at[i] < at[j])
      ensures forall i :: 0 <= i < |events| ==>
                at[i] < |order| && events[i] == order[at[i]] && old(rows)[events[i]].status == Due && events[i] !in locked
      ensures forall k :: 0 <= k < |order| && old(rows)[order[k]].status == Due && order[k] !in locked ==>
                k in at || (|events| == 10 && forall i :: 0 <= i < |at| ==> at[i] < k)
      ensures var outcomes := seq(|events|, i requires 0 <= i < |events| => accepts(events[i]));
              if ok then rows == Marked(old(rows), events, outcomes, max) && sent == old(sent) + SentBy(events, outcomes)
              else rows == old(rows) && sent == old(sent) + SentBy(events, outcomes[..breaks + 1])
      ensures ok ==> forall i :: 0 <= i < |events| ==>
                var row, row' := old(rows)[events[i]], rows[events[i]];
                && row'.attempts == row.attempts + (if accepts(events[i]) then 0 else 1)
                && row'.status == if accepts(events[i]) then Published else if row'.attempts >= max then GivenUp else Due
      ensures forall k :: 0 <= k < |rows| && k !in events ==> rows[k] == old(rows)[k]
    {
      events, at := FindPendingOutboxEvents(order, locked);
      ok := Publish(events, seq(|events|, i requires 0 <= i < |events| => accepts(events[i])), breaks);
    }
  }

  function Sends(pid: nat, outcomes: seq<bool>): seq<OutMove> {
    if outcomes == [] then [] else Sends(pid, outcomes[..|outcomes| - 1]) + [Send(pid, outcomes[|outcomes| - 1])]
  }

  lemma DrainedSnoc(o: Outbox, moves: seq<OutMove>, m: OutMove, max: int)
    requires Drained(o, moves, max).Some? && Can(Drained(o, moves, max).value, m)
    ensures Drained(o, moves + [m], max) == Option.Some(Do(Drained(o, moves, max).value, m, max))
  {
    assert (moves + [m])[..|moves + [m]| - 1] == moves;
  }

  /** The batch open, with these sends done. */
  function Opened(o: Outbox, pid: nat, events: seq<nat>, outcomes: seq<bool>): Outbox
    requires |outcomes| <= |events|
  {
    o.(batches := o.batches[pid := Batch(events, outcomes)], sent := o.sent + SentBy(events, outcomes))
  }

  lemma ClaimOpens(o: Outbox, pid: nat, events: seq<nat>, max: int)
    requires Can(o, Claim(pid, events))
    ensures Do(o, Claim(pid, events), max) == Opened(o, pid, events, [])
  {
  }

  lemma SendStep(o: Outbox, pid: nat, events: seq<nat>, outcomes: seq<bool>, max: int)
    requires outcomes != [] && |outcomes| <= |events|
    ensures var n := |outcomes| - 1;
            var before := Opened(o, pid, events, outcomes[..n]);
            Can(before, Send(pid, outcomes[n])) && Do(before, Send(pid, outcomes[n]), max) == Opened(o, pid, events, outcomes)
  {
    var n := |outcomes| - 1;
    assert outcomes[..n] + [outcomes[n]] == outcomes;
    assert o.batches[pid := Batch(events, outcomes[..n])][pid := Batch(events, outcomes)] == o.batches[pid := Batch(events, outcomes)];
    var more := if outcomes[n] then [events[n]] else [];
    assert o.sent + SentBy(events, outcomes[..n]) + more == o.sent + (SentBy(events, outcomes[..n]) + more);
  }

  lemma {:induction false} OpenBatch(o: Outbox, pid: nat, events: seq<nat>, outcomes: seq<bool>, max: int)
    requires Can(o, Claim(pid, events)) && |outcomes| <= |events|
    ensures Drained(o, [Claim(pid, events)] + Sends(pid, outcomes), max) == Option.Some(Opened(o, pid, events, outcomes))
  {
    hide Can, Do, SentBy, Opened;
    var first := [Claim(pid, events)];
    if outcomes == [] {
      ClaimOpens(o, pid, events, max);
      DrainedSnoc(o, [], Claim(pid, events), max);
      assert first + [] == [] + first;
    } else {
      hide Drained;
      var n := |outcomes| - 1;
      OpenBatch(o, pid, events, outcomes[..n], max);
      SendStep(o, pid, events, outcomes, max);
      DrainedSnoc(o, first + Sends(pid, outcomes[..n]), Send(pid, outcomes[n]), max);
      assert first + Sends(pid, outcomes) == first + Sends(pid, outcomes[..n]) + [Send(pid, outcomes[n])];
    }
  }

  /** The loop is a run of the protocol: claim, one send after another, commit. */
  lemma BatchIsARun(o: Outbox, pid: nat, events: seq<nat>, outcomes: seq<bool>, max: int)
    requires Can(o, Claim(pid, events)) && |outcomes| == |events|
    ensures Drained(o, [Claim(pid, events)] + Sends(pid, outcomes) + [Commit(pid)], max) ==
            Option.Some(o.(rows := Marked(o.rows, events, outcomes, max), sent := o.sent + SentBy(events, outcomes),
                           failed := o.failed + FailedBy(events, outcomes)))
  {
    OpenBatch(o, pid, events, outcomes, max);
    var moves := [Claim(pid, events)] + Sends(pid, outcomes);
    assert Within(o.rows, events) && pid !in o.batches;
    DrainedSnoc(o, moves, Commit(pid), max);
    assert o.batches[pid := Batch(events, outcomes)] - {pid} == o.batches;
  }
}
