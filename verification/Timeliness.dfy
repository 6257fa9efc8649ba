/** What a caller can be sure of that has waited for an earlier answer. */
module Timeliness {
  import opened Records
  import opened Tables
  import opened Steps
  import opened Invariants
  import opened Evolution
  import opened Interleaving
  import opened Refinement
  import opened Histories
  import opened Slack
  import opened SameWallet
  import opened Answers

  /** The state in which the unlocked read was made. */
  lemma ReadAt(s: Sys, i: nat) returns (at: nat)
    requires SysOk(s) && i < |s.log| && i + 1 < |s.hist| && s.log[i].prog.Submit? && IsReversal(s.log[i].prog.t.kind)
    requires s.log[i].basis.Decided?
    ensures s.log[i].since <= at <= i && FindByExternalId(s.hist[at], RefOf(s.log[i].prog.t)) == s.log[i].basis.read
  {
    hide SysOk, FindByExternalId;
    LogRead(s, i);
    at := s.log[i].basis.at;
    assert s.hist[..i + 1][at] == s.hist[at];
  }

  /** In every run a new reversal whose reference was on record when its transaction began is undisturbed,
      on whatever wallet: whoever has seen the reference answered can rely on it. */
  lemma KnownReferenceIsNeverStale(s: Sys, i: nat)
    requires SysOk(s) && i < |s.log| && i + 1 < |s.hist| && s.log[i].prog.Submit? && IsReversal(s.log[i].prog.t.kind)
    requires s.log[i].basis.Decided? && s.log[i].since < |s.hist|
    requires FindByExternalId(s.hist[s.log[i].since], RefOf(s.log[i].prog.t)).Some?
    ensures Undisturbed(s.hist[i], s.log[i], s.hist[i + 1])
  {
    hide SysOk, Inv, InboxOk, Atomic, Undisturbed, ValidProgram, FindByExternalId, Timely;
    var at := ReadAt(s, i);
    ExternalIdBound(s, s.log[i].since, at, RefOf(s.log[i].prog.t));
    StateOk(s, i);
    LogStep(s, i);
    UndisturbedWhen(s.hist[i], s.log[i], s.hist[i + 1]);
    ReadPaid(s.hist[i], s.log[i], s.hist[i + 1]);
  }

  /** A row that was terminal when it was read is the row that would be read now. */
  lemma TerminalReadIsTimely(db: Db, op: Op, db': Db)
    requires Inv(db) && ValidProgram(op.prog) && Atomic(db, op, db') && op.prog.Submit? && op.basis.Answered?
    requires op.basis.read.Some? && Terminal(op.basis.read.value.status)
    ensures Timely(db, op)
  {
    hide Inv, WagerStep, Existing, FindByExternalId, IsNew;
  }

  /** In every run a replay that has read a settled row is answered as if nothing else were running. */
  lemma SettledRowIsNeverAnsweredStale(s: Sys, i: nat)
    requires SysOk(s) && i < |s.log| && i + 1 < |s.hist| && s.log[i].prog.Submit? && s.log[i].basis.Answered?
    requires s.log[i].basis.read.Some? && Terminal(s.log[i].basis.read.value.status)
    ensures Undisturbed(s.hist[i], s.log[i], s.hist[i + 1])
  {
    hide SysOk, Inv, InboxOk, Atomic, Undisturbed, ValidProgram, FindByExternalId, Timely;
    StateOk(s, i);
    LogStep(s, i);
    UndisturbedWhen(s.hist[i], s.log[i], s.hist[i + 1]);
    TerminalReadIsTimely(s.hist[i], s.log[i], s.hist[i + 1]);
  }

  /** So whoever has once been told that a transaction is settled is never told an older status by a replay
      that begins later: it is enough that the row was settled when the replay began. */
  lemma KnownSettlementIsNeverAnsweredStale(s: Sys, i: nat)
    requires SysOk(s) && i < |s.log| && i + 1 < |s.hist| && s.log[i].prog.Submit? && s.log[i].basis.Answered?
    requires s.log[i].basis.read.Some? && s.log[i].since < |s.hist|
    requires var row := FindByExternalId(s.hist[s.log[i].since], ExtOf(s.log[i].prog.t)); row.Some? && Terminal(row.value.status)
    ensures Undisturbed(s.hist[i], s.log[i], s.hist[i + 1])
  {
    hide SysOk, Inv, InboxOk, Atomic, Undisturbed, ValidProgram, FindByExternalId, Timely;
    var key, since := ExtOf(s.log[i].prog.t), s.log[i].since;
    var at := AnsweredAt(s, i);
    StateOk(s, i);
    LogStep(s, i);
    AnsweredExt(s.hist[i], s.log[i], s.hist[i + 1]);
    StateOk(s, since);
    StateOk(s, at);
    InvKeys(s.hist[since]);
    InvKeys(s.hist[at]);
    ExternalIdLookup(s.hist[since], key);
    ExternalIdLookup(s.hist[at], key);
    var row := FindByExternalId(s.hist[since], key).value;
    TerminalForever(s, since, at, row.id);
    SettledRowIsNeverAnsweredStale(s, i);
  }
}
