/** A transaction that nothing disturbs: its statements, executed one after another, end in exactly the
    atomic step, with the same answer or the same error. */
module Solo {
  import opened Amounts
  import opened Records
  import opened Tables
  import opened Steps
  import opened Invariants
  import opened Preservation
  import opened Evolution
  import opened Interleaving

  datatype Outcome = Unfinished | Failed(error: Error) | Committed(db: Db, basis: Basis)

  /** What the next `n` statements come to. */
  function Alone(now: nat, db: Db, p: Proc, n: nat): Outcome
    decreases n
  {
    if n == 0 then Unfinished
    else match Exec(now, db, p)
      case Go(p') => Alone(now, db, p', n - 1)
      case Fail(e) => Outcome.Failed(e)
      case Commit => if p.pc.Ready? then Committed(View(db, p), p.pc.basis) else Unfinished
  }

  lemma GoesOn(now: nat, db: Db, p: Proc, n: nat)
    requires n > 0 && Exec(now, db, p).Go?
    ensures Alone(now, db, p, n) == Alone(now, db, Exec(now, db, p).p, n - 1)
  {
    hide Exec;
  }

  lemma Ends(now: nat, db: Db, p: Proc, n: nat)
    requires n > 0 && p.pc.Ready?
    ensures Alone(now, db, p, n) == Committed(View(db, p), p.pc.basis)
  {
  }

  // ---------- Writes ----------

  /** A write whose keys are free claims them one by one and executes, or fails its check. */
  lemma {:induction false} ClaimsKeys(now: nat, db: Db, p: Proc, n: nat) returns (p': Proc)
    requires p.pc.Writing? && p.pc.todo != [] && p.pc.stage <= |KeysOf(p.pc.todo[0])|
    requires n >= |KeysOf(p.pc.todo[0])| - p.pc.stage
    requires forall k :: p.pc.stage <= k < |KeysOf(p.pc.todo[0])| ==> !Taken(View(db, p), KeysOf(p.pc.todo[0])[k])
    ensures p'.prog == p.prog && p'.done == p.done && p'.pc == p.pc.(stage := |KeysOf(p.pc.todo[0])|)
    ensures Alone(now, db, p, n) == Alone(now, db, p', n - (|KeysOf(p.pc.todo[0])| - p.pc.stage))
    decreases |KeysOf(p.pc.todo[0])| - p.pc.stage
  {
    hide Taken, KeysOf, Check, Apply, Run;
    if p.pc.stage == |KeysOf(p.pc.todo[0])| {
      p' := p;
    } else {
      GoesOn(now, db, p, n);
      p' := ClaimsKeys(now, db, Exec(now, db, p).p, n - 1);
    }
  }

  /** The statement itself. */
  lemma Executes(now: nat, db: Db, p: Proc, n: nat)
    requires Run(db, p.done).Ok? && n > 0
    requires p.pc.Writing? && p.pc.todo != [] && p.pc.stage == |KeysOf(p.pc.todo[0])|
    ensures match Check(View(db, p), p.pc.todo[0])
            case Some(e) => Alone(now, db, p, n) == Outcome.Failed(e)
            case None =>
              var p' := p.(done := p.done + [p.pc.todo[0]], pc := Writing(0, p.pc.todo[1..], p.pc.basis));
              Alone(now, db, p, n) == Alone(now, db, p', n - 1)
              && Run(db, p'.done) == Ok(Apply(View(db, p), p.pc.todo[0])) && View(db, p') == Apply(View(db, p), p.pc.todo[0])
  {
    hide Taken, KeysOf, Check, Apply, Run;
    RunSnoc(db, p.done, p.pc.todo[0]);
  }

  /** Writes that claim no keys run like a list of statements. */
  lemma {:induction false} WritesRun(now: nat, db: Db, p: Proc, n: nat)
    requires Run(db, p.done).Ok? && p.pc.Writing? && p.pc.stage == 0
    requires forall k :: 0 <= k < |p.pc.todo| ==> KeysOf(p.pc.todo[k]) == []
    requires n >= |p.pc.todo| + 2
    ensures match Run(View(db, p), p.pc.todo)
            case Err(e) => Alone(now, db, p, n) == Outcome.Failed(e)
            case Ok(d) => Alone(now, db, p, n) == Committed(d, p.pc.basis)
    decreases |p.pc.todo|
  {
    hide Taken, KeysOf, Check, Apply, Run, Alone;
    var todo, view := p.pc.todo, View(db, p);
    if todo == [] {
      GoesOn(now, db, p, n);
      Ends(now, db, Exec(now, db, p).p, n - 1);
      RunNothing(view);
    } else {
      Executes(now, db, p, n);
      RunCons(view, todo[0], todo[1..]);
      assert [todo[0]] + todo[1..] == todo;
      if Check(view, todo[0]).None? {
        WritesRun(now, db, p.(done := p.done + [todo[0]], pc := Writing(0, todo[1..], p.pc.basis)), n - 1);
      }
    }
  }

  lemma NoKeys(ws: seq<Write>)
    requires forall k :: 0 <= k < |ws| ==> ws[k].UpdWallet? || ws[k].InsEntry? || ws[k].InsEvent? || ws[k].UpdTx?
    ensures forall k :: 0 <= k < |ws| ==> KeysOf(ws[k]) == []
  {
  }

  /** A write with free keys, followed by writes without any. */
  lemma InsertRuns(now: nat, db: Db, p: Proc, n: nat)
    requires Run(db, p.done).Ok? && p.pc.Writing? && p.pc.stage == 0 && p.pc.todo != []
    requires forall k :: 0 <= k < |KeysOf(p.pc.todo[0])| ==> !Taken(View(db, p), KeysOf(p.pc.todo[0])[k])
    requires forall k :: 0 < k < |p.pc.todo| ==> KeysOf(p.pc.todo[k]) == []
    requires n >= |KeysOf(p.pc.todo[0])| + |p.pc.todo| + 2
    ensures match Run(View(db, p), p.pc.todo)
            case Err(e) => Alone(now, db, p, n) == Outcome.Failed(e)
            case Ok(d) => Alone(now, db, p, n) == Committed(d, p.pc.basis)
  {
    hide Taken, KeysOf, Check, Apply, Run, Alone;
    var todo, view := p.pc.todo, View(db, p);
    var p' := ClaimsKeys(now, db, p, n);
    var m := n - |KeysOf(todo[0])|;
    Executes(now, db, p', m);
    RunCons(view, todo[0], todo[1..]);
    assert [todo[0]] + todo[1..] == todo;
    if Check(view, todo[0]).None? {
      WritesRun(now, db, p'.(done := p'.done + [todo[0]], pc := Writing(0, todo[1..], p.pc.basis)), m - 1);
    }
  }

  // ---------- A submission ----------

  function Begun(prog: Program, since: nat): Proc { Proc(prog, StartPc(prog), {}, [], since) }

  /** The answer that the basis of a commit carries. */
  predicate Answers(o: Outcome, db: Db, out: Output) {
    o.Committed? && o.db == db && (o.basis.Answered? || o.basis.Decided?) && o.basis.out == out
  }

  predicate SameAsStep(o: Outcome, r: Result<(Db, Output), Error>) {
    match r case Ok((d, out)) => Answers(o, d, out) case Err(e) => o == Outcome.Failed(e)
  }

  /** The last statement of a replay. */
  lemma LockAlone(now: nat, db: Db, p: Proc, row: TxRow, n: nat)
    requires n >= 2 && p.prog.Submit? && Run(db, p.done).Ok?
    requires p.pc.DupLock? || p.pc.ReplayLock?
    requires row == if p.pc.DupLock? then (if p.pc.found.Some? then p.pc.found.value else p.prog.t) else p.pc.row
    ensures match AnswerFrom(View(db, p), row)
            case Err(e) => Alone(now, db, p, n) == Outcome.Failed(e)
            case Ok(out) => Answers(Alone(now, db, p, n), View(db, p), out)
  {
    hide Run;
    if AnswerFrom(View(db, p), row).Ok? {
      GoesOn(now, db, p, n);
      Ends(now, db, Exec(now, db, p).p, n - 1);
    }
  }

  lemma RepeatAlone(now: nat, db: Db, t: TxRow, claim: Claim, n: nat)
    requires MessageOf(claim) in db.inbox && n >= 4
    ensures SameAsStep(Alone(now, db, Begun(Submit(t, Some(claim)), now), n), Wager(db, t, Some(claim)))
  {
    hide FindByExternalId, AnswerFrom, Alone;
    var p := Begun(Submit(t, Some(claim)), now);
    RunNothing(db);
    GoesOn(now, db, p, n);
    var p1 := Exec(now, db, p).p;
    GoesOn(now, db, p1, n - 1);
    var p2 := Exec(now, db, p1).p;
    LockAlone(now, db, p2, if p2.pc.found.Some? then p2.pc.found.value else t, n - 2);
  }

  /** The claim of a new message, if there is one. */
  lemma InboxAlone(now: nat, db: Db, t: TxRow, inbox: Option<Claim>, n: nat) returns (p: Proc)
    requires (inbox.Some? ==> MessageOf(inbox.value) !in db.inbox) && n >= 1
    ensures p.prog == Submit(t, inbox) && p.pc == LookExt(false) && p.done == InboxWrites(inbox) && p.since == now
    ensures Run(db, p.done) == Ok(WithInbox(db, inbox)) && View(db, p) == WithInbox(db, inbox)
    ensures Alone(now, db, Begun(Submit(t, inbox), now), n) == Alone(now, db, p, n - 1)
  {
    hide Alone;
    RunNothing(db);
    RunInbox(db, inbox, []);
    var p0 := Begun(Submit(t, inbox), now);
    GoesOn(now, db, p0, n);
    p := Exec(now, db, p0).p;
  }

  lemma FailsNow(now: nat, db: Db, p: Proc, n: nat)
    requires n > 0 && Exec(now, db, p).Fail?
    ensures Alone(now, db, p, n) == Outcome.Failed(Exec(now, db, p).error)
  {
    hide Exec;
  }

  /** The two lookups. */
  lemma LookupAlone(now: nat, db: Db, p: Proc, n: nat) returns (p': Proc)
    requires p.prog.Submit? && p.pc.LookExt? && Run(db, p.done).Ok? && n >= 2
    ensures p'.prog == p.prog && p'.done == p.done
    ensures var t, o := p.prog.t, Alone(now, db, p, n);
            match Existing(View(db, p), t)
            case Clash => o == Outcome.Failed(Conflict)
            case Same(row) =>
              p'.pc.ReplayLock? && p'.pc.row == row && (o == Alone(now, db, p', n - 1) || o == Alone(now, db, p', n - 2))
            case Absent =>
              if p.pc.again then o == Outcome.Failed(Conflict)
              else p'.pc == LockWallet && o == Alone(now, db, p', n - 2)
  {
    hide Run, FindByExternalId, FindByIdempotencyKey, Alone;
    p' := p;
    match Exec(now, db, p) {
      case Go(p1) =>
        p' := p1;
        GoesOn(now, db, p, n);
        if p1.pc.LookKey? {
          match Exec(now, db, p1) {
            case Go(p2) => p' := p2; GoesOn(now, db, p1, n - 1);
            case Fail(_) => FailsNow(now, db, p1, n - 1);
            case Commit =>
          }
        }
      case Fail(_) => FailsNow(now, db, p, n);
      case Commit =>
    }
  }

  lemma KeysFreeFor(db: Db, inbox: Option<Claim>, t: TxRow)
    requires KeysOk(db) && Existing(db, t).Absent?
    ensures var view := WithInbox(db, inbox);
            && !Taken(view, TxExt(ExtOf(t))) && !Taken(view, TxKey(t.idemKey)) && (Taken(view, TxId(t.id)) <==> t.id in db.txs)
            && Existing(view, t).Absent?
  {
  }

  lemma NoDuplicate(db: Db, w: Write)
    requires KeysOf(w) == []
    ensures Check(db, w) != Some(DuplicateTransaction)
  {
  }

  lemma {:induction false} NoDuplicates(db: Db, ws: seq<Write>)
    requires forall k :: 0 <= k < |ws| ==> KeysOf(ws[k]) == []
    ensures Run(db, ws) != Err(DuplicateTransaction)
  {
    hide Check, Apply, KeysOf;
    if ws != [] {
      NoDuplicates(db, ws[..|ws| - 1]);
      if Run(db, ws[..|ws| - 1]).Ok? { NoDuplicate(Run(db, ws[..|ws| - 1]).value, ws[|ws| - 1]); }
    }
  }

  /** Only the first write of a plan can meet a duplicate. */
  lemma PlanErrors(db: Db, todo: seq<Write>)
    requires todo != [] && Check(db, todo[0]) != Some(DuplicateTransaction)
    requires forall k :: 0 < k < |todo| ==> KeysOf(todo[k]) == []
    ensures Run(db, todo) != Err(DuplicateTransaction)
  {
    hide Run, Check, Apply;
    RunCons(db, todo[0], todo[1..]);
    assert [todo[0]] + todo[1..] == todo;
    if Check(db, todo[0]).None? { NoDuplicates(Apply(db, todo[0]), todo[1..]); }
  }

  /** A plan, with its row's keys free or with its id taken. */
  lemma PlanAlone(now: nat, db: Db, p: Proc, n: nat)
    requires KeysOk(db) && p.prog.Submit? && Existing(db, p.prog.t).Absent? && n >= 12
    requires Run(db, p.done) == Ok(WithInbox(db, p.prog.inbox)) && p.pc.Writing? && p.pc.stage == 0 && p.pc.todo != []
    requires p.pc.todo[0].InsTx?
    requires p.pc.todo[0].tx == p.prog.t.(status := p.pc.todo[0].tx.status, failureCode := p.pc.todo[0].tx.failureCode)
    requires |p.pc.todo| <= 5 && forall k :: 0 < k < |p.pc.todo| ==> KeysOf(p.pc.todo[k]) == []
    ensures match Run(WithInbox(db, p.prog.inbox), p.pc.todo)
            case Err(e) => Alone(now, db, p, n) == Outcome.Failed(Surface(e))
            case Ok(d) => Alone(now, db, p, n) == Committed(d, p.pc.basis)
  {
    hide Run, Alone, Existing, KeysOk, Apply;
    var t, todo, view := p.prog.t, p.pc.todo, WithInbox(db, p.prog.inbox);
    KeysFreeFor(db, p.prog.inbox, t);
    RunCons(view, todo[0], todo[1..]);
    assert [todo[0]] + todo[1..] == todo;
    if Taken(view, TxId(t.id)) {
      GoesOn(now, db, p, n);
      var _ := LookupAlone(now, db, Exec(now, db, p).p, n - 1);
    } else {
      InsertRuns(now, db, p, n);
      PlanErrors(view, todo);
    }
  }

  lemma SameFind(db: Db, inbox: Option<Claim>, key: (string, string))
    ensures FindByExternalId(WithInbox(db, inbox), key) == FindByExternalId(db, key)
  {
  }

  lemma PlanSize(t: TxRow, w: WalletRow, read: Option<TxRow>)
    requires Decide(t, w, read).Plan?
    ensures |Decide(t, w, read).writes| <= 5
  {
    hide Decide;
    var _, _ := PlanCases(t, w, read);
  }

  /** From the lock of the wallet to the plan. */
  lemma DecideAlone(now: nat, db: Db, p: Proc, n: nat)
    requires KeysOk(db) && p.prog.Submit? && Existing(db, p.prog.t).Absent? && n >= 14
    requires p.done == InboxWrites(p.prog.inbox) && (p.prog.inbox.Some? ==> MessageOf(p.prog.inbox.value) !in db.inbox)
    requires Run(db, p.done) == Ok(WithInbox(db, p.prog.inbox)) && p.pc == LockWallet
    ensures SameAsStep(Alone(now, db, p, n), Wager(db, p.prog.t, p.prog.inbox))
  {
    hide Run, Alone, Existing, KeysOk, Decide, FindByExternalId;
    var t, inbox := p.prog.t, p.prog.inbox;
    var read := FreshRead(db, t, inbox);
    SameFind(db, inbox, RefOf(t));
    if t.walletId !in db.wallets || db.wallets[t.walletId].playerId != t.playerId {
      FailsNow(now, db, p, n);
    } else {
      var w := db.wallets[t.walletId];
      var p', m := p, n;
      if IsReversal(t.kind) {
        GoesOn(now, db, p, n);
        p', m := Exec(now, db, p).p, n - 1;
      }
      match Decide(t, w, read) {
        case Refuse(e) => FailsNow(now, db, p', m);
        case Plan(writes, out) =>
          GoesOn(now, db, p', m);
          PlanShape(t, w, read);
          PlanSize(t, w, read);
          NoKeys(writes[1..]);
          forall k | 0 < k < |writes| ensures KeysOf(writes[k]) == [] { assert writes[k] == writes[1..][k - 1]; }
          RunInbox(db, inbox, writes);
          PlanAlone(now, db, Exec(now, db, p').p, m - 1);
      }
    }
  }

  lemma SameExisting(db: Db, inbox: Option<Claim>, t: TxRow)
    ensures Existing(WithInbox(db, inbox), t) == Existing(db, t)
    ensures forall row :: AnswerFrom(WithInbox(db, inbox), row) == AnswerFrom(db, row)
  {
  }

  /** A submission that nothing disturbs commits exactly the atomic step, with its answer, or fails with
      its error; 24 statements are enough. */
  lemma SubmissionAlone(now: nat, db: Db, t: TxRow, inbox: Option<Claim>)
    requires KeysOk(db)
    ensures SameAsStep(Alone(now, db, Begun(Submit(t, inbox), now), 24), Wager(db, t, inbox))
  {
    hide Run, Alone, Existing, KeysOk, Decide, FindByExternalId, AnswerFrom;
    if inbox.Some? && MessageOf(inbox.value) in db.inbox {
      RepeatAlone(now, db, t, inbox.value, 24);
    } else {
      var p := InboxAlone(now, db, t, inbox, 24);
      var p' := LookupAlone(now, db, p, 23);
      SameExisting(db, inbox, t);
      match Existing(db, t) {
        case Clash =>
        case Same(row) =>
          RunInbox(db, inbox, []);
          LockAlone(now, db, p', row, 22);
          LockAlone(now, db, p', row, 21);
        case Absent => DecideAlone(now, db, p', 21);
      }
    }
  }

  // ---------- A resolution and an opening ----------

  predicate SameDb(o: Outcome, r: Result<Db, Error>) {
    match r case Ok(d) => o.Committed? && o.db == d case Err(e) => o == Outcome.Failed(e)
  }

  lemma ShelveNoKeys(row: TxRow, read: Option<TxRow>)
    ensures |ShelveWrites(row, read)| == 1 && KeysOf(ShelveWrites(row, read)[0]) == []
  {
  }

  lemma SettleNoKeys(row: TxRow, w: WalletRow, w': WalletRow)
    ensures var ws := SettleWrites(row, w, w'); |ws| == 5 && forall k :: 0 <= k < 5 ==> KeysOf(ws[k]) == []
  {
  }

  /** A resolution that nothing disturbs commits exactly the atomic step or fails with its error. */
  lemma ResolutionAlone(now: nat, db: Db, id: string)
    requires KeysOk(db)
    ensures SameDb(Alone(now, db, Begun(Settle(id), now), 24), Resolve(db, id))
  {
    hide Run, Alone, KeysOk, FindByExternalId, CreditRow, SettleWrites, ShelveWrites;
    var p := Begun(Settle(id), now);
    RunNothing(db);
    GoesOn(now, db, p, 24);
    var p1 := Exec(now, db, p).p;
    KeyedRow(db, id);
    if p1.pc.Ready? {
      Ends(now, db, p1, 23);
    } else {
      var row, read := db.txs[id], ReferenceOf(db, id);
      GoesOn(now, db, p1, 23);
      var p2 := Exec(now, db, p1).p;
      if p2.pc.Writing? {
        ShelveNoKeys(row, read);
        WritesRun(now, db, p2, 22);
      } else if row.walletId !in db.wallets || CreditRow(db.wallets[row.walletId], row.money).Err? {
        FailsNow(now, db, p2, 22);
      } else {
        var w := db.wallets[row.walletId];
        GoesOn(now, db, p2, 22);
        SettleNoKeys(row, w, CreditRow(w, row.money).value);
        WritesRun(now, db, Exec(now, db, p2).p, 21);
      }
    }
  }

  /** Outside submissions a key that is taken ends the transaction. */
  lemma {:induction false} TakenKeyFails(now: nat, db: Db, p: Proc, n: nat, k: nat)
    requires p.pc.Writing? && p.pc.todo != [] && !p.prog.Submit? && p.pc.stage <= k < |KeysOf(p.pc.todo[0])|
    requires Taken(View(db, p), KeysOf(p.pc.todo[0])[k]) && n > k - p.pc.stage
    ensures Alone(now, db, p, n).Failed?
    decreases k - p.pc.stage
  {
    hide Taken, KeysOf, Check, Apply, Run;
    if !Taken(View(db, p), KeysOf(p.pc.todo[0])[p.pc.stage]) { TakenKeyFails(now, db, Exec(now, db, p).p, n - 1, k); }
  }

  /** Keys that are taken are what makes an insert fail for a duplicate. */
  lemma TakenKeys(db: Db, w: Write)
    requires w.InsWallet? || w.InsTx?
    ensures (exists k :: 0 <= k < |KeysOf(w)| && Taken(db, KeysOf(w)[k])) ==> Check(db, w).Some?
  {
  }

  /** An insert whose keys are looked at one by one, whatever comes of it. */
  lemma InsertStep(now: nat, db: Db, p: Proc, n: nat) returns (p': Proc)
    requires p.pc.Writing? && p.pc.todo != [] && p.pc.stage == 0 && !p.prog.Submit? && Run(db, p.done).Ok?
    requires (p.pc.todo[0].InsWallet? || p.pc.todo[0].InsTx?) && |KeysOf(p.pc.todo[0])| <= 3 && n >= 4
    ensures Check(View(db, p), p.pc.todo[0]).Some? ==> Alone(now, db, p, n).Failed?
    ensures Check(View(db, p), p.pc.todo[0]).None? ==>
              p'.prog == p.prog && p'.pc == Writing(0, p.pc.todo[1..], p.pc.basis) && p'.done == p.done + [p.pc.todo[0]]
              && Alone(now, db, p, n) == Alone(now, db, p', n - |KeysOf(p.pc.todo[0])| - 1)
              && Run(db, p'.done) == Ok(Apply(View(db, p), p.pc.todo[0])) && View(db, p') == Apply(View(db, p), p.pc.todo[0])
  {
    hide Taken, KeysOf, Check, Apply, Run, Alone;
    var view, w := View(db, p), p.pc.todo[0];
    p' := p;
    TakenKeys(view, w);
    if k :| 0 <= k < |KeysOf(w)| && Taken(view, KeysOf(w)[k]) {
      TakenKeyFails(now, db, p, n, k);
    } else {
      p' := ClaimsKeys(now, db, p, n);
      Executes(now, db, p', n - |KeysOf(w)|);
      p' := p'.(done := p'.done + [w], pc := Writing(0, p.pc.todo[1..], p.pc.basis));
    }
  }

  lemma OpeningKeys(w: WalletRow)
    ensures var ws := OpenWrites(w);
            && ws[0].InsWallet? && |KeysOf(ws[0])| == 2
            && (|ws| == 1 || (|ws| == 5 && ws[1].InsTx? && |KeysOf(ws[1])| == 3 && forall k :: 2 <= k < 5 ==> KeysOf(ws[k]) == []))
  {
  }

  /** An opening that nothing disturbs commits exactly the atomic step, or fails if that fails. */
  lemma OpeningAlone(now: nat, db: Db, w: WalletRow)
    ensures match Open(db, w)
            case Ok(d) => Alone(now, db, Begun(OpenUp(w), now), 24) == Committed(d, Opened)
            case Err(_) => Alone(now, db, Begun(OpenUp(w), now), 24).Failed?
  {
    hide Run, Alone, Check, Apply, KeysOf, OpenWrites;
    var p, ws := Begun(OpenUp(w), now), OpenWrites(w);
    OpeningKeys(w);
    RunNothing(db);
    RunCons(db, ws[0], ws[1..]);
    assert [ws[0]] + ws[1..] == ws;
    var p1 := InsertStep(now, db, p, 24);
    if Check(db, ws[0]).None? {
      var d1 := Apply(db, ws[0]);
      if |ws| == 1 {
        WritesRun(now, db, p1, 21);
      } else {
        RunCons(d1, ws[1], ws[2..]);
        assert [ws[1]] + ws[2..] == ws[1..] && ws[1..][1..] == ws[2..];
        var p2 := InsertStep(now, db, p1, 21);
        if Check(d1, ws[1]).None? { WritesRun(now, db, p2, 17); }
      }
    }
  }
}
