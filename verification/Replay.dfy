/** Sequential runs: a resubmission of what is already on record is a no-op for wallets, ledger and
    transactions, and is always answered alike. */
module Replay {
  import opened Amounts
  import opened Records
  import opened Tables
  import opened Steps
  import opened Invariants
  import opened Preservation
  import opened Evolution
  import opened Interleaving

  /** One use case after another; one that fails leaves the tables alone. */
  function Do(db: Db, prog: Program): Db {
    match prog
    case Submit(t, inbox) => (match Wager(db, t, inbox) case Ok((d, _)) => d case Err(_) => db)
    case Settle(id) => (match Resolve(db, id) case Ok(d) => d case Err(_) => db)
    case OpenUp(w) => (match Open(db, w) case Ok(d) => d case Err(_) => db)
  }

  function PlayFrom(db: Db, progs: seq<Program>): Db {
    if progs == [] then db else Do(PlayFrom(db, progs[..|progs| - 1]), progs[|progs| - 1])
  }

  function Play(progs: seq<Program>): Db { PlayFrom(EMPTY_DB, progs) }

  /** A message id determines what the message says. */
  type Data = ((string, string)) -> Payload

  predicate Determined(prog: Program, data: Data) {
    prog.Submit? && prog.inbox.Some? ==> data(MessageOf(prog.inbox.value)) == prog.inbox.value.payload
  }

  predicate Legal(progs: seq<Program>, data: Data) {
    forall k :: 0 <= k < |progs| ==> ValidProgram(progs[k]) && Determined(progs[k], data)
  }

  ghost predicate ClaimsOk(db: Db, data: Data) { forall m :: m in db.inbox ==> db.inbox[m] == data(m) }

  /** The same tables but for the inbox, of which `b` has a part. */
  ghost predicate Covers(a: Db, b: Db) {
    b == a.(inbox := b.inbox) && forall m :: m in b.inbox ==> m in a.inbox
  }

  /** The submission's payload is on record. */
  predicate Resubmission(db: Db, prog: Program) { prog.Submit? && OnRecord(db, prog.t.hash) }

  /** `kept` is `progs` without some of its resubmissions. */
  ghost predicate Thinned(progs: seq<Program>, kept: seq<Program>) {
    if progs == [] then kept == []
    else
      var front, last := progs[..|progs| - 1], progs[|progs| - 1];
      || (kept != [] && kept[|kept| - 1] == last && Thinned(front, kept[..|kept| - 1]))
      || (Resubmission(Play(front), last) && Thinned(front, kept))
  }

  // ---------- Runs keep the invariant ----------

  lemma SubmitKeeps(db: Db, t: TxRow, inbox: Option<Claim>, data: Data)
    requires Inv(db) && InboxOk(db) && ClaimsOk(db, data) && NewRow(t) && Wager(db, t, inbox).Ok?
    requires inbox.Some? ==> inbox.value.payload == t.hash == data(MessageOf(inbox.value))
    ensures var d := Wager(db, t, inbox).value.0; Inv(d) && InboxOk(d) && ClaimsOk(d, data) && Evolves(db, d)
  {
    hide KeysOk, RowsOk, LedgerOk, WalletsOk, EventsOk, InboxOk, Evolves, FreshRead, Existing, Decide, Run, AnswerFrom;
    var read := FreshRead(db, t, inbox);
    WagerKeeps(db, t, inbox, read);
    WagerEvolves(db, t, inbox, read);
    WagerKeepsInbox(db, t, inbox, read);
    if !(inbox.Some? && MessageOf(inbox.value) in db.inbox) { WagerInbox(db, t, inbox, read); }
  }

  lemma DoKeeps(db: Db, prog: Program, data: Data)
    requires Inv(db) && InboxOk(db) && ClaimsOk(db, data) && ValidProgram(prog) && Determined(prog, data)
    ensures Inv(Do(db, prog)) && InboxOk(Do(db, prog)) && ClaimsOk(Do(db, prog), data) && Evolves(db, Do(db, prog))
  {
    hide KeysOk, RowsOk, LedgerOk, WalletsOk, EventsOk, InboxOk, Evolves, WagerStep, ResolveStep, Open, FreshRead, ReferenceOf, NewRow;
    EvolvesReflexive(db);
    match prog {
      case Submit(t, inbox) => if Wager(db, t, inbox).Ok? { SubmitKeeps(db, t, inbox, data); }
      case Settle(id) =>
        if Resolve(db, id).Ok? {
          ResolveKeeps(db, id, ReferenceOf(db, id));
          ResolveEvolves(db, id, ReferenceOf(db, id));
          ResolveInbox(db, id, ReferenceOf(db, id));
          InboxKept(db, Resolve(db, id).value);
        }
      case OpenUp(w) =>
        if Open(db, w).Ok? {
          OpenKeeps(db, w);
          OpenEvolves(db, w);
          OpenInbox(db, w);
          InboxKept(db, Open(db, w).value);
        }
    }
  }

  lemma {:induction false} PlayOk(progs: seq<Program>, data: Data)
    requires Legal(progs, data)
    ensures Inv(Play(progs)) && InboxOk(Play(progs)) && ClaimsOk(Play(progs), data)
  {
    hide Inv, InboxOk, Do;
    if progs == [] {
      EmptyOk();
    } else {
      var front, last := progs[..|progs| - 1], progs[|progs| - 1];
      PlayOk(front, data);
      DoKeeps(Play(front), last, data);
    }
  }

  // ---------- The inbox does not matter to the other tables ----------

  lemma ApplyModuloInbox(a: Db, b: Db, w: Write)
    requires Covers(a, b) && !w.InsInbox?
    ensures Check(b, w) == Check(a, w)
    ensures Covers(Apply(a, w), Apply(b, w))
  {
  }

  lemma {:induction false} RunModuloInbox(a: Db, b: Db, ws: seq<Write>)
    requires Covers(a, b) && forall k :: 0 <= k < |ws| ==> !ws[k].InsInbox?
    ensures match Run(a, ws) case Err(e) => Run(b, ws) == Err(e) case Ok(d) => Run(b, ws).Ok? && Covers(d, Run(b, ws).value)
  {
    hide Check, Apply, Covers;
    if ws != [] {
      var front := ws[..|ws| - 1];
      RunModuloInbox(a, b, front);
      if Run(a, front).Ok? { ApplyModuloInbox(Run(a, front).value, Run(b, front).value, ws[|ws| - 1]); }
    }
  }

  lemma ReadsModuloInbox(a: Db, b: Db, t: TxRow)
    requires Covers(a, b)
    ensures Existing(b, t) == Existing(a, t) && b.wallets == a.wallets && b.txs == a.txs
    ensures forall key :: FindByExternalId(b, key) == FindByExternalId(a, key)
    ensures forall row :: AnswerFrom(b, row) == AnswerFrom(a, row)
  {
  }

  lemma ClaimCovers(a: Db, b: Db, inbox: Option<Claim>)
    requires Covers(a, b)
    ensures Covers(WithInbox(a, inbox), WithInbox(b, inbox))
  {
  }

  lemma CoversInbox(a: Db, b: Db, inbox: Option<Claim>)
    requires Covers(a, b)
    ensures inbox.Some? && MessageOf(inbox.value) in b.inbox ==> MessageOf(inbox.value) in a.inbox
  {
  }

  /** The submission is claimed in neither or in both: both runs do the same. */
  lemma SubmitModuloInbox(a: Db, b: Db, t: TxRow, inbox: Option<Claim>)
    requires Covers(a, b) && !(inbox.Some? && MessageOf(inbox.value) in a.inbox)
    ensures Covers(Do(a, Submit(t, inbox)), Do(b, Submit(t, inbox)))
  {
    hide Run, Existing, Decide, AnswerFrom, Covers, FindByExternalId;
    CoversInbox(a, b, inbox);
    ReadsModuloInbox(a, b, t);
    ClaimCovers(a, b, inbox);
    var read := FreshRead(a, t, inbox);
    RunInbox(a, inbox, []);
    RunInbox(b, inbox, []);
    if Existing(a, t).Absent? && t.walletId in a.wallets && Decide(t, a.wallets[t.walletId], read).Plan? {
      var ws := Decide(t, a.wallets[t.walletId], read).writes;
      PlanShape(t, a.wallets[t.walletId], read);
      RunInbox(a, inbox, ws);
      RunInbox(b, inbox, ws);
      RunModuloInbox(WithInbox(a, inbox), WithInbox(b, inbox), ws);
    }
  }

  lemma SettleReads(a: Db, b: Db)
    requires Covers(a, b)
    ensures b.txs == a.txs && b.wallets == a.wallets
  {
  }

  lemma SettleModuloInbox(a: Db, b: Db, id: string)
    requires Covers(a, b)
    ensures Covers(Do(a, Settle(id)), Do(b, Settle(id)))
  {
    hide Run, Existing, AnswerFrom, Covers, FindByExternalId, CreditRow;
    if id in a.txs { ReadsModuloInbox(a, b, a.txs[id]); }
    SettleReads(a, b);
    if id in a.txs && a.txs[id].status == PendingReference {
      var row, read := a.txs[id], ReferenceOf(a, id);
      if read.None? || read.value.status != Processed {
        RunModuloInbox(a, b, ShelveWrites(row, read));
      } else if row.walletId in a.wallets && CreditRow(a.wallets[row.walletId], row.money).Ok? {
        var w := a.wallets[row.walletId];
        RunModuloInbox(a, b, SettleWrites(row, w, CreditRow(w, row.money).value));
      }
    }
  }

  // ---------- Resubmissions ----------

  /** A resubmission only ever adds its message to the inbox, and is answered from the recorded row. */
  lemma ResubmissionAnswered(db: Db, t: TxRow, inbox: Option<Claim>)
    requires Inv(db) && NewRow(t) && OnRecord(db, t.hash)
    ensures Wager(db, t, inbox).Ok?
    ensures var row := FindByExternalId(db, ExtOf(t)).value;
            Wager(db, t, inbox).value.1 == Output(row.id, row.status, db.wallets[row.walletId].balance, true)
    ensures var d := Wager(db, t, inbox).value.0;
            d == if inbox.Some? && MessageOf(inbox.value) in db.inbox then db else WithInbox(db, inbox)
  {
    hide LedgerOk, WalletsOk, EventsOk, RowsOk, Run;
    FoundRow(db, ExtOf(t));
    if !(inbox.Some? && MessageOf(inbox.value) in db.inbox) { RunInbox(db, inbox, []); }
  }

  lemma FoundAgrees(db: Db, db': Db, key: (string, string))
    requires Inv(db) && Evolves(db, db') && FindByExternalId(db, key).Some? && FindByExternalId(db', key).Some?
    ensures var row, row' := FindByExternalId(db, key).value, FindByExternalId(db', key).value;
            row'.id == row.id && (Terminal(row.status) ==> row'.status == row.status)
  {
    hide LedgerOk, WalletsOk, EventsOk, RowsOk;
    FoundRow(db, key);
  }

  /** Every later replay names the same transaction; once the row is terminal, with the same status. */
  lemma ReplaysAgree(db: Db, db': Db, t: TxRow, inbox: Option<Claim>, inbox': Option<Claim>)
    requires Inv(db) && Inv(db') && Evolves(db, db') && NewRow(t) && OnRecord(db, t.hash)
    ensures Wager(db, t, inbox).Ok? && Wager(db', t, inbox').Ok?
    ensures var a, b := Wager(db, t, inbox).value.1, Wager(db', t, inbox').value.1;
            a.replay && b.replay && b.txId == a.txId && (Terminal(a.status) ==> b.status == a.status)
  {
    hide Inv, Wager, Evolves;
    OnRecordForever(db, db', t.hash);
    ResubmissionAnswered(db, t, inbox);
    ResubmissionAnswered(db', t, inbox');
    FoundAgrees(db, db', ExtOf(t));
  }

  /** A submission whose message was claimed before is a resubmission. */
  lemma ClaimedIsResubmission(db: Db, t: TxRow, claim: Claim, data: Data)
    requires InboxOk(db) && ClaimsOk(db, data) && claim.payload == t.hash == data(MessageOf(claim))
    requires MessageOf(claim) in db.inbox
    ensures OnRecord(db, t.hash)
  {
  }

  lemma ResubmitCovers(a: Db, b: Db, t: TxRow, inbox: Option<Claim>)
    requires Inv(a) && Inv(b) && NewRow(t) && Covers(a, b) && OnRecord(a, t.hash)
    ensures Covers(Do(a, Submit(t, inbox)), b)
    ensures inbox.Some? && MessageOf(inbox.value) in a.inbox ==> Covers(Do(a, Submit(t, inbox)), Do(b, Submit(t, inbox)))
  {
    hide Inv, Wager;
    ResubmissionAnswered(a, t, inbox);
    ResubmissionAnswered(b, t, inbox);
  }

  lemma OpenModuloInbox(a: Db, b: Db, w: WalletRow)
    requires Covers(a, b)
    ensures Covers(Do(a, OpenUp(w)), Do(b, OpenUp(w)))
  {
    hide Run, Covers;
    RunModuloInbox(a, b, OpenWrites(w));
  }

  lemma DoCovers(a: Db, b: Db, prog: Program, data: Data)
    requires Inv(a) && InboxOk(a) && ClaimsOk(a, data) && Inv(b) && Covers(a, b)
    requires ValidProgram(prog) && Determined(prog, data)
    ensures Covers(Do(a, prog), Do(b, prog))
  {
    hide Inv, InboxOk, Covers, Do;
    match prog {
      case Submit(t, inbox) =>
        if inbox.Some? && MessageOf(inbox.value) in a.inbox {
          ClaimedIsResubmission(a, t, inbox.value, data);
          ResubmitCovers(a, b, t, inbox);
        } else {
          SubmitModuloInbox(a, b, t, inbox);
        }
      case Settle(id) => SettleModuloInbox(a, b, id);
      case OpenUp(w) => OpenModuloInbox(a, b, w);
    }
  }

  lemma {:induction false} ThinnedLegal(progs: seq<Program>, kept: seq<Program>, data: Data)
    requires Legal(progs, data) && Thinned(progs, kept)
    ensures Legal(kept, data)
  {
    hide Play, Resubmission;
    if progs != [] {
      var front, last := progs[..|progs| - 1], progs[|progs| - 1];
      if kept != [] && kept[|kept| - 1] == last && Thinned(front, kept[..|kept| - 1]) {
        ThinnedLegal(front, kept[..|kept| - 1], data);
        assert forall k :: 0 <= k < |kept| - 1 ==> kept[k] == kept[..|kept| - 1][k];
      } else {
        ThinnedLegal(front, kept, data);
      }
    }
  }

  lemma CoversItself(db: Db)
    ensures Covers(db, db)
  {
  }

  lemma LastValid(progs: seq<Program>, data: Data)
    requires Legal(progs, data) && progs != []
    ensures var last := progs[|progs| - 1]; ValidProgram(last) && (last.Submit? ==> NewRow(last.t))
  {
  }

  /** Erasing any resubmissions from a run leaves wallets, ledger, transactions and events as they were. */
  lemma {:induction false} ErasingResubmissions(progs: seq<Program>, kept: seq<Program>, data: Data)
    requires Legal(progs, data) && Thinned(progs, kept)
    ensures Covers(Play(progs), Play(kept))
  {
    hide Inv, InboxOk, Do, Covers, ClaimsOk, ValidProgram, Determined;
    if progs == [] {
      CoversItself(EMPTY_DB);
    } else {
      var front, last := progs[..|progs| - 1], progs[|progs| - 1];
      PlayOk(front, data);
      if kept != [] && kept[|kept| - 1] == last && Thinned(front, kept[..|kept| - 1]) {
        var kept' := kept[..|kept| - 1];
        ErasingResubmissions(front, kept', data);
        ThinnedLegal(front, kept', data);
        PlayOk(kept', data);
        DoCovers(Play(front), Play(kept'), last, data);
      } else {
        ErasingResubmissions(front, kept, data);
        ThinnedLegal(front, kept, data);
        PlayOk(kept, data);
        LastValid(progs, data);
        ResubmitCovers(Play(front), Play(kept), last.t, last.inbox);
      }
    }
  }
}
