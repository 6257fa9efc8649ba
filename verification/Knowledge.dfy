/** What each running transaction knows about the committed state, statement by statement, and why the
    commits of others do not falsify it. */
module Knowledge {
  import opened Amounts
  import opened Records
  import opened Tables
  import opened Steps
  import opened Invariants
  import opened Evolution
  import opened Interleaving
  import opened Isolation

  // ---------- Unlocked reads ----------

  predicate AsOf(hist: seq<Db>, since: nat, at: nat, key: (string, string), read: Option<TxRow>) {
    since <= at < |hist| && FindByExternalId(hist[at], key) == read
  }

  predicate RowAsOf(hist: seq<Db>, since: nat, at: nat, row: TxRow) {
    since <= at < |hist| && row.id in hist[at].txs && hist[at].txs[row.id] == row
  }

  // ---------- What each transaction knows ----------

  function Last(hist: seq<Db>): Db
    requires hist != []
  {
    hist[|hist| - 1]
  }

  ghost predicate HistOk(hist: seq<Db>) {
    && hist != [] && InboxOk(Last(hist))
    && (forall i {:trigger Inv(hist[i])} :: 0 <= i < |hist| ==> Inv(hist[i]))
    && (forall i {:trigger Evolves(hist[i], Last(hist))} :: 0 <= i < |hist| ==> Evolves(hist[i], Last(hist)))
  }

  predicate LockedWallet(db: Db, held: set<Resource>, id: string, w: WalletRow) {
    WalletLock(id) in held && id in db.wallets && db.wallets[id] == w
  }

  predicate StandsAs(db: Db, id: string, row: TxRow) { id in db.txs && db.txs[id] == row }

  predicate LockedRow(db: Db, held: set<Resource>, id: string, row: TxRow) {
    TxLock(id) in held && StandsAs(db, id, row) && row.status == PendingReference
  }

  predicate HasKeys(held: set<Resource>, t: TxRow) {
    TxId(t.id) in held && TxExt(ExtOf(t)) in held && TxKey(t.idemKey) in held
  }

  predicate Claimed(p: Proc)
    requires p.prog.Submit?
  {
    p.prog.inbox.Some? ==> InboxKey(MessageOf(p.prog.inbox.value)) in p.held
  }

  predicate AtBase(p: Proc)
    requires p.prog.Submit?
  {
    p.done == InboxWrites(p.prog.inbox) && Claimed(p)
  }

  predicate Repeated(db: Db, p: Proc)
    requires p.prog.Submit?
  {
    p.prog.inbox.Some? && MessageOf(p.prog.inbox.value) in db.inbox && p.done == []
  }

  /** What a decision rests on: the locked wallet, and for a reversal the reference as read. */
  predicate DecidedOk(hist: seq<Db>, p: Proc, b: Basis)
    requires hist != [] && p.prog.Submit? && b.Decided?
  {
    var t := p.prog.t;
    && LockedWallet(Last(hist), p.held, t.walletId, b.w) && b.w.playerId == t.playerId && Claimed(p)
    && Decide(t, b.w, b.read).Plan? && Decide(t, b.w, b.read).out == b.out
    && (if IsReversal(t.kind) then AsOf(hist, p.since, b.at, RefOf(t), b.read) else b.read.None?)
  }

  function DecidedWrites(p: Proc, b: Basis): seq<Write>
    requires p.prog.Submit? && b.Decided? && Decide(p.prog.t, b.w, b.read).Plan?
  {
    InboxWrites(p.prog.inbox) + Decide(p.prog.t, b.w, b.read).writes
  }

  predicate Staged(w: Write, stage: nat, held: set<Resource>) {
    stage <= |KeysOf(w)| && forall k :: 0 <= k < stage ==> KeysOf(w)[k] in held
  }

  predicate AnsweredOk(hist: seq<Db>, p: Proc, b: Basis)
    requires hist != [] && p.prog.Submit? && b.Answered?
  {
    var t, db := p.prog.t, Last(hist);
    var row := if b.read.Some? then b.read.value else t;
    && AnswerFrom(db, row) == Ok(b.out) && WalletLock(row.walletId) in p.held
    && (|| (Repeated(db, p) && AsOf(hist, p.since, b.at, ExtOf(t), b.read))
        || (AtBase(p) && b.read.Some? && row.hash == t.hash && RowAsOf(hist, p.since, b.at, row)))
  }

  predicate SubmitOk(hist: seq<Db>, p: Proc)
    requires hist != [] && p.prog.Submit?
  {
    var t, db := p.prog.t, Last(hist);
    match p.pc
    case AtInbox => p.done == [] && p.held == {}
    case DupRead => Repeated(db, p)
    case DupLock(found, at) => Repeated(db, p) && AsOf(hist, p.since, at, ExtOf(t), found)
    case LookExt(again) => AtBase(p) && (again ==> WalletLock(t.walletId) in p.held)
    case LookKey(again) => AtBase(p) && (again ==> WalletLock(t.walletId) in p.held)
    case ReplayLock(row, at) => AtBase(p) && row.hash == t.hash && RowAsOf(hist, p.since, at, row)
    case LockWallet => AtBase(p)
    case ReadRef(w) => AtBase(p) && LockedWallet(db, p.held, t.walletId, w) && w.playerId == t.playerId && IsReversal(t.kind)
    case Writing(stage, todo, b) =>
      && b.Decided? && DecidedOk(hist, p, b) && p.done + todo == DecidedWrites(p, b)
      && (if |p.done| == |InboxWrites(p.prog.inbox)| then Staged(todo[0], stage, p.held)
          else |p.done| > |InboxWrites(p.prog.inbox)| && stage == 0 && HasKeys(p.held, t))
    case Ready(b) =>
      if b.Decided? then DecidedOk(hist, p, b) && p.done == DecidedWrites(p, b) && HasKeys(p.held, t)
      else b.Answered? && AnsweredOk(hist, p, b)
    case Finished(_) => p.done == [] && p.held == {}
    case _ => false
  }

  /** A resolution's plan, whole. */
  function SettlePlan(b: Basis): seq<Write>
    requires b.Shelved? || (b.Credited? && CreditRow(b.w, b.row.money).Ok?)
  {
    if b.Shelved? then ShelveWrites(b.row, b.read) else SettleWrites(b.row, b.w, CreditRow(b.w, b.row.money).value)
  }

  predicate SettleBasisOk(hist: seq<Db>, p: Proc, b: Basis)
    requires hist != [] && p.prog.Settle?
  {
    match b
    case Shelved(row, read, at) =>
      LockedRow(Last(hist), p.held, p.prog.id, row) && AsOf(hist, p.since, at, RefOf(row), read)
      && (read.None? || read.value.status != Processed)
    case Credited(row, read, at, w) =>
      LockedRow(Last(hist), p.held, p.prog.id, row) && AsOf(hist, p.since, at, RefOf(row), read)
      && read.Some? && read.value.status == Processed
      && LockedWallet(Last(hist), p.held, row.walletId, w) && CreditRow(w, row.money).Ok?
    case _ => false
  }

  /** Nothing to resolve: no row was found, or it is locked and not parked. */
  predicate IdleOk(hist: seq<Db>, p: Proc, b: Basis)
    requires hist != [] && p.prog.Settle? && b.Idle?
  {
    match b.found
    case None => p.since <= b.at < |hist| && p.prog.id !in hist[b.at].txs
    case Some(row) => TxLock(p.prog.id) in p.held && StandsAs(Last(hist), p.prog.id, row) && row.status != PendingReference
  }

  predicate SettleOk(hist: seq<Db>, p: Proc)
    requires hist != [] && p.prog.Settle?
  {
    match p.pc
    case LockRow => p.done == [] && p.held == {}
    case ReadRowRef(row) => p.done == [] && LockedRow(Last(hist), p.held, p.prog.id, row)
    case LockRowWallet(row, ref, at) =>
      p.done == [] && LockedRow(Last(hist), p.held, p.prog.id, row)
      && AsOf(hist, p.since, at, RefOf(row), Some(ref)) && ref.status == Processed
    case Writing(stage, todo, b) => stage == 0 && SettleBasisOk(hist, p, b) && p.done + todo == SettlePlan(b)
    case Ready(b) => if b.Idle? then p.done == [] && IdleOk(hist, p, b) else SettleBasisOk(hist, p, b) && p.done == SettlePlan(b)
    case Finished(_) => p.done == [] && p.held == {}
    case _ => false
  }

  predicate OpenOk(p: Proc)
    requires p.prog.OpenUp?
  {
    match p.pc
    case Writing(stage, todo, b) =>
      && b.Opened? && p.done + todo == OpenWrites(p.prog.wallet)
      && (if todo == [] then stage == 0 else Staged(todo[0], stage, p.held))
    case Ready(b) => b.Opened? && p.done == OpenWrites(p.prog.wallet)
    case Finished(_) => p.done == [] && p.held == {}
    case _ => false
  }

  ghost predicate ProcOk(hist: seq<Db>, p: Proc) {
    && hist != [] && p.since < |hist| && ValidProgram(p.prog)
    && Owned(Last(hist), p.held) && AllCovered(p.done, p.held) && Run(Last(hist), p.done).Ok?
    && match p.prog
       case Submit(_, _) => SubmitOk(hist, p)
       case Settle(_) => SettleOk(hist, p)
       case OpenUp(_) => OpenOk(p)
  }

  // ---------- Other transactions' commits ----------

  lemma AnswerStable(db: Db, db': Db, held: set<Resource>, row: TxRow)
    requires AgreeRows(db, db', held) && WalletLock(row.walletId) in held
    ensures AnswerFrom(db', row) == AnswerFrom(db, row)
  {
    assert OwnsWallet(held, row.walletId);
  }

  lemma LocksStable(db: Db, db': Db, held: set<Resource>)
    requires AgreeRows(db, db', held)
    ensures forall id, w :: LockedWallet(db, held, id, w) ==> LockedWallet(db', held, id, w)
    ensures forall id, row :: LockedRow(db, held, id, row) ==> LockedRow(db', held, id, row)
    ensures forall id, row :: TxLock(id) in held && StandsAs(db, id, row) ==> StandsAs(db', id, row)
  {
    forall id, w | LockedWallet(db, held, id, w) ensures LockedWallet(db', held, id, w) { assert OwnsWallet(held, id); }
    forall id, row | TxLock(id) in held && StandsAs(db, id, row) ensures StandsAs(db', id, row) { assert OwnsTx(held, id); }
  }

  lemma SubmitStable(hist: seq<Db>, db': Db, p: Proc)
    requires hist != [] && p.prog.Submit? && SubmitOk(hist, p)
    requires AgreeRows(Last(hist), db', p.held) && IndexesEvolve(Last(hist), db')
    ensures SubmitOk(hist + [db'], p)
  {
    hide Decide, AgreeRows, AnswerFrom, FindByExternalId;
    LocksStable(Last(hist), db', p.held);
    match p.pc {
      case Ready(b) =>
        if b.Answered? && AnsweredOk(hist, p, b) {
          AnswerStable(Last(hist), db', p.held, if b.read.Some? then b.read.value else p.prog.t);
        }
      case _ =>
    }
  }

  lemma SettleStable(hist: seq<Db>, db': Db, p: Proc)
    requires hist != [] && p.prog.Settle? && SettleOk(hist, p)
    requires AgreeRows(Last(hist), db', p.held)
    ensures SettleOk(hist + [db'], p)
  {
    hide AgreeRows, CreditRow, FindByExternalId;
    LocksStable(Last(hist), db', p.held);
  }

  lemma AgreeParts(db: Db, db': Db, held: set<Resource>)
    requires Agree(db, db', held)
    ensures AgreeRows(db, db', held)
  {
  }

  /** What a transaction knows survives every commit that respects its locks and keys. */
  lemma ProcStable(hist: seq<Db>, db': Db, p: Proc)
    requires ProcOk(hist, p) && Agree(Last(hist), db', p.held) && Owned(db', p.held) && Evolves(Last(hist), db')
    ensures ProcOk(hist + [db'], p)
  {
    hide Agree, Owned, AllCovered, Run, SubmitOk, SettleOk, IndexesEvolve, TablesEvolve;
    RunAgrees(Last(hist), db', p.done, p.held);
    assert Last(hist + [db']) == db';
    AgreeParts(Last(hist), db', p.held);
    match p.prog {
      case Submit(_, _) => SubmitStable(hist, db', p);
      case Settle(_) => SettleStable(hist, db', p);
      case _ =>
    }
  }
}
