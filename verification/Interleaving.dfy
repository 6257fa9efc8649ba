/** The use cases as concurrent transactions: one statement at a time, each seeing the latest committed
    state together with its own writes (READ COMMITTED), under row locks and unique keys.

    An insert whose key an uncommitted insert holds waits; a key that is already committed conflicts at
    once. SELECT ... FOR UPDATE waits for the lock and then reads the row as committed. A transaction may
    be rolled back at any moment: this covers a statement that fails for a reason of its own, a lost
    connection, a panic, and the transaction that PostgreSQL aborts after a unique violation while the
    code goes on querying. */
module Interleaving {
  import opened Amounts
  import opened Records
  import opened Tables
  import opened Steps

  datatype Resource =
    | InboxKey(message: (string, string))
    | TxLock(id: string)
    | WalletLock(id: string)
    | WalletId(id: string)
    | OwnerKey(owner: (string, string))
    | TxId(id: string)
    | TxExt(ext: (string, string))
    | TxKey(key: string)

  datatype Program =
    | Submit(t: TxRow, inbox: Option<Claim>)
    | Settle(id: string)
    | OpenUp(wallet: WalletRow)

  /** What a transaction goes by once it has read all it needs. `at` is the number of the committed
      state in which it read the row it did not lock; for a resolution with nothing to do, that in which
      it looked up the row to resolve. */
  datatype Basis =
    | Answered(read: Option<TxRow>, at: nat, out: Output)
    | Decided(read: Option<TxRow>, at: nat, w: WalletRow, out: Output)
    | Shelved(row: TxRow, read: Option<TxRow>, at: nat)
    | Credited(row: TxRow, read: Option<TxRow>, at: nat, w: WalletRow)
    | Idle(found: Option<TxRow>, at: nat)
    | Opened

  /** The statement that comes next. */
  datatype Pc =
    | AtInbox
    | DupRead
    | DupLock(found: Option<TxRow>, at: nat)
    | LookExt(again: bool)
    | LookKey(again: bool)
    | ReplayLock(row: TxRow, at: nat)
    | LockWallet
    | ReadRef(w: WalletRow)
    | LockRow
    | ReadRowRef(row: TxRow)
    | LockRowWallet(row: TxRow, ref: TxRow, at: nat)
    | Writing(stage: nat, todo: seq<Write>, basis: Basis)
    | Ready(basis: Basis)
    | Finished(error: Option<Error>)

  /** `held` are its locks and the keys of its uncommitted inserts, `done` its uncommitted writes, and
      `since` the number of the committed state in which it began. */
  datatype Proc = Proc(prog: Program, pc: Pc, held: set<Resource>, done: seq<Write>, since: nat)

  predicate Running(p: Proc) { !p.pc.Finished? }

  function View(db: Db, p: Proc): Db {
    match Run(db, p.done) case Ok(d) => d case Err(_) => db
  }

  /** The unique keys an insert claims, in the order of the indexes. */
  function KeysOf(w: Write): seq<Resource> {
    match w
    case InsWallet(r) => [WalletId(r.id), OwnerKey(OwnerOf(r))]
    case InsTx(t) => [TxId(t.id), TxExt(ExtOf(t)), TxKey(t.idemKey)]
    case _ => []
  }

  predicate Taken(db: Db, r: Resource) {
    match r
    case InboxKey(m) => m in db.inbox
    case WalletId(i) => i in db.wallets
    case OwnerKey(o) => o in db.byOwner
    case TxId(i) => i in db.txs
    case TxExt(e) => e in db.byExt
    case TxKey(k) => k in db.byKey
    case _ => false
  }

  function WalletLockIn(db: Db, id: string): Option<Resource> {
    if id in db.wallets then Some(WalletLock(id)) else None
  }

  /** What the next statement must own before it can proceed. */
  function Wants(db: Db, p: Proc): Option<Resource> {
    match p.pc
    case AtInbox => if p.prog.Submit? && p.prog.inbox.Some? then Some(InboxKey(MessageOf(p.prog.inbox.value))) else None
    case DupLock(found, _) =>
      if p.prog.Submit? then WalletLockIn(db, (if found.Some? then found.value else p.prog.t).walletId) else None
    case ReplayLock(row, _) => WalletLockIn(db, row.walletId)
    case LockWallet => if p.prog.Submit? then WalletLockIn(db, p.prog.t.walletId) else None
    case LockRow => if p.prog.Settle? && p.prog.id in db.txs then Some(TxLock(p.prog.id)) else None
    case LockRowWallet(row, _, _) => WalletLockIn(db, row.walletId)
    case Writing(stage, todo, _) => if todo != [] && stage < |KeysOf(todo[0])| then Some(KeysOf(todo[0])[stage]) else None
    case _ => None
  }

  datatype Next = Go(p: Proc) | Fail(error: Error) | Commit

  function Hold(p: Proc, r: Resource, pc: Pc): Proc { p.(held := p.held + {r}, pc := pc) }

  /** The plan for a submission, once the wallet is locked and the reference read. */
  function Planned(p: Proc, t: TxRow, w: WalletRow, read: Option<TxRow>, at: nat): Next {
    match Decide(t, w, read)
    case Refuse(e) => Fail(e)
    case Plan(writes, out) => Go(p.(pc := Writing(0, writes, Decided(read, at, w, out))))
  }

  function LookedUp(p: Proc, t: TxRow, found: Option<TxRow>, now: nat, absent: Next): Next {
    match found
    case Some(row) => if row.hash == t.hash then Go(p.(pc := ReplayLock(row, now))) else Fail(Conflict)
    case None => absent
  }

  function AnswerLocked(p: Proc, db: Db, row: TxRow, read: Option<TxRow>, at: nat): Next {
    match AnswerFrom(db, row)
    case Err(e) => Fail(e)
    case Ok(out) => Go(Hold(p, WalletLock(row.walletId), Ready(Answered(read, at, out))))
  }

  /** One statement of a submission. */
  function SubmitStatement(now: nat, db: Db, p: Proc): Next
    requires p.prog.Submit?
  {
    var t, inbox := p.prog.t, p.prog.inbox;
    match p.pc
    case AtInbox =>
      if inbox.None? then Go(p.(pc := LookExt(false)))
      else if MessageOf(inbox.value) in db.inbox then Go(p.(pc := DupRead))
      else Go(Hold(p, InboxKey(MessageOf(inbox.value)), LookExt(false)).(done := [InsInbox(inbox.value)]))
    case DupRead => Go(p.(pc := DupLock(FindByExternalId(db, ExtOf(t)), now)))
    case DupLock(found, at) => AnswerLocked(p, db, if found.Some? then found.value else t, found, at)
    case LookExt(again) => LookedUp(p, t, FindByExternalId(db, ExtOf(t)), now, Go(p.(pc := LookKey(again))))
    case LookKey(again) =>
      LookedUp(p, t, FindByIdempotencyKey(db, t.idemKey), now, if again then Fail(Conflict) else Go(p.(pc := LockWallet)))
    case ReplayLock(row, at) => AnswerLocked(p, db, row, Some(row), at)
    case LockWallet =>
      if t.walletId !in db.wallets then Fail(WalletNotFound)
      else
        var w := db.wallets[t.walletId];
        var p' := Hold(p, WalletLock(t.walletId), ReadRef(w));
        if w.playerId != t.playerId then Fail(OwnerMismatch)
        else if IsReversal(t.kind) then Go(p') else Planned(p', t, w, None, now)
    case ReadRef(w) => Planned(p, t, w, FindByExternalId(db, RefOf(t)), now)
    case _ => Fail(StatementFailed)
  }

  /** One statement of a resolution. */
  function SettleStatement(now: nat, db: Db, p: Proc): Next
    requires p.prog.Settle?
  {
    match p.pc
    case LockRow =>
      if p.prog.id !in db.txs then Go(p.(pc := Ready(Idle(None, now))))
      else
        var row := db.txs[p.prog.id];
        Go(Hold(p, TxLock(row.id), if row.status != PendingReference then Ready(Idle(Some(row), now)) else ReadRowRef(row)))
    case ReadRowRef(row) =>
      var read := FindByExternalId(db, RefOf(row));
      if read.None? || read.value.status != Processed
      then Go(p.(pc := Writing(0, ShelveWrites(row, read), Shelved(row, read, now))))
      else Go(p.(pc := LockRowWallet(row, read.value, now)))
    case LockRowWallet(row, ref, at) =>
      if row.walletId !in db.wallets then Fail(WalletNotFound)
      else
        var w := db.wallets[row.walletId];
        (match CreditRow(w, row.money)
         case Err(e) => Fail(e)
         case Ok(w') =>
           Go(Hold(p, WalletLock(row.walletId), Writing(0, SettleWrites(row, w, w'), Credited(row, Some(ref), at, w)))))
    case _ => Fail(StatementFailed)
  }

  /** One step of a write: claim the next unique key, or execute. A duplicate key in a submission leads
      back to the lookups; the failed insert keeps no key. */
  function WriteStatement(db: Db, p: Proc): Next
    requires p.pc.Writing?
  {
    var Writing(stage, todo, basis) := p.pc;
    if todo == [] then Go(p.(pc := Ready(basis)))
    else
      var keys := KeysOf(todo[0]);
      if stage < |keys| then
        if Taken(db, keys[stage]) then
          if p.prog.Submit?
          then Go(p.(pc := LookExt(true), held := p.held - set k | k in keys[..stage]))
          else Fail(StatementFailed)
        else Go(Hold(p, keys[stage], Writing(stage + 1, todo, basis)))
      else match Check(db, todo[0])
        case Some(e) => Fail(e)
        case None => Go(p.(done := p.done + [todo[0]], pc := Writing(0, todo[1..], basis)))
  }

  function Exec(now: nat, db: Db, p: Proc): Next {
    var view := View(db, p);
    if p.pc.Ready? then Commit
    else if p.pc.Writing? then WriteStatement(view, p)
    else if p.prog.Submit? then SubmitStatement(now, view, p)
    else if p.prog.Settle? then SettleStatement(now, view, p)
    else Fail(StatementFailed)
  }

  // ---------- The system ----------

  /** An entry of the commit log: what committed, and the unlocked read it went by. */
  datatype Op = Op(prog: Program, basis: Basis, since: nat)

  /** `hist` holds every committed state so far, the current one last; `log[i]` led from `hist[i]` to
      `hist[i + 1]`. */
  datatype Sys = Sys(hist: seq<Db>, procs: map<nat, Proc>, log: seq<Op>)

  function Current(s: Sys): Db
    requires s.hist != []
  {
    s.hist[|s.hist| - 1]
  }

  const INITIAL: Sys := Sys([EMPTY_DB], map[], [])
  datatype Move = Begin(pid: nat, prog: Program) | Act(pid: nat) | Abort(pid: nat, error: Error)

  predicate Busy(s: Sys, pid: nat, r: Resource) {
    exists q :: q in s.procs && q != pid && r in s.procs[q].held
  }

  predicate Blocked(s: Sys, pid: nat)
    requires s.hist != [] && pid in s.procs
  {
    var want := Wants(View(Current(s), s.procs[pid]), s.procs[pid]);
    want.Some? && Busy(s, pid, want.value)
  }

  /** Programs as the callers start them: validated input, and an inbox claim for the same submission. */
  predicate ValidProgram(prog: Program) {
    match prog
    case Submit(t, inbox) => NewRow(t) && (inbox.Some? ==> inbox.value.payload == t.hash)
    case Settle(_) => true
    case OpenUp(w) => NewWallet(w)
  }

  function StartPc(prog: Program): Pc {
    match prog
    case Submit(_, _) => AtInbox
    case Settle(_) => LockRow
    case OpenUp(w) => Writing(0, OpenWrites(w), Opened)
  }

  predicate CanMove(s: Sys, m: Move) {
    s.hist != [] &&
    match m
    case Begin(pid, prog) => pid !in s.procs && ValidProgram(prog)
    case Act(pid) => pid in s.procs && Running(s.procs[pid]) && !Blocked(s, pid)
    case Abort(pid, _) => pid in s.procs && Running(s.procs[pid])
  }

  function Finish(s: Sys, pid: nat, error: Option<Error>): Sys
    requires pid in s.procs
  {
    s.(procs := s.procs[pid := s.procs[pid].(pc := Finished(error), held := {}, done := [])])
  }

  function Step(s: Sys, m: Move): Sys
    requires CanMove(s, m)
  {
    match m
    case Begin(pid, prog) => s.(procs := s.procs[pid := Proc(prog, StartPc(prog), {}, [], |s.hist| - 1)])
    case Abort(pid, e) => Finish(s, pid, Some(e))
    case Act(pid) =>
      var p := s.procs[pid];
      match Exec(|s.hist| - 1, Current(s), p)
      case Go(p') => s.(procs := s.procs[pid := p'])
      case Fail(e) => Finish(s, pid, Some(e))
      case Commit =>
        Finish(s, pid, None).(hist := s.hist + [View(Current(s), p)], log := s.log + [Op(p.prog, p.pc.basis, p.since)])
  }

  /** The state after a run from the empty database, if every move of the run could be made. */
  function After(moves: seq<Move>): Option<Sys> {
    if moves == [] then Some(INITIAL)
    else match After(moves[..|moves| - 1])
      case None => None
      case Some(s) => if CanMove(s, moves[|moves| - 1]) then Some(Step(s, moves[|moves| - 1])) else None
  }
}
