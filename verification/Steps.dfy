/** The use cases as atomic steps on the database (internal/usecase/wager_usecase.go,
    internal/usecase/open_wallet_usecase.go). A step takes as a parameter the one row that the code reads
    without locking it, so that a concurrent run, in which that row can be out of date at commit,
    is described by the same function. */
module Steps {
  import opened Amounts
  import opened Records
  import opened Tables

  // ---------- Submitting a transaction ----------

  datatype Lookup = Absent | Same(row: TxRow) | Clash

  /** lookupExisting: by external id first, then by idempotency key. */
  function Existing(db: Db, t: TxRow): Lookup {
    match FindByExternalId(db, ExtOf(t))
    case Some(row) => if row.hash == t.hash then Same(row) else Clash
    case None =>
      match FindByIdempotencyKey(db, t.idemKey)
      case Some(row) => if row.hash == t.hash then Same(row) else Clash
      case None => Absent
  }

  function InboxWrites(inbox: Option<Claim>): seq<Write> {
    if inbox.Some? then [InsInbox(inbox.value)] else []
  }

  /** What the code decides once it holds the wallet and has read the reference: an error, or the
      statements it will issue and the answer it will give. */
  datatype Decision = Refuse(error: Error) | Plan(writes: seq<Write>, out: Output)

  function MoveWrites(t: TxRow, w: WalletRow, w': WalletRow, dir: Direction): seq<Write> {
    var e := EntryFor(t, dir, w.balance.amount, w'.balance.amount);
    [InsTx(t.(status := Processed)), UpdWallet(w', w.version), InsEntry(e),
     InsEvent(EventFor(e, t.money.currency, w'.version)), InsEvent(TxProcessed(t.id))]
  }

  function PlanMove(t: TxRow, w: WalletRow, moved: Result<WalletRow, Error>, dir: Direction): Decision {
    match moved
    case Err(e) => Refuse(e)
    case Ok(w') => Plan(MoveWrites(t, w, w', dir), Output(t.id, Processed, w'.balance, false))
  }

  function PlanRecord(t: TxRow, w: WalletRow, status: Status, code: string, ev: Event): Decision {
    Plan([InsTx(t.(status := status, failureCode := code)), InsEvent(ev)], Output(t.id, status, w.balance, false))
  }

  function DecideReversal(t: TxRow, w: WalletRow, read: Option<TxRow>): Decision {
    match read
    case None => PlanRecord(t, w, PendingReference, "", TxParked(t.id))
    case Some(ref) =>
      if ref.status != Processed then Refuse(ReferenceNotUsable)
      else PlanMove(t, w, CreditRow(w, t.money), Credit)
  }

  function Decide(t: TxRow, w: WalletRow, read: Option<TxRow>): Decision {
    match t.kind
    case Bet =>
      if DebitRow(w, t.money) == Err(InsufficientBalance)
      then PlanRecord(t, w, Rejected, "INSUFFICIENT_BALANCE", TxRejected(t.id))
      else PlanMove(t, w, DebitRow(w, t.money), Debit)
    case Win => PlanMove(t, w, CreditRow(w, t.money), Credit)
    case Loss => PlanRecord(t, w, Processed, "", TxProcessed(t.id))
    case Refund => DecideReversal(t, w, read)
    case Rollback => DecideReversal(t, w, read)
    case Opening => Refuse(InvalidKind)
  }

  /** A duplicate of either kind surfaces as the same conflict. */
  function Surface(e: Error): Error { if e == DuplicateTransaction then Conflict else e }

  function AnswerFrom(db: Db, row: TxRow): Result<Output, Error> {
    if row.walletId !in db.wallets then Err(WalletNotFound)
    else Ok(Output(row.id, row.status, db.wallets[row.walletId].balance, true))
  }

  /** ProcessTransactionWithInbox on a prepared transaction. `read` is the existing row that a replay
      answers from, or the reference of a reversal. */
  function WagerStep(db: Db, t: TxRow, inbox: Option<Claim>, read: Option<TxRow>): Result<(Db, Output), Error> {
    if inbox.Some? && MessageOf(inbox.value) in db.inbox then
      match AnswerFrom(db, if read.Some? then read.value else t)
      case Err(e) => Err(e)
      case Ok(out) => Ok((db, out))
    else
      match Existing(db, t)
      case Clash => Err(Conflict)
      case Same(row) =>
        (match AnswerFrom(db, if read.Some? then read.value else row)
         case Err(e) => Err(e)
         case Ok(out) =>
           match Run(db, InboxWrites(inbox)) case Err(e) => Err(e) case Ok(db') => Ok((db', out)))
      case Absent =>
        if t.walletId !in db.wallets then Err(WalletNotFound)
        else if db.wallets[t.walletId].playerId != t.playerId then Err(OwnerMismatch)
        else match Decide(t, db.wallets[t.walletId], read)
          case Refuse(e) => Err(e)
          case Plan(writes, out) =>
            match Run(db, InboxWrites(inbox) + writes)
            case Err(e) => Err(Surface(e))
            case Ok(db') => Ok((db', out))
  }

  /** The unlocked read of a run that nothing disturbs. */
  function FreshRead(db: Db, t: TxRow, inbox: Option<Claim>): Option<TxRow> {
    if inbox.Some? && MessageOf(inbox.value) in db.inbox then FindByExternalId(db, ExtOf(t))
    else match Existing(db, t)
      case Same(row) => Some(row)
      case _ => if IsReversal(t.kind) then FindByExternalId(db, RefOf(t)) else None
  }

  function Wager(db: Db, t: TxRow, inbox: Option<Claim>): Result<(Db, Output), Error> {
    WagerStep(db, t, inbox, FreshRead(db, t, inbox))
  }

  // ---------- Resolving a parked transaction ----------

  function SettleWrites(row: TxRow, w: WalletRow, w': WalletRow): seq<Write> {
    var e := EntryFor(row, Credit, w.balance.amount, w'.balance.amount);
    [UpdTx(row.(status := Processed)), UpdWallet(w', w.version), InsEntry(e),
     InsEvent(TxProcessed(row.id)), InsEvent(EventFor(e, row.money.currency, w'.version))]
  }

  /** The writes of a resolution that needs no wallet: park again, or reject. */
  function ShelveWrites(row: TxRow, read: Option<TxRow>): seq<Write> {
    if read.None? then [UpdTx(row)] else [UpdTx(row.(status := Rejected, failureCode := "INVALID_REFERENCE"))]
  }

  function ResolveStep(db: Db, id: string, read: Option<TxRow>): Result<Db, Error> {
    if id !in db.txs || db.txs[id].status != PendingReference then Ok(db)
    else
      var row := db.txs[id];
      if read.None? || read.value.status != Processed then Run(db, ShelveWrites(row, read))
      else if row.walletId !in db.wallets then Err(WalletNotFound)
      else match CreditRow(db.wallets[row.walletId], row.money)
        case Err(e) => Err(e)
        case Ok(w') => Run(db, SettleWrites(row, db.wallets[row.walletId], w'))
  }

  function ReferenceOf(db: Db, id: string): Option<TxRow> {
    if id in db.txs then FindByExternalId(db, RefOf(db.txs[id])) else None
  }

  function Resolve(db: Db, id: string): Result<Db, Error> { ResolveStep(db, id, ReferenceOf(db, id)) }

  // ---------- Opening a wallet ----------

  function OpenWrites(w: WalletRow): seq<Write> {
    if w.balance.amount == 0 then [InsWallet(w)]
    else
      var t := OpeningTx(w);
      [InsWallet(w), InsTx(t), InsEntry(EntryFor(t, Credit, 0, w.balance.amount)),
       InsEvent(WalletOpened(w.id)),
       InsEvent(OpeningBalance(w.id, w.playerId, w.balance.amount, w.balance.currency, w.balance.amount, w.version))]
  }

  function Open(db: Db, w: WalletRow): Result<Db, Error> { Run(db, OpenWrites(w)) }
}
