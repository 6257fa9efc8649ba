/** The database: six tables with the keys and checks of the schema, the write statements of the
    repositories, and their effect. A statement either fails or has exactly its effect. */
module Tables {
  import opened Amounts
  import opened Records

  /** `byOwner`, `byExt` and `byKey` are the unique indexes besides the primary keys. */
  datatype Db = Db(wallets: map<string, WalletRow>, byOwner: map<(string, string), string>,
                   txs: map<string, TxRow>, byExt: map<(string, string), string>, byKey: map<string, string>,
                   ledger: seq<Entry>, inbox: map<(string, string), Payload>, outbox: seq<Event>)

  const EMPTY_DB: Db := Db(map[], map[], map[], map[], map[], [], map[], [])
  function OwnerOf(w: WalletRow): (string, string) { (w.playerId, w.balance.currency) }
  function ExtOf(t: TxRow): (string, string) { (t.providerId, t.externalId) }
  function RefOf(t: TxRow): (string, string) { (t.providerId, t.refExternalId) }
  function MessageOf(c: Claim): (string, string) { (c.consumer, c.messageId) }

  // ---------- Reads ----------

  function FindByExternalId(db: Db, key: (string, string)): Option<TxRow> {
    if key in db.byExt && db.byExt[key] in db.txs then Some(db.txs[db.byExt[key]]) else None
  }

  function FindByIdempotencyKey(db: Db, key: string): Option<TxRow> {
    if key in db.byKey && db.byKey[key] in db.txs then Some(db.txs[db.byKey[key]]) else None
  }

  // ---------- Writes ----------

  datatype Write =
    | InsInbox(claim: Claim)
    | InsWallet(wallet: WalletRow)
    | UpdWallet(wallet: WalletRow, expected: int64)
    | InsTx(tx: TxRow)
    | UpdTx(tx: TxRow)
    | InsEntry(entry: Entry)
    | InsEvent(event: Event)

  predicate EntryFree(ledger: seq<Entry>, e: Entry) {
    forall x :: x in ledger ==> x.id != e.id && !(x.walletId == e.walletId && x.txId == e.txId)
  }

  /** The error a statement meets, if any. */
  function Check(db: Db, w: Write): Option<Error> {
    match w
    case InsInbox(c) => if MessageOf(c) in db.inbox then Some(DuplicateMessage) else None
    case InsWallet(r) =>
      if r.balance.amount < 0 || r.version <= 0 || r.id in db.wallets || OwnerOf(r) in db.byOwner
      then Some(StatementFailed) else None
    case UpdWallet(r, expected) =>
      if r.id !in db.wallets || db.wallets[r.id].version != expected then Some(WalletNotFound)
      else if r.balance.amount < 0 || r.version <= 0 then Some(StatementFailed)
      else None
    case InsTx(t) =>
      if t.id in db.txs || ExtOf(t) in db.byExt || t.idemKey in db.byKey then Some(DuplicateTransaction)
      else if t.walletId !in db.wallets then Some(StatementFailed)
      else None
    case UpdTx(_) => None
    case InsEntry(e) =>
      if !EntryChecks(e) || !EntryFree(db.ledger, e) || e.walletId !in db.wallets || e.txId !in db.txs
      then Some(StatementFailed) else None
    case InsEvent(_) => None
  }

  function PutTx(db: Db, t: TxRow): Db {
    db.(txs := db.txs[t.id := t], byExt := db.byExt[ExtOf(t) := t.id], byKey := db.byKey[t.idemKey := t.id])
  }

  /** The effect of a statement that does not fail. An update touches only the columns it sets. */
  function Apply(db: Db, w: Write): Db {
    match w
    case InsInbox(c) => db.(inbox := db.inbox[MessageOf(c) := c.payload])
    case InsWallet(r) => db.(wallets := db.wallets[r.id := r], byOwner := db.byOwner[OwnerOf(r) := r.id])
    case UpdWallet(r, _) =>
      if r.id !in db.wallets then db
      else
        var cur := db.wallets[r.id];
        db.(wallets := db.wallets[r.id := cur.(balance := cur.balance.(amount := r.balance.amount), version := r.version)])
    case InsTx(t) => PutTx(db, t)
    case UpdTx(t) =>
      if t.id !in db.txs then db
      else db.(txs := db.txs[t.id := db.txs[t.id].(status := t.status, failureCode := t.failureCode)])
    case InsEntry(e) => db.(ledger := db.ledger + [e])
    case InsEvent(ev) => db.(outbox := db.outbox + [ev])
  }

  /** Runs statements in order up to the first failure. */
  function Run(db: Db, ws: seq<Write>): Result<Db, Error> {
    if ws == [] then Ok(db)
    else match Run(db, ws[..|ws| - 1])
      case Err(e) => Err(e)
      case Ok(d) =>
        match Check(d, ws[|ws| - 1])
        case Some(e) => Err(e)
        case None => Ok(Apply(d, ws[|ws| - 1]))
  }

  lemma RunNothing(db: Db)
    ensures Run(db, []) == Ok(db)
  {
  }

  lemma RunSnoc(db: Db, ws: seq<Write>, w: Write)
    ensures Run(db, ws + [w]) ==
            match Run(db, ws)
            case Err(e) => Err(e)
            case Ok(d) => match Check(d, w) case Some(e) => Err(e) case None => Ok(Apply(d, w))
  {
    assert (ws + [w])[..|ws + [w]| - 1] == ws;
  }

  lemma {:induction false} RunAppend(db: Db, a: seq<Write>, b: seq<Write>)
    ensures Run(db, a + b) == match Run(db, a) case Err(e) => Err(e) case Ok(d) => Run(d, b)
  {
    if b == [] {
      assert a + b == a;
    } else {
      var front, w := b[..|b| - 1], b[|b| - 1];
      RunAppend(db, a, front);
      RunSnoc(db, a + front, w);
      assert a + b == a + front + [w];
    }
  }

  lemma RunCons(db: Db, w: Write, ws: seq<Write>)
    ensures Run(db, [w] + ws) == match Check(db, w) case Some(e) => Err(e) case None => Run(Apply(db, w), ws)
  {
    RunAppend(db, [w], ws);
    RunSnoc(db, [], w);
    assert [] + [w] == [w];
  }

  // ---------- Keys and guards ----------

  /** What the unique keys forbid: a second row after one that has been inserted. */
  lemma KeysAreUnique(db: Db, first: Write, second: Write)
    ensures var check := Check(Apply(db, first), second);
            match (first, second)
            case (InsInbox(a), InsInbox(b)) => a.consumer == b.consumer && a.messageId == b.messageId ==> check == Some(DuplicateMessage)
            case (InsWallet(a), InsWallet(b)) =>
              a.id == b.id || (a.playerId == b.playerId && a.balance.currency == b.balance.currency) ==> check == Some(StatementFailed)
            case (InsTx(a), InsTx(b)) =>
              a.id == b.id || a.idemKey == b.idemKey || (a.providerId == b.providerId && a.externalId == b.externalId) ==>
                check == Some(DuplicateTransaction)
            case (InsEntry(a), InsEntry(b)) =>
              a.id == b.id || (a.walletId == b.walletId && a.txId == b.txId) ==> check == Some(StatementFailed)
            case _ => true
  {
    if first.InsEntry? && second.InsEntry? { assert first.entry in Apply(db, first).ledger; }
  }

  /** Of two updates of a wallet that go by the same version only the first finds its row. */
  lemma SecondWriterFails(db: Db, a: WalletRow, b: WalletRow, version: int64)
    requires Check(db, UpdWallet(a, version)).None? && a.id == b.id && a.version != version
    ensures Check(Apply(db, UpdWallet(a, version)), UpdWallet(b, version)) == Some(WalletNotFound)
  {
  }
}
