/** The values that the tables hold and the pure rules about them: submissions and their validation,
    transaction rows, wallet rows, ledger entries and outbox events. */
module Records {
  import opened Amounts

  datatype Kind = Opening | Bet | Win | Loss | Refund | Rollback

  datatype Status = Pending | PendingReference | Processed | Rejected | Failed

  datatype Direction = Debit | Credit

  datatype Error =
    | BadMoney(cause: MoneyError) | CurrencyNotSupported
    | MissingField | NegativeAmount | InvalidKind | LossMustBeZero | AmountMustBePositive
    | InsufficientBalance | CurrencyMismatch | NonPositiveAmount
    | WalletNotFound | OwnerMismatch | ReferenceNotUsable
    | TerminalState | InvalidTransition | FailureCodeRequired
    | DuplicateMessage | DuplicateTransaction | Conflict
    | StatementFailed | TransactionAborted

  /** The ten hashed fields. SHA-256 over their canonical JSON is taken to be injective, so the tuple
      itself stands for the hash. */
  datatype Payload = Payload(providerId: string, externalId: string, playerId: string, walletId: string,
                             roundId: string, gameId: string, kind: Kind, amount: string, currency: string,
                             refExternalId: string)

  datatype TxRow = TxRow(id: string, providerId: string, externalId: string, idemKey: string, hash: Payload,
                         walletId: string, playerId: string, roundId: string, gameId: string,
                         kind: Kind, money: Money, refExternalId: string,
                         status: Status, failureCode: string)

  datatype WalletRow = WalletRow(id: string, playerId: string, balance: Money, version: int64)

  datatype Entry = Entry(id: string, walletId: string, txId: string, direction: Direction,
                         amount: int64, before: int64, after: int64)

  /** Outbox events. Transactions and wallets have no exported fields, so the events that marshal one
      carry no more than their aggregate id. */
  datatype Event =
    | WalletOpened(walletId: string)
    | OpeningBalance(walletId: string, playerId: string, amount: int64, currency: string, after: int64, version: int64)
    | BalanceChanged(walletId: string, txId: string, direction: Direction, printedAmount: string, currency: string,
                     printedBefore: string, printedAfter: string, version: int64)
    | TxProcessed(txId: string)
    | TxRejected(txId: string)
    | TxParked(txId: string)

  /** What a client submits, over HTTP or inside a queue message. */
  datatype Submission = Submission(providerId: string, externalId: string, idemKey: string,
                                   playerId: string, walletId: string, roundId: string, gameId: string,
                                   kind: string, amount: string, currency: string, refExternalId: string)

  /** An inbox claim. The stored body hash is never read back; it is modelled by the payload that the
      hashed body carries. */
  datatype Claim = Claim(consumer: string, messageId: string, payload: Payload)

  datatype Output = Output(txId: string, status: Status, balance: Money, replay: bool)

  // ---------- Transactions ----------

  function PayloadOf(t: TxRow): Payload {
    Payload(t.providerId, t.externalId, t.playerId, t.walletId, t.roundId, t.gameId, t.kind,
            Print(t.money.amount), t.money.currency, t.refExternalId)
  }

  function KindOf(s: string): Option<Kind> {
    if s == "BET" then Some(Bet) else if s == "WIN" then Some(Win) else if s == "LOSS" then Some(Loss)
    else if s == "REFUND" then Some(Refund) else if s == "ROLLBACK" then Some(Rollback)
    else if s == "OPENING" then Some(Opening) else None
  }

  predicate IsReversal(k: Kind) { k == Refund || k == Rollback }
  predicate Terminal(s: Status) { s == Processed || s == Rejected || s == Failed }
  function WagerId(providerId: string, externalId: string): string { "tx_" + providerId + "_" + externalId }

  /** A fresh transaction whose payload hash is set, or the first rule it breaks. */
  function NewTransaction(s: Submission, money: Money): Result<TxRow, Error> {
    if s.providerId == "" || s.externalId == "" || s.idemKey == "" || s.walletId == "" || s.playerId == ""
    then Err(MissingField)
    else match KindOf(s.kind)
      case None => Err(InvalidKind)
      case Some(kind) =>
        if kind == Opening then Err(InvalidKind)
        else if kind == Loss && money.amount != 0 then Err(LossMustBeZero)
        else if kind != Loss && money.amount <= 0 then Err(AmountMustBePositive)
        else if IsReversal(kind) && Trim(s.refExternalId) == "" then Err(MissingField)
        else
          Ok(TxRow(WagerId(s.providerId, s.externalId), s.providerId, s.externalId, s.idemKey,
                   Payload(s.providerId, s.externalId, s.playerId, s.walletId, s.roundId, s.gameId, kind,
                           Print(money.amount), money.currency, s.refExternalId),
                   s.walletId, s.playerId, s.roundId, s.gameId, kind, money, s.refExternalId, Pending, ""))
  }

  /** Everything ProcessTransactionWithInbox does before it opens a database transaction. */
  function Prepare(s: Submission, supported: seq<string>): Result<TxRow, Error> {
    match Parse(s.amount, s.currency)
    case Err(e) => Err(BadMoney(e))
    case Ok(money) =>
      if !Supported(money.currency, supported) then Err(CurrencyNotSupported) else NewTransaction(s, money)
  }

  /** The amount rule of each kind. */
  predicate AmountRule(t: TxRow) {
    if t.kind == Loss then t.money.amount == 0 else t.money.amount > 0
  }

  /** What validation guarantees of a transaction that reaches the database. */
  predicate NewRow(t: TxRow) {
    t.id == WagerId(t.providerId, t.externalId) && t.kind != Opening && AmountRule(t)
    && t.hash == PayloadOf(t) && t.status == Pending && t.failureCode == ""
  }

  lemma PrepareGivesNewRow(s: Submission, supported: seq<string>)
    requires Prepare(s, supported).Ok?
    ensures NewRow(Prepare(s, supported).value)
  {
    ParseAccepts(s.amount, s.currency);
  }

  /** Equal hashes force every hashed column to agree, the amount included. */
  lemma EqualHashes(t: TxRow, u: TxRow)
    requires t.hash == PayloadOf(t) && u.hash == PayloadOf(u) && t.hash == u.hash
    ensures t.providerId == u.providerId && t.externalId == u.externalId && t.walletId == u.walletId
    ensures t.playerId == u.playerId && t.kind == u.kind && t.money == u.money && t.refExternalId == u.refExternalId
  {
    PrintInjective(t.money.amount, u.money.amount);
  }

  /** The longer provider id continues the shorter one with an underscore, and the external id of the
      shorter starts with the rest. */
  ghost predicate Continues(p: string, e: string, p': string, e': string) {
    exists x: string :: p' == p + "_" + x && e == x + "_" + e'
  }

  lemma ContinuesWhen(p: string, e: string, p': string, e': string)
    ensures Continues(p, e, p', e') <==> |p| < |p'| && WagerId(p, e) == WagerId(p', e')
  {
    var a, b, n, m := WagerId(p, e), WagerId(p', e'), |p|, |p'|;
    if x :| p' == p + "_" + x && e == x + "_" + e' {
      assert a == "tx_" + p + "_" + x + "_" + e' == b;
    }
    if n < m && a == b {
      var x := p'[n + 1..];
      assert a[3..3 + n] == p && b[3..3 + n] == p'[..n] && a[3 + n] == '_' && b[3 + n] == p'[n];
      assert p' == p + "_" + x;
      assert a[4 + n..] == e && b[4 + n..] == x + "_" + e';
    }
  }

  /** Internal ids are concatenations and not injective: two submissions share one if and only if they
      agree in provider and external id or the provider id of one continues that of the other. */
  lemma WagerIdsCollideWhen(p: string, e: string, p': string, e': string)
    ensures WagerId(p, e) == WagerId(p', e') <==>
            (p == p' && e == e') || Continues(p, e, p', e') || Continues(p', e', p, e)
  {
    ContinuesWhen(p, e, p', e');
    ContinuesWhen(p', e', p, e);
    var a, b := WagerId(p, e), WagerId(p', e');
    if |p| == |p'| && a == b {
      assert a[3..3 + |p|] == p && b[3..3 + |p|] == p' && a[4 + |p|..] == e && b[4 + |p|..] == e';
    }
  }

  lemma ContinuedHasUnderscore(p: string, e: string, p': string, e': string)
    ensures Continues(p, e, p', e') ==> '_' in p'
  {
    if x :| p' == p + "_" + x && e == x + "_" + e' { assert p'[|p|] == '_'; }
  }

  /** Ids are injective among providers whose ids contain no underscore. */
  lemma PlainProvidersDoNotCollide(p: string, e: string, p': string, e': string)
    requires '_' !in p && '_' !in p'
    ensures WagerId(p, e) == WagerId(p', e') <==> p == p' && e == e'
  {
    WagerIdsCollideWhen(p, e, p', e');
    ContinuedHasUnderscore(p, e, p', e');
    ContinuedHasUnderscore(p', e', p, e);
  }

  // ---------- Wallets ----------

  /** A normalised currency code. */
  predicate CurrencyOk(c: string) { Canon(c) == c && ByteLen(c) == 3 }

  /** A row that can be read back as a wallet. */
  predicate Rehydrates(w: WalletRow) { w.id != "" && w.playerId != "" && w.balance.amount >= 0 }

  /** A wallet as its opening inserts it. */
  predicate NewWallet(w: WalletRow) { Rehydrates(w) && w.version == 1 && CurrencyOk(w.balance.currency) }

  datatype OpenRequest = OpenRequest(playerId: string, amount: string, currency: string)

  function Lower(s: string): string {
    seq(|s|, i requires 0 <= i < |s| => if 'A' <= s[i] <= 'Z' then s[i] - 'A' + 'a' else s[i])
  }

  function PrepareOpen(r: OpenRequest, supported: seq<string>): Result<WalletRow, Error> {
    match Parse(r.amount, r.currency)
    case Err(e) => Err(BadMoney(e))
    case Ok(money) =>
      if !Supported(money.currency, supported) then Err(CurrencyNotSupported)
      else if r.playerId == "" then Err(MissingField)
      else Ok(WalletRow("wal_" + r.playerId + "_" + Lower(r.currency), r.playerId, money, 1))
  }

  lemma PrepareOpenGivesNewWallet(r: OpenRequest, supported: seq<string>)
    requires PrepareOpen(r, supported).Ok?
    ensures NewWallet(PrepareOpen(r, supported).value)
  {
    ParseAccepts(r.amount, r.currency);
    CanonIdempotent(r.currency);
  }

  /** Go's ++ on int64. */
  function Bump(v: int64): int64 { if v == MAX then MIN else v + 1 }

  function DebitRow(w: WalletRow, m: Money): Result<WalletRow, Error> {
    if m.amount <= 0 then Err(NonPositiveAmount)
    else if w.balance.currency != m.currency then Err(CurrencyMismatch)
    else if w.balance.amount < m.amount then Err(InsufficientBalance)
    else match Subtract(w.balance, m)
      case Err(e) => Err(BadMoney(e))
      case Ok(b) => Ok(w.(balance := b, version := Bump(w.version)))
  }

  function CreditRow(w: WalletRow, m: Money): Result<WalletRow, Error> {
    if m.amount <= 0 then Err(NonPositiveAmount)
    else if w.balance.currency != m.currency then Err(CurrencyMismatch)
    else match Add(w.balance, m)
      case Err(e) => Err(BadMoney(e))
      case Ok(b) => Ok(w.(balance := b, version := Bump(w.version)))
  }

  /** A debit takes exactly the amount off the balance and raises the version by one, or is refused. */
  lemma DebitExact(w: WalletRow, m: Money)
    requires w.balance.amount >= 0
    ensures DebitRow(w, m) ==
            if m.amount <= 0 then Err(NonPositiveAmount)
            else if m.currency != w.balance.currency then Err(CurrencyMismatch)
            else if w.balance.amount < m.amount then Err(InsufficientBalance)
            else Ok(WalletRow(w.id, w.playerId, Money(w.balance.amount - m.amount, w.balance.currency),
                              if w.version == MAX then MIN else w.version + 1))
  {
    SubtractExact(w.balance, m);
  }

  /** A credit adds exactly the amount, unless the sum leaves the int64 range. */
  lemma CreditExact(w: WalletRow, m: Money)
    requires w.balance.amount >= 0
    ensures var sum := w.balance.amount as int + m.amount as int;
            CreditRow(w, m) ==
            if m.amount <= 0 then Err(NonPositiveAmount)
            else if m.currency != w.balance.currency then Err(CurrencyMismatch)
            else if sum > 9223372036854775807 then Err(BadMoney(MoneyOverflow))
            else Ok(WalletRow(w.id, w.playerId, Money(sum as int64, w.balance.currency),
                              if w.version == MAX then MIN else w.version + 1))
  {
    AddExact(w.balance, m);
  }

  /** A credit and a debit of the same amount cancel in the balance, and both raise the version. */
  lemma CreditThenDebit(w: WalletRow, m: Money)
    requires CreditRow(w, m).Ok? && w.balance.amount >= 0
    ensures var c := CreditRow(w, m).value;
            DebitRow(c, m).Ok? && DebitRow(c, m).value == w.(version := Bump(Bump(w.version)))
  {
    AddExact(w.balance, m);
  }

  function OpeningTx(w: WalletRow): TxRow {
    TxRow("tx_opening_" + w.id, "INTERNAL", "opening_" + w.id, "opening:" + w.id,
          Payload("INTERNAL", "opening_" + w.id, w.playerId, w.id, "INTERNAL", "INTERNAL", Opening,
                  Print(w.balance.amount), w.balance.currency, ""),
          w.id, w.playerId, "INTERNAL", "INTERNAL", Opening, w.balance, "", Processed, "")
  }

  // ---------- Entries and events ----------

  function EntryFor(t: TxRow, dir: Direction, before: int64, after: int64): Entry {
    Entry("led_" + t.id, t.walletId, t.id, dir, t.money.amount, before, after)
  }

  /** The event a wager-side movement sends. */
  function EventFor(e: Entry, currency: string, version: int64): Event {
    BalanceChanged(e.walletId, e.txId, e.direction, Print(e.amount), currency, Print(e.before), Print(e.after), version)
  }

  function Signed(e: Entry): int {
    if e.direction == Credit then e.amount as int else -(e.amount as int)
  }

  /** The table's own checks on an entry. */
  predicate EntryChecks(e: Entry) {
    e.amount > 0 && e.before >= 0 && e.after >= 0 && e.after as int == e.before as int + Signed(e)
  }
}
