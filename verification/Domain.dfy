/** The two domain objects whose methods update their fields in place. */
module Domain {
  import opened Amounts
  import opened Records

  class Wallet {
    const id: string
    const playerId: string
    var balance: Money
    var version: int64

    constructor (row: WalletRow)
      ensures Value() == row
    {
      id, playerId, balance, version := row.id, row.playerId, row.balance, row.version;
    }

    /** RehydrateWallet: a row without an id or a player, or with a negative balance, is refused. */
    static method Rehydrate(row: WalletRow) returns (r: Result<Wallet, Error>)
      ensures r.Ok? <==> row.id != "" && row.playerId != "" && row.balance.amount >= 0
      ensures r.Ok? <==> Rehydrates(row)
      ensures r.Ok? ==> fresh(r.value) && r.value.Value() == row
      ensures r.Err? ==> r.error == if row.id == "" || row.playerId == "" then MissingField else NegativeAmount
    {
      if row.id == "" || row.playerId == "" { return Err(MissingField); }
      if row.balance.amount < 0 { return Err(NegativeAmount); }
      var wallet := new Wallet(row);
      return Ok(wallet);
    }

    function Value(): WalletRow
      reads this
    {
      WalletRow(id, playerId, balance, version)
    }

    /** A refused debit leaves the wallet as it was. */
    method Debit(amount: Money) returns (err: Option<Error>)
      modifies this
      ensures match DebitRow(old(Value()), amount)
              case Ok(w) => err == None && Value() == w
              case Err(e) => err == Some(e) && Value() == old(Value())
    {
      if amount.amount < 0 || amount.amount == 0 { return Some(NonPositiveAmount); }
      if balance.currency != amount.currency { return Some(CurrencyMismatch); }
      var comparison := Compare(balance, amount);
      if comparison.Err? { return Some(BadMoney(IncompatibleCurrency)); }
      if comparison.value < 0 { return Some(InsufficientBalance); }
      var newBalance := Subtract(balance, amount);
      if newBalance.Err? { return Some(BadMoney(newBalance.error)); }
      balance := newBalance.value;
      version := Bump(version);
      return None;
    }

    method Credit(amount: Money) returns (err: Option<Error>)
      modifies this
      ensures match CreditRow(old(Value()), amount)
              case Ok(w) => err == None && Value() == w
              case Err(e) => err == Some(e) && Value() == old(Value())
    {
      if amount.amount < 0 || amount.amount == 0 { return Some(NonPositiveAmount); }
      if balance.currency != amount.currency { return Some(CurrencyMismatch); }
      var newBalance := Add(balance, amount);
      if newBalance.Err? { return Some(BadMoney(newBalance.error)); }
      balance := newBalance.value;
      version := Bump(version);
      return None;
    }
  }

  class WagerTransaction {
    const fixed: TxRow
    var status: Status
    var failureCode: string
    var idempotentReplay: bool

    constructor (row: TxRow)
      ensures Value() == row && !idempotentReplay
    {
      fixed, status, failureCode, idempotentReplay := row, row.status, row.failureCode, false;
    }

    function Value(): TxRow
      reads this
    {
      fixed.(status := status, failureCode := failureCode)
    }

    method MarkAsIdempotentReplay()
      modifies this
      ensures idempotentReplay && Value() == old(Value())
    {
      idempotentReplay := true;
    }

    /** No transition leaves a terminal state; a refused transition changes nothing. */
    method TransitionToProcessed() returns (err: Option<Error>)
      modifies this
      ensures if old(status) in {Processed, Rejected, Failed} then err == Some(TerminalState) && Value() == old(Value())
              else err == None && Value() == old(Value()).(status := Processed)
      ensures idempotentReplay == old(idempotentReplay)
    {
      if Terminal(status) { return Some(TerminalState); }
      status := Processed;
      return None;
    }

    method TransitionToPendingReference() returns (err: Option<Error>)
      modifies this
      ensures if old(status) in {Processed, Rejected, Failed} then err == Some(TerminalState) && Value() == old(Value())
              else err == None && Value() == old(Value()).(status := PendingReference)
      ensures idempotentReplay == old(idempotentReplay)
    {
      if Terminal(status) { return Some(TerminalState); }
      if status != Pending && status != PendingReference { return Some(InvalidTransition); }
      status := PendingReference;
      return None;
    }

    method TransitionToRejected(code: string) returns (err: Option<Error>)
      modifies this
      ensures if old(status) in {Processed, Rejected, Failed} then err == Some(TerminalState) && Value() == old(Value())
              else if code == "" then err == Some(FailureCodeRequired) && Value() == old(Value())
              else err == None && Value() == old(Value()).(status := Rejected, failureCode := code)
      ensures idempotentReplay == old(idempotentReplay)
    {
      if Terminal(status) { return Some(TerminalState); }
      if code == "" { return Some(FailureCodeRequired); }
      status, failureCode := Rejected, code;
      return None;
    }
  }
}
