/** Opening a wallet, statement by statement (internal/usecase/open_wallet_usecase.go). */
module OpenWallet {
  import opened Amounts
  import opened Records
  import opened Tables
  import opened Steps
  import opened Preservation
  import opened Sessions
  import opened Usecases

  lemma OpeningEntryId(id: string)
    ensures "led_" + ("tx_opening_" + id) == "led_tx_opening_" + id
  {
  }

  lemma OpenedTables(db: Db, w: WalletRow)
    requires Open(db, w).Ok?
    ensures Open(db, w).value.wallets == db.wallets[w.id := w]
    ensures Open(db, w).value.ledger == db.ledger +
            if w.balance.amount == 0 then []
            else [Entry("led_tx_opening_" + w.id, w.id, "tx_opening_" + w.id, Credit, w.balance.amount, 0, w.balance.amount)]
  {
    hide Open, OpenWrites, Print;
    OpenEffect(db, w);
    OpeningEntryId(w.id);
  }

  class OpenWalletUsecase {
    const supported: seq<string>
    const tx: Session

    constructor (supported: seq<string>, tx: Session)
      ensures this.supported == supported && this.tx == tx
    {
      this.supported, this.tx := supported, tx;
    }

    /** The callback: the wallet row, and for a funded wallet its opening transaction, the first entry
        and the two events. */
    method Insert(wallet: WalletRow) returns (err: Option<Error>)
      requires tx.Idle()
      modifies tx`done, tx`aborted
      ensures tx.Valid()
      ensures match Open(tx.committed, wallet)
              case Ok(d) => err == None && !tx.aborted && Run(tx.committed, tx.done) == Ok(d)
              case Err(e) => err == Some(e)
    {
      hide Run, Check, Apply, OpeningTx, EntryFor;
      ghost var plan := OpenWrites(wallet);
      RunNothing(tx.committed);
      err := tx.Exec(InsWallet(wallet));
      if err.Some? { PlanFails(tx.committed, plan, 0); return; }
      assert plan[..1] == tx.done;
      if wallet.balance.amount == 0 {
        assert plan[..1] == plan;
        return;
      }
      var opening := OpeningTx(wallet);
      err := tx.Exec(InsTx(opening));
      if err.Some? { PlanFails(tx.committed, plan, 1); return; }
      assert plan[..2] == tx.done;
      err := tx.Exec(InsEntry(EntryFor(opening, Credit, 0, wallet.balance.amount)));
      if err.Some? { PlanFails(tx.committed, plan, 2); return; }
      assert plan[..3] == tx.done;
      err := tx.Exec(InsEvent(WalletOpened(wallet.id)));
      if err.Some? { PlanFails(tx.committed, plan, 3); return; }
      assert plan[..4] == tx.done;
      err := tx.Exec(InsEvent(OpeningBalance(wallet.id, wallet.playerId, wallet.balance.amount, wallet.balance.currency,
                                             wallet.balance.amount, wallet.version)));
      if err.Some? { PlanFails(tx.committed, plan, 4); return; }
      assert plan == tx.done;
    }

    method Execute(input: OpenRequest) returns (r: Result<WalletRow, Error>)
      requires tx.Idle()
      modifies tx
      ensures tx.Idle()
      ensures match PrepareOpen(input, supported)
              case Err(e) => r == Err(e) && tx.committed == old(tx.committed)
              case Ok(w) =>
                match Open(old(tx.committed), w)
                case Ok(d) => r == Ok(w) && tx.committed == d
                case Err(e) => r == Err(e) && tx.committed == old(tx.committed)
      ensures r.Ok? ==>
                && Parse(input.amount, input.currency) == Ok(r.value.balance)
                && r.value.playerId == input.playerId && r.value.version == 1
                && tx.committed.wallets == old(tx.committed.wallets)[r.value.id := r.value]
                && tx.committed.ledger == old(tx.committed.ledger) +
                   if r.value.balance.amount == 0 then []
                   else [Entry("led_tx_opening_" + r.value.id, r.value.id, "tx_opening_" + r.value.id, Credit,
                               r.value.balance.amount, 0, r.value.balance.amount)]
    {
      hide Parse, Open, Supported;
      var money := Parse(input.amount, input.currency);
      if money.Err? { return Err(BadMoney(money.error)); }
      if !Supported(money.value.currency, supported) { return Err(CurrencyNotSupported); }
      var walletId := "wal_" + input.playerId + "_" + Lower(input.currency);
      if input.playerId == "" { return Err(MissingField); }
      var wallet := WalletRow(walletId, input.playerId, money.value, 1);
      var err := Insert(wallet);
      if err.Some? {
        tx.Rollback();
        return Err(err.value);
      }
      OpenedTables(tx.committed, wallet);
      var lost := tx.Commit();
      return Ok(wallet);
    }
  }
}
