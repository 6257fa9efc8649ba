/** Which submissions and openings are accepted, and what becomes of each of their fields. */
module Validation {
  import opened Amounts
  import opened Records

  // ---------- Money and currency ----------

  /** The currency of a request is listed in the configuration, give or take case and outer space. */
  predicate Listed(currency: string, supported: seq<string>) {
    exists i :: 0 <= i < |supported| && Trim(Upper(supported[i])) == Trim(Upper(currency))
  }

  /** The text denotes an amount of money that fits. */
  predicate Readable(amount: string, currency: string) {
    ByteLen(Trim(Upper(currency))) == 3 && WellFormed(Trim(amount)) && Cents(Trim(amount)) <= 9223372036854775807
  }

  function Unreadable(amount: string, currency: string): MoneyError {
    if ByteLen(Trim(Upper(currency))) != 3 then InvalidCurrencyFormat
    else if !WellFormed(Trim(amount)) then InvalidMoneyFormat
    else MoneyOverflow
  }

  lemma Reading(amount: string, currency: string)
    ensures Parse(amount, currency) ==
            if Readable(amount, currency) then Ok(Money(Cents(Trim(amount)) as int64, Trim(Upper(currency))))
            else Err(Unreadable(amount, currency))
  {
    hide WellFormed, Cents, ByteLen;
    ParseAccepts(amount, currency);
  }

  // ---------- Submissions ----------

  predicate Complete(s: Submission) {
    s.providerId != "" && s.externalId != "" && s.idemKey != "" && s.walletId != "" && s.playerId != ""
  }

  /** A submission passes validation if and only if its money can be read in a supported currency, no field
      that identifies it is empty, and its kind is one of five; a LOSS is of nothing, anything else of
      something, and a REFUND or ROLLBACK names what it reverses. */
  lemma AcceptedWhen(s: Submission, supported: seq<string>)
    ensures Prepare(s, supported).Ok? <==>
            && Readable(s.amount, s.currency) && Listed(s.currency, supported) && Complete(s)
            && s.kind in {"BET", "WIN", "LOSS", "REFUND", "ROLLBACK"}
            && (s.kind == "LOSS" <==> Cents(Trim(s.amount)) == 0)
            && (s.kind in {"REFUND", "ROLLBACK"} ==> Trim(s.refExternalId) != "")
  {
    hide WellFormed, Cents, ByteLen, Trim, Upper, Parse;
    Reading(s.amount, s.currency);
  }

  /** Otherwise the first rule that it breaks is reported. */
  lemma RefusedWith(s: Submission, supported: seq<string>)
    requires Prepare(s, supported).Err?
    ensures Prepare(s, supported).error ==
            if !Readable(s.amount, s.currency) then BadMoney(Unreadable(s.amount, s.currency))
            else if !Listed(s.currency, supported) then CurrencyNotSupported
            else if !Complete(s) then MissingField
            else if s.kind !in {"BET", "WIN", "LOSS", "REFUND", "ROLLBACK"} then InvalidKind
            else if s.kind == "LOSS" && Cents(Trim(s.amount)) != 0 then LossMustBeZero
            else if s.kind != "LOSS" && Cents(Trim(s.amount)) == 0 then AmountMustBePositive
            else MissingField
  {
    hide WellFormed, Cents, ByteLen, Trim, Upper, Parse;
    Reading(s.amount, s.currency);
  }

  /** The kind that the row gets. */
  predicate SameKind(text: string, kind: Kind) {
    && (text == "BET" <==> kind == Bet) && (text == "WIN" <==> kind == Win) && (text == "LOSS" <==> kind == Loss)
    && (text == "REFUND" <==> kind == Refund) && (text == "ROLLBACK" <==> kind == Rollback) && kind != Opening
  }

  /** Every column of the row is the field of the submission that it is named after, and its money is what
      the text says. */
  lemma PreparedRow(s: Submission, supported: seq<string>)
    requires Prepare(s, supported).Ok?
    ensures var t := Prepare(s, supported).value;
            && t.id == "tx_" + s.providerId + "_" + s.externalId
            && t.providerId == s.providerId && t.externalId == s.externalId && t.idemKey == s.idemKey
            && t.walletId == s.walletId && t.playerId == s.playerId && t.roundId == s.roundId && t.gameId == s.gameId
            && SameKind(s.kind, t.kind) && t.refExternalId == s.refExternalId
            && Parse(s.amount, s.currency) == Ok(t.money)
            && t.money.amount as int == Cents(Trim(s.amount)) && t.money.currency == Trim(Upper(s.currency))
            && t.status == Pending && t.failureCode == ""
            && t.hash == Payload(s.providerId, s.externalId, s.playerId, s.walletId, s.roundId, s.gameId, t.kind,
                                 Print(t.money.amount), t.money.currency, s.refExternalId)
  {
    hide WellFormed, Cents, ByteLen, Trim, Upper, Parse, Print;
    Reading(s.amount, s.currency);
  }

  /** Two accepted submissions have the same payload if and only if they agree in everything but the
      idempotency key, the way an amount or a currency is written apart. */
  lemma SamePayloadWhen(s: Submission, u: Submission, supported: seq<string>)
    requires Prepare(s, supported).Ok? && Prepare(u, supported).Ok?
    ensures Prepare(s, supported).value.hash == Prepare(u, supported).value.hash <==>
            && s.providerId == u.providerId && s.externalId == u.externalId && s.playerId == u.playerId
            && s.walletId == u.walletId && s.roundId == u.roundId && s.gameId == u.gameId && s.kind == u.kind
            && Parse(s.amount, s.currency) == Parse(u.amount, u.currency) && s.refExternalId == u.refExternalId
  {
    hide Parse, Prepare, Print, WellFormed, Cents, ByteLen, Trim, Upper;
    AcceptedWhen(s, supported);
    AcceptedWhen(u, supported);
    PreparedRow(s, supported);
    PreparedRow(u, supported);
    var t, v := Prepare(s, supported).value, Prepare(u, supported).value;
    if t.hash == v.hash { PrintInjective(t.money.amount, v.money.amount); }
  }

  // ---------- Openings ----------

  /** An opening passes validation if and only if its money can be read in a supported currency and it
      names a player. */
  lemma OpeningAcceptedWhen(r: OpenRequest, supported: seq<string>)
    ensures PrepareOpen(r, supported).Ok? <==>
            Readable(r.amount, r.currency) && Listed(r.currency, supported) && r.playerId != ""
    ensures PrepareOpen(r, supported).Err? ==>
              PrepareOpen(r, supported).error ==
              if !Readable(r.amount, r.currency) then BadMoney(Unreadable(r.amount, r.currency))
              else if !Listed(r.currency, supported) then CurrencyNotSupported else MissingField
  {
    hide WellFormed, Cents, ByteLen, Trim, Upper, Parse;
    Reading(r.amount, r.currency);
  }

  /** The same text with the ASCII capitals A to Z moved by 32 code points. */
  predicate Lowered(s: string, l: string) {
    |l| == |s| && forall i :: 0 <= i < |s| ==> l[i] as int == s[i] as int + if 65 <= s[i] as int <= 90 then 32 else 0
  }

  /** The wallet has the requested balance, the player, an id of the player and the currency as it was
      written, and version 1. */
  lemma PreparedWallet(r: OpenRequest, supported: seq<string>) returns (currency: string)
    requires PrepareOpen(r, supported).Ok?
    ensures Lowered(r.currency, currency)
    ensures var w := PrepareOpen(r, supported).value;
            && w.id == "wal_" + r.playerId + "_" + currency && w.playerId == r.playerId && w.version == 1
            && Parse(r.amount, r.currency) == Ok(w.balance)
            && w.balance.amount as int == Cents(Trim(r.amount)) && w.balance.currency == Trim(Upper(r.currency))
  {
    hide WellFormed, Cents, ByteLen, Trim, Upper, Parse;
    Reading(r.amount, r.currency);
    currency := Lower(r.currency);
  }
}
