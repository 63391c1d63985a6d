/** `Transaction`: an immutable record of one movement of an account's
    money, as two signed deltas, one to the available and one to the
    unavailable (reserved) balance. */
module Transactions {
  import opened Base

  datatype TransactionType =
    | ReserveMargin
    | ReturnMargin
    | FeeCreate
    | FeeFill
    | FeeClose
    | FeeCancel
    | FeeOvernight
    | FillBuy
    | FillSell
    | ClosePnl
    | SpotExchange
    | Adjustment

  datatype TransactionError = BlankDescription

  datatype Transaction = Transaction(
    transactionId: Id,
    accountId: Id,
    runId: Id,
    timestamp: Timestamp,
    description: string,
    availableChange: real,
    unavailableChange: real,
    txType: TransactionType,
    orderId: Option<Id>)

  /** `__post_init__`: only the description is validated; either delta may
      have any sign. */
  function Create(d: Transaction): (r: Result<Transaction, TransactionError>)
    ensures r.Ok? <==> !IsBlank(d.description)
    ensures r.Ok? ==> r.value == d
    ensures r.Err? ==> r.error == BlankDescription
  {
    if IsBlank(d.description) then Err(BlankDescription) else Ok(d)
  }

  /** `total_balance_change`: the net effect on the account; 0 exactly when
      the transaction only moves money between the two components. */
  function TotalChange(t: Transaction): (c: real)
    ensures c == 0.0 <==> t.unavailableChange == -t.availableChange
    ensures t.availableChange >= 0.0 && t.unavailableChange >= 0.0 ==> c >= t.availableChange && c >= t.unavailableChange
  {
    t.availableChange + t.unavailableChange
  }

  /** Reserving margin moves money from available to unavailable and returning
      it moves it back: neither changes the total, and one undoes the other. */
  lemma MarginMovesConserveTotal(account: Id, run: Id, ts: Timestamp, x: real, desc: string)
    ensures TotalChange(Transaction(0, account, run, ts, desc, -x, x, ReserveMargin, None)) == 0.0
    ensures TotalChange(Transaction(0, account, run, ts, desc, x, -x, ReturnMargin, None)) == 0.0
    ensures var reserve := Transaction(0, account, run, ts, desc, -x, x, ReserveMargin, None);
            var ret := Transaction(1, account, run, ts, desc, x, -x, ReturnMargin, None);
            reserve.availableChange + ret.availableChange == 0.0
            && reserve.unavailableChange + ret.unavailableChange == 0.0
  {
  }

  /** Deltas of any sign are accepted: a description is all construction needs. */
  lemma AnySignAccepted(d: Transaction, a: real, u: real)
    requires Create(d).Ok?
    ensures Create(d.(availableChange := a, unavailableChange := u)).Ok?
    ensures TotalChange(Create(d.(availableChange := a, unavailableChange := u)).value) == a + u
  {
  }

  /** 50 + 30 = 80 and -100 + -50 = -150; an all-blank description fails. */
  lemma TotalChangeExample()
    ensures TotalChange(Transaction(0, 1, 2, 0, "Adjustment", 50.0, 30.0, Adjustment, None)) == 80.0
    ensures TotalChange(Transaction(0, 1, 2, 0, "Fees", -100.0, -50.0, FeeFill, None)) == -150.0
    ensures Create(Transaction(0, 1, 2, 0, "   ", 1.0, 0.0, Adjustment, None)) == Err(BlankDescription)
    ensures Create(Transaction(0, 1, 2, 0, "", 1.0, 0.0, Adjustment, None)) == Err(BlankDescription)
  {
  }
}
