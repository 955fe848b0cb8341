/** The persisted document shapes: an account card and a ledger record.
    Money is held in integer cents instead of `Double`, and
    `dateCreated` in milliseconds. */
module Data {

  datatype Option<T> = None | Some(value: T) {
    function GetOr(default: T): T {
      match this
      case Some(v) => v
      case None => default
    }
  }

  /** An account card, keyed in the store by `id`. */
  datatype Account = Account(
    id: string,
    cardCategory: string,
    cardNumber: string,
    cardName: string,
    balance: int,
    cardColor: string,
    dateCreated: int)

  datatype TransactionType = Income | Expense | Transfer | TransferIncoming | TransferOutgoing

  /** A ledger record. `account` and `targetAccount` hold account NAMES,
      not ids. The Kotlin field `type` is called `kind` here. */
  datatype TransactionData = TransactionData(
    kind: TransactionType,
    account: string,
    amount: int,
    category: string,
    date: string,
    notes: string,
    targetAccount: Option<string>)

  /** The change a record of this kind stands for in the balance of the
      account it names: credits add, debits subtract, and a plain TRANSFER
      record (the dialog's request, never stored) moves nothing. */
  function SignedAmount(t: TransactionData): (r: int)
    ensures t.kind in {Income, TransferIncoming} ==> r == t.amount
    ensures t.kind in {Expense, TransferOutgoing} ==> r == -t.amount
    ensures t.kind == Transfer ==> r == 0
  {
    match t.kind
    case Income => t.amount
    case TransferIncoming => t.amount
    case Expense => -t.amount
    case TransferOutgoing => -t.amount
    case Transfer => 0
  }
}
