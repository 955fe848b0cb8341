/** The "Transfer Funds" dialog: two account dropdowns and an amount field,
    and the confirm handler that builds the TRANSFER request record. */
module AddTransferDialog {
  import opened Data
  import opened Amounts
  import opened Dates

  /** What confirm hands to `onAddTransaction`, from the field values at the
      click and the formatted current time `now`. */
  function TransferConfirmation(amount: string, source: Option<Account>, target: Option<Account>,
                                now: string): (r: Option<TransactionData>)
    ensures r.Some? <==> ParseAmount(amount).Some? && source.Some? && target.Some?
    ensures r.Some? ==>
      r.value.kind == Transfer && Some(r.value.amount) == ParseAmount(amount) &&
      r.value.category == "Transfer" && r.value.date == now &&
      r.value.account == source.value.cardName &&
      r.value.targetAccount == Some(target.value.cardName) &&
      r.value.notes == "Transfer to " + target.value.cardName
  {
    if AmountInvalid(amount) || source.None? || target.None? then None
    else
      Some(TransactionData(Transfer, source.value.cardName, ParseAmount(amount).GetOr(0), "Transfer",
                           now, "Transfer to " + target.value.cardName, Some(target.value.cardName)))
  }

  /** Nothing compares the two selections or the amount's sign: a transfer
      from an account to itself, of any amount, passes the dialog. */
  lemma SelfTransferPassesDialog(a: Account, c: int, now: string)
    ensures var r := TransferConfirmation(FormatAmount(c), Some(a), Some(a), now);
      r.Some? && r.value.amount == c && r.value.account == a.cardName &&
      r.value.targetAccount == Some(a.cardName)
  {
    ParseFormatRoundTrip(c);
  }

  /** The request's date is a time stamp whose day is the day of `now`. */
  lemma TransferDateIsNow(amount: string, source: Option<Account>, target: Option<Account>, now: string)
    requires IsTimeStamp(now)
    ensures var r := TransferConfirmation(amount, source, target, now);
      r.Some? ==> IsTimeStamp(r.value.date) && DayKey(r.value.date) == now[..10]
  {
    DayKeyOfStamps(now);
  }

  class TransferDialog {
    /** The accounts offered by both dropdowns. */
    const accounts: seq<Account>
    var amount: string
    var selectedSource: Option<Account>
    var selectedTarget: Option<Account>
    var amountError: bool
    var sourceAccountError: bool
    var targetAccountError: bool

    /** Selections come from the dropdown, and an account flag is raised
        only while its account is missing. The amount flag has no such
        invariant: it is recomputed only on confirm. */
    ghost predicate Valid()
      reads this
    {
      (selectedSource.Some? ==> selectedSource.value in accounts) &&
      (selectedTarget.Some? ==> selectedTarget.value in accounts) &&
      (sourceAccountError ==> selectedSource.None?) &&
      (targetAccountError ==> selectedTarget.None?)
    }

    constructor (accounts: seq<Account>)
      ensures Valid()
      ensures this.accounts == accounts
      ensures amount == "" && selectedSource == None && selectedTarget == None
      ensures !amountError && !sourceAccountError && !targetAccountError
    {
      this.accounts := accounts;
      amount := "";
      selectedSource := None;
      selectedTarget := None;
      amountError := false;
      sourceAccountError := false;
      targetAccountError := false;
    }

    /** Typing changes the text only; a shown amount error stays shown,
        and a missing one stays missing, until the next confirm. */
    method OnAmountChange(text: string)
      requires Valid()
      modifies this`amount
      ensures Valid()
      ensures amount == text && amountError == old(amountError)
    {
      amount := text;
    }

    method SelectSource(i: nat)
      requires Valid() && i < |accounts|
      modifies this`selectedSource, this`sourceAccountError
      ensures Valid()
      ensures selectedSource == Some(accounts[i]) && !sourceAccountError
    {
      selectedSource := Some(accounts[i]);
      sourceAccountError := false;
    }

    /** `onTargetAccountSelected`. */
    method SelectTarget(i: nat)
      requires Valid() && i < |accounts|
      modifies this`selectedTarget, this`targetAccountError
      ensures Valid()
      ensures selectedTarget == Some(accounts[i]) && !targetAccountError
    {
      selectedTarget := Some(accounts[i]);
      targetAccountError := false;
    }

    /** The confirm button: recompute the three flags and, when none is
        raised, emit the request. */
    method Confirm(now: string) returns (r: Option<TransactionData>)
      requires Valid()
      modifies this`amountError, this`sourceAccountError, this`targetAccountError
      ensures Valid()
      ensures r == TransferConfirmation(amount, selectedSource, selectedTarget, now)
      ensures amountError == AmountInvalid(amount)
      ensures sourceAccountError == selectedSource.None? && targetAccountError == selectedTarget.None?
    {
      sourceAccountError := selectedSource.None?;
      targetAccountError := selectedTarget.None?;
      amountError := amount == "" || ParseAmount(amount).None?;
      r := None;
      if !amountError && !sourceAccountError && !targetAccountError {
        r := Some(TransactionData(Transfer, selectedSource.value.cardName, ParseAmount(amount).GetOr(0),
                                  "Transfer", now, "Transfer to " + selectedTarget.value.cardName,
                                  Some(selectedTarget.value.cardName)));
      }
    }
  }
}
