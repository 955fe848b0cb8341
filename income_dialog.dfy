/** The "Add Income" dialog: its field state, the handlers that change it,
    and the confirm handler that validates the fields and builds the INCOME
    record handed to the repository. */
module AddIncomeDialog {
  import opened Data
  import opened Strings
  import opened Amounts
  import opened Dates

  /** The category dropdown's options. */
  const IncomeCategories: seq<string> := ["Salary", "Savings", "Investment", "Gift", "Other"]

  /** What confirm hands to `onAddTransaction`, from the field values at the
      click and the formatted current time `now`. */
  function IncomeConfirmation(amount: string, account: Option<Account>, category: Option<string>,
                              date: string, notes: string, now: string): (r: Option<TransactionData>)
    ensures r.Some? <==> ParseAmount(amount).Some? && account.Some? && category.Some?
    ensures r.Some? ==>
      r.value.kind == Income && Some(r.value.amount) == ParseAmount(amount) &&
      r.value.account == account.value.cardName && r.value.category == category.value &&
      r.value.notes == notes && r.value.targetAccount == None &&
      r.value.date == (if date == "" then now else date)
  {
    if AmountInvalid(amount) || account.None? || category.None? then None
    else
      var d := if date == "" then now else date;
      Some(TransactionData(Income, account.value.cardName, ParseAmount(amount).GetOr(0),
                           category.value, d, notes, None))
  }

  /** The record's date is never empty: it is the picked day, or the
      current time when no day was picked, and in both cases its day key is
      the day the user meant. */
  lemma IncomeDateNeverEmpty(amount: string, account: Option<Account>, category: Option<string>,
                             date: string, notes: string, now: string)
    requires date == "" || IsDayStamp(date)
    requires IsTimeStamp(now)
    ensures var r := IncomeConfirmation(amount, account, category, date, notes, now);
      r.Some? ==>
        r.value.date != "" &&
        (IsDayStamp(r.value.date) || IsTimeStamp(r.value.date)) &&
        DayKey(r.value.date) == (if date == "" then now[..10] else date)
  {
    DayKeyOfStamps(date);
    DayKeyOfStamps(now);
  }

  /** Only parseability is checked: every amount, zero and negative ones
      included, passes once an account and a category are selected. */
  lemma AnyAmountPasses(c: int, account: Account, category: string, date: string, notes: string, now: string)
    ensures var r := IncomeConfirmation(FormatAmount(c), Some(account), Some(category), date, notes, now);
      r.Some? && r.value.amount == c
  {
    ParseFormatRoundTrip(c);
  }

  class IncomeDialog {
    /** The accounts offered by the account dropdown. */
    const accounts: seq<Account>
    var amount: string
    var selectedAccount: Option<Account>
    var selectedCategory: Option<string>
    var date: string
    var notes: string
    var amountError: bool
    var accountError: bool
    var categoryError: bool

    /** Selections come from the dropdowns, the date is unset, a picked day
        or a confirm-time stamp, and each error flag is raised only while
        its field is wrong. A non-empty amount has been typed, so its flag
        is exactly its validity. */
    ghost predicate Valid()
      reads this
    {
      (selectedAccount.Some? ==> selectedAccount.value in accounts) &&
      (selectedCategory.Some? ==> selectedCategory.value in IncomeCategories) &&
      (date == "" || IsDayStamp(date) || IsTimeStamp(date)) &&
      (amountError ==> AmountInvalid(amount)) &&
      (amount != "" ==> amountError == AmountInvalid(amount)) &&
      (accountError ==> selectedAccount.None?) &&
      (categoryError ==> selectedCategory.None?)
    }

    constructor (accounts: seq<Account>)
      ensures Valid()
      ensures this.accounts == accounts
      ensures amount == "" && selectedAccount == None && selectedCategory == None
      ensures date == "" && notes == ""
      ensures !amountError && !accountError && !categoryError
    {
      this.accounts := accounts;
      amount := "";
      selectedAccount := None;
      selectedCategory := None;
      date := "";
      notes := "";
      amountError := false;
      accountError := false;
      categoryError := false;
    }

    /** The amount field's `onValueChange`. */
    method OnAmountChange(text: string)
      requires Valid()
      modifies this`amount, this`amountError
      ensures Valid()
      ensures amount == text && amountError == AmountInvalid(text)
    {
      amount := text;
      amountError := text == "" || ParseAmount(text).None?;
    }

    /** Picking the i-th account of the dropdown. */
    method SelectAccount(i: nat)
      requires Valid() && i < |accounts|
      modifies this`selectedAccount, this`accountError
      ensures Valid()
      ensures selectedAccount == Some(accounts[i]) && !accountError
    {
      selectedAccount := Some(accounts[i]);
      accountError := false;
    }

    /** Picking the i-th category of the dropdown. */
    method SelectCategory(i: nat)
      requires Valid() && i < |IncomeCategories|
      modifies this`selectedCategory, this`categoryError
      ensures Valid()
      ensures selectedCategory == Some(IncomeCategories[i]) && !categoryError
    {
      selectedCategory := Some(IncomeCategories[i]);
      categoryError := false;
    }

    /** The date picker's callback, with the picked day already formatted. */
    method PickDate(day: string)
      requires Valid() && IsDayStamp(day)
      modifies this`date
      ensures Valid()
      ensures date == day
    {
      date := day;
    }

    method OnNotesChange(text: string)
      requires Valid()
      modifies this`notes
      ensures Valid()
      ensures notes == text
    {
      notes := text;
    }

    /** The confirm button: recompute the three error flags and, when none
        is raised, fill in an unset date with `now` and emit the record. */
    method Confirm(now: string) returns (r: Option<TransactionData>)
      requires Valid() && IsTimeStamp(now)
      modifies this`amountError, this`accountError, this`categoryError, this`date
      ensures Valid()
      ensures r == IncomeConfirmation(amount, selectedAccount, selectedCategory, old(date), notes, now)
      ensures amountError == AmountInvalid(amount)
      ensures accountError == selectedAccount.None? && categoryError == selectedCategory.None?
      ensures date == if r.Some? then r.value.date else old(date)
      ensures r.Some? ==> r.value.category in IncomeCategories && selectedAccount.value in accounts
    {
      accountError := selectedAccount.None?;
      amountError := amount == "" || ParseAmount(amount).None?;
      categoryError := selectedCategory.None?;
      r := None;
      if !amountError && !accountError && !categoryError {
        if date == "" {
          date := now;
        }
        r := Some(TransactionData(Income, selectedAccount.value.cardName, ParseAmount(amount).GetOr(0),
                                  selectedCategory.value, date, notes, None));
      }
    }
  }
}
