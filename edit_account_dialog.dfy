/** The "Edit Account" dialog: the same fields as the add dialog, started
    from an existing account, and a save that copies that account with the
    edited fields. */
module EditAccountDialog {
  import opened Data
  import opened Strings
  import opened Amounts
  import opened CardFormat
  import AddAccountDialog

  /** `account.copy(...)` with the edited fields, when confirm saves. */
  function EditConfirmation(account: Account, name: string, category: string, number: string,
                            balance: string, color: string,
                            nameError: bool, balanceError: bool, numberError: bool): (r: Option<Account>)
    ensures r.Some? <==> name != "" && !nameError && !balanceError && !numberError
    ensures r.Some? ==>
      r.value.id == account.id && r.value.dateCreated == account.dateCreated &&
      r.value.cardName == name && r.value.cardCategory == category &&
      r.value.cardNumber == number && r.value.cardColor == color &&
      r.value.balance == ParseAmount(balance).GetOr(0)
  {
    if name == "" || nameError || balanceError || numberError then None
    else Some(account.(cardName := name, cardCategory := category, cardNumber := number,
                       balance := ParseAmount(balance).GetOr(0), cardColor := color))
  }

  /** How the flags relate to the fields. The balance text starts as a
      parseable rendering of the stored balance and every edit sets its flag
      to its validity, so the flag is exactly "does not parse". The name and
      number start from the stored account, so only edits constrain them. */
  predicate FieldsConsistent(name: string, nameError: bool, balance: string, balanceError: bool,
                             number: string, numberError: bool) {
    (nameError ==> IsBlank(name)) &&
    balanceError == ParseAmount(balance).None? &&
    (numberError ==> AllDigits(number) && |number| < 16)
  }

  /** A save writes the parsed balance text: the `?: 0.0` fallback never
      applies, because an unparseable balance blocks the save. */
  lemma SavedBalanceIsParsed(account: Account, name: string, category: string, number: string,
                             balance: string, color: string,
                             nameError: bool, balanceError: bool, numberError: bool)
    requires FieldsConsistent(name, nameError, balance, balanceError, number, numberError)
    ensures var r := EditConfirmation(account, name, category, number, balance, color,
                                      nameError, balanceError, numberError);
      (ParseAmount(balance).None? ==> r == None) &&
      (r.Some? ==> Some(r.value.balance) == ParseAmount(balance))
  {
  }

  /** Confirming without edits saves exactly the account the dialog was
      opened on (when its name is not empty). */
  lemma UneditedSaveIsIdentity(account: Account)
    requires account.cardName != ""
    ensures EditConfirmation(account, account.cardName, account.cardCategory, account.cardNumber,
                             FormatAmount(account.balance), account.cardColor,
                             false, false, false) == Some(account)
  {
    ParseFormatRoundTrip(account.balance);
  }

  class EditDialog {
    /** The account being edited. */
    const account: Account
    var name: string
    var category: string
    var color: string
    var number: string
    var balance: string
    var nameError: bool
    var balanceError: bool
    var numberError: bool

    ghost predicate Valid()
      reads this
    {
      FieldsConsistent(name, nameError, balance, balanceError, number, numberError)
    }

    /** The fields start from the account; the balance as its text. */
    constructor (account: Account)
      ensures Valid()
      ensures this.account == account
      ensures name == account.cardName && category == account.cardCategory
      ensures color == account.cardColor && number == account.cardNumber
      ensures balance == FormatAmount(account.balance)
      ensures !nameError && !balanceError && !numberError
    {
      this.account := account;
      name := account.cardName;
      category := account.cardCategory;
      color := account.cardColor;
      number := account.cardNumber;
      balance := FormatAmount(account.balance);
      nameError := false;
      balanceError := false;
      numberError := false;
      ParseFormatRoundTrip(account.balance);
    }

    method OnNameChange(text: string)
      requires Valid()
      modifies this`name, this`nameError
      ensures Valid()
      ensures name == text && nameError == IsBlank(text)
    {
      name := text;
      nameError := IsBlank(text);
    }

    method OnBalanceChange(text: string)
      requires Valid()
      modifies this`balance, this`balanceError
      ensures Valid()
      ensures balance == text && balanceError == ParseAmount(text).None?
    {
      balance := text;
      balanceError := ParseAmount(text).None?;
    }

    method SelectColor(i: nat)
      requires Valid() && i < |AddAccountDialog.ColorOptions|
      modifies this`color
      ensures Valid()
      ensures color == AddAccountDialog.ColorOptions[i]
    {
      color := AddAccountDialog.ColorOptions[i];
    }

    method SelectCategory(i: nat)
      requires Valid() && i < |AddAccountDialog.AccountCategories|
      modifies this`category
      ensures Valid()
      ensures category == AddAccountDialog.AccountCategories[i]
    {
      category := AddAccountDialog.AccountCategories[i];
    }

    /** The card-number field, shown only for "Bank". */
    method OnNumberChange(input: string)
      requires Valid() && category == "Bank"
      modifies this`number, this`numberError
      ensures Valid()
      ensures number == FilterCardNumber(input) && numberError == (|number| != 16)
      ensures AllDigits(number) && |number| <= 16
    {
      number := FilterCardNumber(input);
      numberError := |number| != 16;
    }

    /** The save button: an empty name raises its flag; otherwise, with no
        flag raised, the edited copy is handed to `onSaveChanges`. */
    method Confirm() returns (r: Option<Account>)
      requires Valid()
      modifies this`nameError
      ensures Valid()
      ensures nameError == (old(nameError) || name == "")
      ensures r == EditConfirmation(account, name, category, number, balance, color,
                                    old(nameError), balanceError, numberError)
    {
      r := None;
      if name == "" {
        nameError := true;
      } else if !nameError && !balanceError && !numberError {
        r := Some(account.(cardName := name, cardCategory := category, cardNumber := number,
                           balance := ParseAmount(balance).GetOr(0), cardColor := color));
      }
    }
  }
}
