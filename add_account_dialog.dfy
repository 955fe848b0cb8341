/** The "Add New Account" dialog: name, balance, colour, category and card
    number fields with their error flags, and the confirm handler that builds
    the new account card. */
module AddAccountDialog {
  import opened Data
  import opened Strings
  import opened Amounts
  import opened CardFormat
  import AccountsSection

  const AccountCategories: seq<string> := ["Bank", "Cash", "Other"]
  const ColorOptions: seq<string> := ["Green", "Blue", "Orange", "Purple"]

  /** The text under an invalid card number. */
  function NumberErrorMessage(number: string): string {
    if |number| < 13 then "Card Number must be at least 13 digits"
    else if |number| > 16 then "Card Number must be 16 digits or less"
    else "Invalid Card Number"
  }

  /** The number is cut to 16 digits before it is stored, so the "16 digits
      or less" message can never be shown. */
  lemma SixteenOrLessUnreachable(input: string)
    ensures NumberErrorMessage(FilterCardNumber(input)) != "Card Number must be 16 digits or less"
  {
  }

  /** How the error flags relate to their fields while the dialog is open.
      A flag is raised only while its field is wrong; a field that is no
      longer empty has been edited, and every edit set its flag to exactly
      the field's validity. The number holds at most 16 digits. */
  predicate FieldsConsistent(name: string, nameError: bool, balance: string, balanceError: bool,
                             number: string, numberError: bool) {
    (nameError ==> IsBlank(name)) &&
    (name != "" ==> nameError == IsBlank(name)) &&
    (balanceError ==> ParseAmount(balance).None?) &&
    (balance != "" ==> balanceError == ParseAmount(balance).None?) &&
    AllDigits(number) && |number| <= 16 &&
    (numberError ==> |number| != 16) &&
    (number != "" ==> numberError == (|number| != 16))
  }

  /** What confirm hands to `onAddAccount` when it emits, with the generated
      `id` and the clock reading `now` as parameters. */
  function AddAccountConfirmation(name: string, category: string, number: string, balance: string,
                                  color: string, nameError: bool, balanceError: bool, numberError: bool,
                                  id: string, now: int): (r: Option<Account>)
    ensures r.Some? <==> name != "" && !nameError && !balanceError && !numberError
    ensures r.Some? ==>
      r.value.id == id && r.value.dateCreated == now && r.value.cardName == name &&
      r.value.cardCategory == category && r.value.cardNumber == number &&
      r.value.cardColor == color && r.value.balance == ParseAmount(balance).GetOr(0)
  {
    if name == "" || nameError || balanceError || numberError then None
    else Some(Account(id, category, number, name, ParseAmount(balance).GetOr(0), color, now))
  }

  /** An account the dialog emits has a name that is not blank, a card
      number that is empty or exactly 16 digits, and the typed balance, or 0
      when the balance field was never touched. */
  lemma ConfirmedAccountIsWellFormed(name: string, category: string, number: string, balance: string,
                                     color: string, nameError: bool, balanceError: bool, numberError: bool,
                                     id: string, now: int)
    requires FieldsConsistent(name, nameError, balance, balanceError, number, numberError)
    ensures var r := AddAccountConfirmation(name, category, number, balance, color,
                                            nameError, balanceError, numberError, id, now);
      r.Some? ==>
        !IsBlank(r.value.cardName) &&
        AllDigits(r.value.cardNumber) && (|r.value.cardNumber| == 0 || |r.value.cardNumber| == 16) &&
        (balance == "" ==> r.value.balance == 0) &&
        (balance != "" ==> Some(r.value.balance) == ParseAmount(balance))
  {
  }

  /** The dialog offers "Bank", "Cash" and "Other", and the icon rule tests
      "Card": no account created here is ever shown as Mastercard. */
  lemma NoDialogAccountIsMastercard(a: Account)
    requires a.cardCategory in AccountCategories
    ensures AccountsSection.DetectCardImage(a) != AccountsSection.MastercardIcon
    ensures a.cardCategory == "Cash" <==> AccountsSection.DetectCardImage(a) == AccountsSection.CashIcon
  {
  }

  class AccountDialog {
    var name: string
    var category: string
    var color: string
    var number: string
    var balance: string
    var nameError: bool
    var balanceError: bool
    var numberError: bool

    ghost predicate Valid()
      reads this
    {
      category in AccountCategories &&
      (color == "Select Color" || color in ColorOptions) &&
      FieldsConsistent(name, nameError, balance, balanceError, number, numberError)
    }

    constructor ()
      ensures Valid()
      ensures name == "" && category == "Cash" && color == "Select Color"
      ensures number == "" && balance == ""
      ensures !nameError && !balanceError && !numberError
    {
      name := "";
      category := "Cash";
      color := "Select Color";
      number := "";
      balance := "";
      nameError := false;
      balanceError := false;
      numberError := false;
    }

    method OnNameChange(text: string)
      requires Valid()
      modifies this`name, this`nameError
      ensures Valid()
      ensures name == text && nameError == IsBlank(text)
    {
      name := text;
      nameError := IsBlank(text);
    }

    method OnBalanceChange(text: string)
      requires Valid()
      modifies this`balance, this`balanceError
      ensures Valid()
      ensures balance == text && balanceError == ParseAmount(text).None?
    {
      balance := text;
      balanceError := ParseAmount(text).None?;
    }

    method SelectColor(i: nat)
      requires Valid() && i < |ColorOptions|
      modifies this`color
      ensures Valid()
      ensures color == ColorOptions[i]
    {
      color := ColorOptions[i];
    }

    /** A category button. The number and its flag are kept when the
        category changes. */
    method SelectCategory(i: nat)
      requires Valid() && i < |AccountCategories|
      modifies this`category
      ensures Valid()
      ensures category == AccountCategories[i]
    {
      category := AccountCategories[i];
    }

    /** The card-number field, shown only for "Bank". */
    method OnNumberChange(input: string)
      requires Valid() && category == "Bank"
      modifies this`number, this`numberError
      ensures Valid()
      ensures number == FilterCardNumber(input) && numberError == (|number| != 16)
    {
      number := FilterCardNumber(input);
      numberError := |number| != 16;
    }

    /** The confirm button: an empty name raises its flag; otherwise, with
        no flag raised, the account is emitted. */
    method Confirm(id: string, now: int) returns (r: Option<Account>)
      requires Valid()
      modifies this`nameError
      ensures Valid()
      ensures nameError == (old(nameError) || name == "")
      ensures r == AddAccountConfirmation(name, category, number, balance, color,
                                          old(nameError), balanceError, numberError, id, now)
    {
      r := None;
      if name == "" {
        nameError := true;
      } else if !nameError && !balanceError && !numberError {
        r := Some(Account(id, category, number, name, ParseAmount(balance).GetOr(0), color, now));
      }
    }
  }
}
