/** The pure rules of the accounts carousel: which icon a card shows, which
    gradient its colour name selects, and the "add" sentinel card. */
module AccountsSection {
  import opened Data
  import opened Strings

  datatype CardImage = CashIcon | VisaIcon | MastercardIcon

  datatype Gradient = GreenGradient | PurpleGradient | OrangeGradient | BlueGradient | GrayGradient

  /** Kotlin `startsWith`. */
  predicate StartsWith(s: string, prefix: string) {
    |prefix| <= |s| && forall j :: 0 <= j < |prefix| ==> s[j] == prefix[j]
  }

  /** The `startsWith` alternatives of the Mastercard branch, as written. */
  predicate HasMastercardPrefix(n: string) {
    StartsWith(n, "51") || StartsWith(n, "52") ||
    StartsWith(n, "53") || StartsWith(n, "54") ||
    StartsWith(n, "55") || StartsWith(n, "2221") ||
    StartsWith(n, "2222") || StartsWith(n, "2223") ||
    StartsWith(n, "2224") || StartsWith(n, "2225") ||
    StartsWith(n, "2226") || StartsWith(n, "2227") ||
    StartsWith(n, "2228") || StartsWith(n, "2229") ||
    StartsWith(n, "223") || StartsWith(n, "224") ||
    StartsWith(n, "225") || StartsWith(n, "226") ||
    StartsWith(n, "227") || StartsWith(n, "228") ||
    StartsWith(n, "229") || StartsWith(n, "23") ||
    StartsWith(n, "24") || StartsWith(n, "25") ||
    StartsWith(n, "26") || StartsWith(n, "270") ||
    StartsWith(n, "271") || StartsWith(n, "2720")
  }

  /** `detectCardImageResource`: "Cash" shows the cash icon, "Card" is
      classified by number prefix, and every other category (the dialogs'
      "Bank" and "Other" included) falls back to Visa. */
  function DetectCardImage(card: Account): CardImage {
    if card.cardCategory == "Cash" then CashIcon
    else if card.cardCategory == "Card" then
      if StartsWith(card.cardNumber, "4") then VisaIcon
      else if HasMastercardPrefix(card.cardNumber) then MastercardIcon
      else VisaIcon
    else VisaIcon
  }

  lemma CashIsAlwaysCash(card: Account)
    requires card.cardCategory == "Cash"
    ensures DetectCardImage(card) == CashIcon
  {
  }

  lemma NonCardCategoriesShowVisa(card: Account)
    requires card.cardCategory != "Cash" && card.cardCategory != "Card"
    ensures DetectCardImage(card) == VisaIcon
  {
  }

  function DigitAt(n: string, i: nat): int
    requires i < |n|
  {
    n[i] as int - '0' as int
  }

  /** The prefix list read character by character on a number of at least
      four characters. */
  lemma {:induction false} MastercardPrefixChars(n: string)
    requires |n| >= 4
    ensures HasMastercardPrefix(n) <==>
      (n[0] == '5' && '1' <= n[1] <= '5') ||
      (n[0] == '2' && n[1] == '2' && n[2] == '2' && '1' <= n[3] <= '9') ||
      (n[0] == '2' && n[1] == '2' && '3' <= n[2] <= '9') ||
      (n[0] == '2' && '3' <= n[1] <= '6') ||
      (n[0] == '2' && n[1] == '7' && '0' <= n[2] <= '1') ||
      (n[0] == '2' && n[1] == '7' && n[2] == '2' && n[3] == '0')
  {
  }

  /** The prefix alternatives on four digits, as the two Mastercard
      ranges 51..55 and 2221..2720. */
  lemma MastercardRanges(d0: int, d1: int, d2: int, d3: int)
    requires 0 <= d0 <= 9 && 0 <= d1 <= 9 && 0 <= d2 <= 9 && 0 <= d3 <= 9
    ensures
      ((d0 == 5 && 1 <= d1 <= 5) ||
       (d0 == 2 && d1 == 2 && d2 == 2 && 1 <= d3 <= 9) ||
       (d0 == 2 && d1 == 2 && 3 <= d2 <= 9) ||
       (d0 == 2 && 3 <= d1 <= 6) ||
       (d0 == 2 && d1 == 7 && 0 <= d2 <= 1) ||
       (d0 == 2 && d1 == 7 && d2 == 2 && d3 == 0))
      <==>
      (51 <= 10 * d0 + d1 <= 55 || 2221 <= 1000 * d0 + 100 * d1 + 10 * d2 + d3 <= 2720)
  {
    if d0 == 2 {
      if d1 == 2 {
        assert 1000 * d0 + 100 * d1 + 10 * d2 + d3 == 2200 + 10 * d2 + d3;
      } else if d1 == 7 {
        assert 1000 * d0 + 100 * d1 + 10 * d2 + d3 == 2700 + 10 * d2 + d3;
      }
    }
  }

  /** The prefix list is the Mastercard ranges 51-55 and 2221-2720: for a
      "Card" number whose first four characters are digits, the icon is Mastercard exactly
      when the number does not start with 4 and its first two digits are in
      51..55 or its first four in 2221..2720; otherwise it is Visa. */
  lemma CardBrandByRange(card: Account)
    requires card.cardCategory == "Card"
    requires |card.cardNumber| >= 4
    requires forall i :: 0 <= i < 4 ==> IsDigit(card.cardNumber[i])
    ensures var n := card.cardNumber;
      var first2 := 10 * DigitAt(n, 0) + DigitAt(n, 1);
      var first4 := 100 * first2 + 10 * DigitAt(n, 2) + DigitAt(n, 3);
      DetectCardImage(card) == MastercardIcon <==>
        n[0] != '4' && (51 <= first2 <= 55 || 2221 <= first4 <= 2720)
    ensures DetectCardImage(card) == VisaIcon || DetectCardImage(card) == MastercardIcon
  {
    var n := card.cardNumber;
    assert IsDigit(n[0]) && IsDigit(n[1]) && IsDigit(n[2]) && IsDigit(n[3]);
    var d0, d1, d2, d3 := DigitAt(n, 0), DigitAt(n, 1), DigitAt(n, 2), DigitAt(n, 3);
    MastercardPrefixChars(n);
    MastercardRanges(d0, d1, d2, d3);
    assert HasMastercardPrefix(n) <==>
      ((d0 == 5 && 1 <= d1 <= 5) ||
       (d0 == 2 && d1 == 2 && d2 == 2 && 1 <= d3 <= 9) ||
       (d0 == 2 && d1 == 2 && 3 <= d2 <= 9) ||
       (d0 == 2 && 3 <= d1 <= 6) ||
       (d0 == 2 && d1 == 7 && 0 <= d2 <= 1) ||
       (d0 == 2 && d1 == 7 && d2 == 2 && d3 == 0));
    assert StartsWith(n, "4") <==> n[0] == '4';
  }

  /** `getGradientByColorName`: the four known names in any letter case;
      every other name gives gray. */
  function GradientByColorName(colorName: string): Gradient {
    match Lower(colorName)
    case "green" => GreenGradient
    case "purple" => PurpleGradient
    case "orange" => OrangeGradient
    case "blue" => BlueGradient
    case _ => GrayGradient
  }

  lemma GradientIgnoresCase(a: string, b: string)
    requires Lower(a) == Lower(b)
    ensures GradientByColorName(a) == GradientByColorName(b)
  {
  }

  lemma GrayExactlyForUnknownNames(colorName: string)
    ensures GradientByColorName(colorName) == GrayGradient <==>
      Lower(colorName) !in {"green", "purple", "orange", "blue"}
  {
  }

  /** The dialogs' colour options each select their own gradient. This
      covers only the four literal options; the general facts about the
      lookup are `GradientIgnoresCase` and `GrayExactlyForUnknownNames`. */
  lemma DialogColorsSelectGradients()
    ensures GradientByColorName("Green") == GreenGradient
    ensures GradientByColorName("Blue") == BlueGradient
    ensures GradientByColorName("Orange") == OrangeGradient
    ensures GradientByColorName("Purple") == PurpleGradient
  {
    LowerGreen();
    LowerBlue();
    LowerOrange();
    LowerPurple();
  }

  lemma LowerGreen()
    ensures Lower("Green") == "green"
  {
    var r := Lower("Green");
    assert r[0] == 'g' && r[1] == 'r' && r[2] == 'e' && r[3] == 'e' && r[4] == 'n';
  }

  lemma LowerBlue()
    ensures Lower("Blue") == "blue"
  {
    var r := Lower("Blue");
    assert r[0] == 'b' && r[1] == 'l' && r[2] == 'u' && r[3] == 'e';
  }

  lemma LowerOrange()
    ensures Lower("Orange") == "orange"
  {
    var r := Lower("Orange");
    assert r[0] == 'o' && r[1] == 'r' && r[2] == 'a' && r[3] == 'n' && r[4] == 'g' && r[5] == 'e';
  }

  lemma LowerPurple()
    ensures Lower("Purple") == "purple"
  {
    var r := Lower("Purple");
    assert r[0] == 'p' && r[1] == 'u' && r[2] == 'r' && r[3] == 'p' && r[4] == 'l' && r[5] == 'e';
  }

  /** The add dialog's untouched placeholder "Select Color" gives gray. */
  lemma PlaceholderColorIsGray(placeholder: string)
    requires placeholder == "Select Color"
    ensures GradientByColorName(placeholder) == GrayGradient
  {
    var r := Lower(placeholder);
    assert r[0] == LowerChar(placeholder[0]) == 's';
    assert r[0] != "green"[0] && r[0] != "purple"[0] && r[0] != "orange"[0] && r[0] != "blue"[0];
  }

  /** `ADD_CARD`, appended to the list shown in the carousel. */
  const AddCard: Account := Account("9999", "ADD", "", "", 0, "Gray", 0)

  datatype CardClick = OpenAddDialog | OpenDetails(accountId: string)

  /** What a tap on a card does. */
  function OnCardClick(card: Account): (r: CardClick)
    ensures r == OpenAddDialog <==> card.id == "9999"
    ensures r.OpenDetails? ==> r.accountId == card.id
  {
    if card.id == "9999" then OpenAddDialog else OpenDetails(card.id)
  }

  lemma AddCardOpensDialog()
    ensures OnCardClick(AddCard) == OpenAddDialog
    ensures AddCard.cardCategory == "ADD"
  {
  }
}
