/**
 * Pure rules over a goal's fields: the discount title shown to shoppers, the
 * discount value a tier uses, and validation of the fields before a discount
 * is created. Validation reports the first rule that fails, in a fixed order.
 */
module DiscountHelpers {
  import opened JsValues
  import opened Tiers

  /** The fields of a goal the rules read; each may be a number, undefined or null. */
  datatype DiscountData = DiscountData(
    spendingGoal: Value,
    selectedTab: Value,
    percentageDiscount: Value,
    fixedAmountDiscount: Value)

  /** Validation passes, or throws an Error with this message. */
  datatype Verdict = Accepted | Rejected(message: string)

  const InvalidGoal := "Invalid spending goal"
  const InvalidPercentage := "Invalid percentage discount"
  const InvalidFixedAmount := "Invalid fixed amount discount"

  /** "Spend {goal} to get {reward}", the reward chosen by the tab with strict equality. */
  function DiscountTitle(d: DiscountData): (title: string)
    ensures TierOfValue(d.selectedTab) == Some(FreeShipping) ==>
      title == "Spend " + Show(d.spendingGoal) + " to get free shipping"
    ensures TierOfValue(d.selectedTab) == Some(Percentage) ==>
      title == "Spend " + Show(d.spendingGoal) + " to get " + Show(d.percentageDiscount) + "% off"
    ensures TierOfValue(d.selectedTab) !in [Some(FreeShipping), Some(Percentage)] ==>
      title == "Spend " + Show(d.spendingGoal) + " to get $" + Show(d.fixedAmountDiscount) + " off"
  {
    "Spend " + Show(d.spendingGoal) + " to get " +
      (if d.selectedTab == Numeric(Num(0)) then "free shipping"
       else if d.selectedTab == Numeric(Num(1)) then Show(d.percentageDiscount) + "% off"
       else "$" + Show(d.fixedAmountDiscount) + " off")
  }

  /** The amount the tier discounts by: the percentage, the fixed amount, or null. */
  function DiscountValue(d: DiscountData): (v: Value)
    ensures TierOfValue(d.selectedTab) == Some(Percentage) ==> v == d.percentageDiscount
    ensures TierOfValue(d.selectedTab) == Some(FixedAmount) ==> v == d.fixedAmountDiscount
    ensures TierOfValue(d.selectedTab) !in [Some(Percentage), Some(FixedAmount)] ==> v == Null
  {
    if d.selectedTab == Numeric(Num(1)) then d.percentageDiscount
    else if d.selectedTab == Numeric(Num(2)) then d.fixedAmountDiscount
    else Null
  }

  /**
   * The goal amount is checked first, then the tier's own amount; a missing,
   * NaN, zero or negative amount is rejected. Free shipping needs no amount.
   */
  function ValidateDiscountData(d: DiscountData): (v: Verdict)
    ensures v == Rejected(InvalidGoal) <==> !IsPositive(d.spendingGoal)
    ensures IsPositive(d.spendingGoal) && TierOfValue(d.selectedTab) == Some(Percentage) ==>
      (v == Rejected(InvalidPercentage) <==> !IsPositive(d.percentageDiscount))
    ensures IsPositive(d.spendingGoal) && TierOfValue(d.selectedTab) == Some(FixedAmount) ==>
      (v == Rejected(InvalidFixedAmount) <==> !IsPositive(d.fixedAmountDiscount))
    ensures v == Accepted <==>
      && IsPositive(d.spendingGoal)
      && (TierOfValue(d.selectedTab) == Some(Percentage) ==> IsPositive(d.percentageDiscount))
      && (TierOfValue(d.selectedTab) == Some(FixedAmount) ==> IsPositive(d.fixedAmountDiscount))
  {
    if !IsTruthyValue(d.spendingGoal) || AtMostZero(d.spendingGoal) then
      Rejected(InvalidGoal)
    else if d.selectedTab == Numeric(Num(1))
      && (!IsTruthyValue(d.percentageDiscount) || AtMostZero(d.percentageDiscount)) then
      Rejected(InvalidPercentage)
    else if d.selectedTab == Numeric(Num(2))
      && (!IsTruthyValue(d.fixedAmountDiscount) || AtMostZero(d.fixedAmountDiscount)) then
      Rejected(InvalidFixedAmount)
    else
      Accepted
  }

  /** A free-shipping goal with a positive amount passes whatever its other amounts hold. */
  lemma FreeShippingIgnoresAmounts(d: DiscountData, percentage: Value, fixedAmount: Value)
    requires TierOfValue(d.selectedTab) == Some(FreeShipping) && IsPositive(d.spendingGoal)
    ensures ValidateDiscountData(d.(percentageDiscount := percentage, fixedAmountDiscount := fixedAmount)) == Accepted
  {
  }

  /**
   * What validation guarantees for the other two rules: an accepted goal has a
   * positive amount, and its discount value is null exactly when the tab is not
   * the percentage or fixed-amount tab, and positive otherwise.
   */
  lemma AcceptedHasPositiveValue(d: DiscountData)
    requires ValidateDiscountData(d) == Accepted
    ensures IsPositive(d.spendingGoal)
    ensures DiscountValue(d) == Null <==> TierOfValue(d.selectedTab) !in [Some(Percentage), Some(FixedAmount)]
    ensures DiscountValue(d) != Null ==> IsPositive(DiscountValue(d))
  {
  }

  /** On the two valued tiers the title names the discount value. */
  lemma TitleNamesValue(d: DiscountData)
    ensures TierOfValue(d.selectedTab) == Some(Percentage) ==>
      DiscountTitle(d) == "Spend " + Show(d.spendingGoal) + " to get " + Show(DiscountValue(d)) + "% off"
    ensures TierOfValue(d.selectedTab) == Some(FixedAmount) ==>
      DiscountTitle(d) == "Spend " + Show(d.spendingGoal) + " to get $" + Show(DiscountValue(d)) + " off"
  {
  }

  /** Three worked titles, one per tier. */
  lemma TitleExamples()
    ensures DiscountTitle(DiscountData(Numeric(Num(50)), Numeric(Num(1)), Numeric(Num(10)), Undefined))
      == "Spend 50 to get 10% off"
    ensures DiscountTitle(DiscountData(Numeric(Num(20)), Numeric(Num(0)), Undefined, Undefined))
      == "Spend 20 to get free shipping"
    ensures DiscountTitle(DiscountData(Numeric(Num(30)), Numeric(Num(2)), Undefined, Numeric(Num(5))))
      == "Spend 30 to get $5 off"
  {
    PercentageExample();
    FreeShippingExample();
    FixedAmountExample();
  }

  lemma PercentageExample()
    ensures DiscountTitle(DiscountData(Numeric(Num(50)), Numeric(Num(1)), Numeric(Num(10)), Undefined))
      == "Spend 50 to get 10% off"
  {
    TensText(5);
    TensText(1);
  }

  lemma FreeShippingExample()
    ensures DiscountTitle(DiscountData(Numeric(Num(20)), Numeric(Num(0)), Undefined, Undefined))
      == "Spend 20 to get free shipping"
  {
    TensText(2);
  }

  lemma FixedAmountExample()
    ensures DiscountTitle(DiscountData(Numeric(Num(30)), Numeric(Num(2)), Undefined, Numeric(Num(5))))
      == "Spend 30 to get $5 off"
  {
    TensText(3);
    assert Digits(5) == "5";
  }

  /** The text of a whole number of tens below one hundred. */
  lemma TensText(t: nat)
    requires 0 < t < 10
    ensures Format(Num(10 * t)) == [DigitChar(t), '0']
  {
    assert Digits(10 * t) == Digits(t) + [DigitChar(0)];
  }
}
