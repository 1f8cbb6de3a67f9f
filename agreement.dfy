/**
 * How the four places that map a tier tab to a discount relate: the helper's
 * discount value, the two gateway configurations and the cart route's price
 * rule agree on tabs 0, 1 and 2, and part ways on any other tab. Also how the
 * create handler's own guard relates to the helper's validation.
 */
module Agreement {
  import opened JsValues
  import opened Tiers
  import DiscountHelpers
  import DiscountsJs
  import DiscountsJsx
  import DiscountHandlers
  import CartRoute

  /** On a known tab, every mapping picks the same reward and carries the same amount. */
  lemma KnownTabsAgree(tab: Number, goal: Number, percentage: Number, fixedAmount: Number, title: Option<string>)
    requires TierOf(tab).Some?
    ensures
      var d := DiscountHelpers.DiscountData(Numeric(goal), Numeric(tab), Numeric(percentage), Numeric(fixedAmount));
      var value := DiscountHelpers.DiscountValue(d);
      var js := DiscountsJs.CustomerGetsFor(tab, if tab == Num(1) then percentage else fixedAmount);
      var jsx := DiscountsJsx.CustomerGetsFor(DiscountsJsx.GoalInput(title, goal, tab, percentage, fixedAmount));
      var rule := CartRoute.PriceRuleFor(CartRoute.CartGoal(None, goal, None, tab, None, Numeric(percentage), Numeric(fixedAmount)));
      && rule.Some? && rule.value.threshold == goal
      && (TierOf(tab) == Some(FreeShipping) ==>
            && value == Null && js.Shipping? && jsx.ShippingLine?
            && rule.value.discountType == "free_shipping")
      && (TierOf(tab) == Some(Percentage) ==>
            && value == Numeric(percentage)
            && js == DiscountsJs.PercentageValue(percentage)
            && jsx == DiscountsJsx.PercentageOff(percentage, true)
            && rule.value.value == value)
      && (TierOf(tab) == Some(FixedAmount) ==>
            && value == Numeric(fixedAmount)
            && js.FixedAmountValue? && ParseNumber(js.fixedAmount) == fixedAmount
            && jsx == DiscountsJsx.FixedAmountOff(Fixed2(fixedAmount), true)
            && rule.value.value == value)
  {
  }

  /**
   * On any other tab the gateways fall back to a fixed-amount discount, while
   * the helper reports no discount value and the cart route builds no price rule.
   */
  lemma UnknownTabsDiverge(tab: Number, goal: Number, percentage: Number, fixedAmount: Number, title: Option<string>)
    requires TierOf(tab).None?
    ensures
      var d := DiscountHelpers.DiscountData(Numeric(goal), Numeric(tab), Numeric(percentage), Numeric(fixedAmount));
      var jsx := DiscountsJsx.CustomerGetsFor(DiscountsJsx.GoalInput(title, goal, tab, percentage, fixedAmount));
      && DiscountHelpers.DiscountValue(d) == Null
      && DiscountHelpers.DiscountTitle(d) == "Spend " + Format(goal) + " to get $" + Format(fixedAmount) + " off"
      && DiscountsJs.CustomerGetsFor(tab, fixedAmount).FixedAmountValue?
      && jsx == DiscountsJsx.FixedAmountOff(Fixed2(fixedAmount), true)
      && CartRoute.PriceRuleFor(CartRoute.CartGoal(None, goal, None, tab, None, Numeric(percentage), Numeric(fixedAmount))).None?
  {
  }

  /**
   * The create handler only asks for a shop and a goal amount that is not NaN
   * or zero; it never runs the helper's validation, so a negative goal passes
   * its guard although the helper rejects it.
   */
  lemma HandlerGuardAdmitsNegativeGoal()
    ensures
      var form := map["shop" := "shop-1", "spendingGoal" := "-5", "selectedTab" := "0"];
      var data := DiscountHandlers.CreateData(form);
      && DiscountHandlers.HasRequiredFields(data)
      && DiscountHelpers.ValidateDiscountData(
           DiscountHelpers.DiscountData(Numeric(data.spendingGoal), Numeric(data.selectedTab), Undefined, Undefined))
         == DiscountHelpers.Rejected(DiscountHelpers.InvalidGoal)
  {
    var form := map["shop" := "shop-1", "spendingGoal" := "-5", "selectedTab" := "0"];
    assert Format(Num(-5)) == "-5" && Format(Num(0)) == "0";
    DiscountHandlers.FormAmountsReadBack(form, Num(-5), Num(0));
  }
}
