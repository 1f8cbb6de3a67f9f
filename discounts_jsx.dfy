/**
 * The automatic-discount gateway of `discounts.server.jsx`. The configuration
 * is built in two steps: the common fields first, then `customerGets` set by
 * the tab (0 free shipping through a 999999 shipping discount, 1 a percentage
 * on all items, anything else a fixed amount on all items). After the request,
 * top-level `errors` are checked before `userErrors`; every failure is
 * rethrown with a message that names the operation. The request is abstract:
 * each method receives the service's answer, and the clock readings the
 * create configuration stamps are parameters.
 */
module DiscountsJsx {
  import opened JsValues
  import opened Tiers
  import opened AdminApi

  /** The goal fields the gateway destructures (the form's `freeShipping` flag is unused). */
  datatype GoalInput = GoalInput(
    title: Option<string>,
    spendingGoal: Number,
    selectedTab: Number,
    percentageDiscount: Number,
    fixedAmountDiscount: Number)

  datatype CustomerGets =
    | ShippingLine(fixedAmount: int)
    | PercentageOff(percentage: Number, allItems: bool)
    | FixedAmountOff(amount: string, allItems: bool)

  /** The discount configuration; `customerGets` is absent until the tab branch sets it. */
  datatype DiscountConfig = DiscountConfig(
    title: Option<string>,
    startsAt: Option<string>,
    endsAt: Option<string>,
    minimumSubtotal: string,
    allCustomers: bool,
    customerGets: Option<CustomerGets>)

  datatype DiscountNode = DiscountNode(id: string, title: string)

  /** The mutation's answer; each mutation fills in the fields it returns. */
  datatype Payload = Payload(
    automaticDiscount: Option<DiscountNode>,
    deletedAutomaticDiscountId: Option<string>,
    userErrors: seq<ApiError>)

  /** The response body: top-level errors and the mutation's payload. */
  datatype Response = Response(errors: seq<ApiError>, payload: Payload)

  datatype Created = Created(discountId: string, data: DiscountNode)
  datatype Updated = Updated(data: Option<DiscountNode>)
  datatype Deleted = Deleted(deletedId: Option<string>)

  /** The fixed shipping discount that makes shipping free in practice. */
  const FreeShippingAmount := 999999

  const CreateFailed := "Failed to create discount: "
  const UpdateFailed := "Failed to update discount: "
  const DeleteFailed := "Failed to delete discount: "

  /** The TypeError thrown when a successful create returns no discount and its `id` is read. */
  const NullIdRead := "Cannot read properties of null (reading 'id')"

  /** The given title when it is non-empty, else one naming the goal amount to two decimals. */
  function CreateTitle(input: GoalInput): (t: string)
    ensures IsTruthyString(input.title) ==> t == input.title.value
    ensures !IsTruthyString(input.title) ==> t == "Spend " + Fixed2(input.spendingGoal) + " to save"
  {
    Or(input.title, "Spend " + Fixed2(input.spendingGoal) + " to save")
  }

  /** The reward the tab selects; the percentage and fixed amount apply to all items. */
  function CustomerGetsFor(input: GoalInput): (g: CustomerGets)
    ensures g.ShippingLine? <==> TierOf(input.selectedTab) == Some(FreeShipping)
    ensures g.ShippingLine? ==> g.fixedAmount == FreeShippingAmount
    ensures !g.ShippingLine? ==> g.allItems
    ensures TierOf(input.selectedTab) == Some(Percentage) ==>
      g == PercentageOff(input.percentageDiscount, true)
    ensures TierOf(input.selectedTab) !in [Some(FreeShipping), Some(Percentage)] ==>
      g == FixedAmountOff(Fixed2(input.fixedAmountDiscount), true)
  {
    if input.selectedTab == Num(0) then ShippingLine(FreeShippingAmount)
    else if input.selectedTab == Num(1) then PercentageOff(input.percentageDiscount, true)
    else FixedAmountOff(Fixed2(input.fixedAmountDiscount), true)
  }

  /** The create configuration: defaulted title, a one-year window, all customers, the tab's reward. */
  ghost predicate IsCreateConfig(c: DiscountConfig, input: GoalInput, now: string, yearLater: string)
  {
    && c.title == Some(CreateTitle(input))
    && c.startsAt == Some(now) && c.endsAt == Some(yearLater)
    && c.minimumSubtotal == Fixed2(input.spendingGoal)
    && c.allCustomers
    && c.customerGets == Some(CustomerGetsFor(input))
  }

  /** The update configuration: the title as given, no window, all customers, the tab's reward. */
  ghost predicate IsUpdateConfig(c: DiscountConfig, input: GoalInput)
  {
    && c.title == input.title
    && c.startsAt.None? && c.endsAt.None?
    && c.minimumSubtotal == Fixed2(input.spendingGoal)
    && c.allCustomers
    && c.customerGets == Some(CustomerGetsFor(input))
  }

  /** The reward branch shared by create and update: sets `customerGets` and nothing else. */
  method SetCustomerGets(base: DiscountConfig, input: GoalInput) returns (c: DiscountConfig)
    ensures c == base.(customerGets := Some(CustomerGetsFor(input)))
  {
    c := base;
    if input.selectedTab == Num(0) {
      c := c.(customerGets := Some(ShippingLine(FreeShippingAmount)));
    } else if input.selectedTab == Num(1) {
      c := c.(customerGets := Some(PercentageOff(input.percentageDiscount, true)));
    } else {
      c := c.(customerGets := Some(FixedAmountOff(Fixed2(input.fixedAmountDiscount), true)));
    }
  }

  method BuildCreateConfig(input: GoalInput, now: string, yearLater: string) returns (c: DiscountConfig)
    ensures IsCreateConfig(c, input, now, yearLater)
  {
    var formattedGoalAmount := Fixed2(input.spendingGoal);
    c := DiscountConfig(
      Some(Or(input.title, "Spend " + formattedGoalAmount + " to save")),
      Some(now), Some(yearLater), formattedGoalAmount, true, None);
    c := SetCustomerGets(c, input);
  }

  method BuildUpdateConfig(input: GoalInput) returns (c: DiscountConfig)
    ensures IsUpdateConfig(c, input)
  {
    c := DiscountConfig(input.title, None, None, Fixed2(input.spendingGoal), true, None);
    c := SetCustomerGets(c, input);
  }

  /** The first error message of a response: top-level errors win over user errors. */
  function ResponseError(response: Response): (m: Option<string>)
    ensures |response.errors| > 0 ==> m == Some(response.errors[0].message)
    ensures |response.errors| == 0 ==> m == FirstMessage(response.payload.userErrors)
    ensures m.None? <==> |response.errors| == 0 && |response.payload.userErrors| == 0
  {
    if |response.errors| > 0 then FirstMessage(response.errors)
    else FirstMessage(response.payload.userErrors)
  }

  method CreateAutomaticDiscount(input: GoalInput, now: string, yearLater: string, response: Response)
    returns (sent: DiscountConfig, r: Result<Created>)
    ensures IsCreateConfig(sent, input, now, yearLater)
    ensures ResponseError(response).Some? ==> r == Failure(CreateFailed + ResponseError(response).value)
    ensures ResponseError(response).None? && response.payload.automaticDiscount.None? ==>
      r == Failure(CreateFailed + NullIdRead)
    ensures r.Success? <==> ResponseError(response).None? && response.payload.automaticDiscount.Some?
    ensures r.Failure? ==> CreateFailed <= r.message
    ensures r.Success? ==>
      r.value.discountId == response.payload.automaticDiscount.value.id
      && r.value.data == response.payload.automaticDiscount.value
  {
    sent := BuildCreateConfig(input, now, yearLater);
    var error := ResponseError(response);
    if error.Some? {
      r := Failure(CreateFailed + error.value);
    } else if response.payload.automaticDiscount.None? {
      r := Failure(CreateFailed + NullIdRead);
    } else {
      var node := response.payload.automaticDiscount.value;
      r := Success(Created(node.id, node));
    }
  }

  method UpdateAutomaticDiscount(discountId: string, input: GoalInput, response: Response)
    returns (sentId: string, sent: DiscountConfig, r: Result<Updated>)
    ensures sentId == discountId && IsUpdateConfig(sent, input)
    ensures ResponseError(response).Some? ==> r == Failure(UpdateFailed + ResponseError(response).value)
    ensures ResponseError(response).None? ==> r == Success(Updated(response.payload.automaticDiscount))
    ensures r.Failure? ==> UpdateFailed <= r.message
  {
    sentId := discountId;
    sent := BuildUpdateConfig(input);
    var error := ResponseError(response);
    if error.Some? {
      r := Failure(UpdateFailed + error.value);
    } else {
      r := Success(Updated(response.payload.automaticDiscount));
    }
  }

  method DeleteAutomaticDiscount(discountId: string, response: Response)
    returns (sentId: string, r: Result<Deleted>)
    ensures sentId == discountId
    ensures ResponseError(response).Some? ==> r == Failure(DeleteFailed + ResponseError(response).value)
    ensures ResponseError(response).None? ==>
      r == Success(Deleted(response.payload.deletedAutomaticDiscountId))
    ensures r.Failure? ==> DeleteFailed <= r.message
  {
    sentId := discountId;
    var error := ResponseError(response);
    if error.Some? {
      r := Failure(DeleteFailed + error.value);
    } else {
      r := Success(Deleted(response.payload.deletedAutomaticDiscountId));
    }
  }

  /** Create and update send the same reward and subtotal minimum; only the title and window differ. */
  lemma CreateAndUpdateShareReward(c: DiscountConfig, u: DiscountConfig, input: GoalInput, now: string, yearLater: string)
    requires IsCreateConfig(c, input, now, yearLater) && IsUpdateConfig(u, input)
    ensures c.customerGets == u.customerGets && c.minimumSubtotal == u.minimumSubtotal
    ensures c.startsAt.Some? && u.startsAt.None? && c.endsAt.Some? && u.endsAt.None?
    ensures IsTruthyString(input.title) ==> c.title == u.title
  {
  }
}
