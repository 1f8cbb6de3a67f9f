/**
 * The automatic-discount gateway of `discounts.server.js`: it builds the
 * `automaticBasic` discount configuration from a goal (discount type 0 is free
 * shipping, 1 a percentage, anything else a fixed amount), sends it, and turns
 * a non-empty `userErrors` list into a thrown Error carrying the first message.
 * The request itself is abstract: the method receives the service's answer.
 */
module DiscountsJs {
  import opened JsValues
  import opened Tiers
  import opened AdminApi

  /** The `customerGets` part of a discount. */
  datatype CustomerGets =
    | Shipping(onShipping: bool)
    | PercentageValue(percentage: Number)
    | FixedAmountValue(fixedAmount: string)

  /** The arguments the gateway destructures. */
  datatype DiscountInput = DiscountInput(
    title: Option<string>,
    spendingGoal: Number,
    discountType: Number,
    discountValue: Number)

  /** The configuration sent on create (its `startsAt` timestamp is not modelled). */
  datatype CreateConfig = CreateConfig(
    title: Option<string>,
    allCustomers: bool,
    minimumSubtotal: string,
    customerGets: CustomerGets)

  /** The variables sent on update: the target discount and its new configuration. */
  datatype UpdateRequest = UpdateRequest(
    id: string,
    title: Option<string>,
    minimumSubtotal: string,
    customerGets: CustomerGets)

  /** The mutation's answer: the created node's id, if any, and the user errors. */
  datatype Payload = Payload(automaticDiscountNodeId: Option<string>, userErrors: seq<ApiError>)

  /**
   * Type 0 discounts shipping; type 1 carries the value itself as a percentage;
   * every other type carries the value's `toString()` text as a fixed amount,
   * which reads back as the same number.
   */
  function CustomerGetsFor(discountType: Number, discountValue: Number): (g: CustomerGets)
    ensures g.Shipping? <==> TierOf(discountType) == Some(FreeShipping)
    ensures g.Shipping? ==> g.onShipping
    ensures TierOf(discountType) == Some(Percentage) ==> g == PercentageValue(discountValue)
    ensures TierOf(discountType) !in [Some(FreeShipping), Some(Percentage)] ==>
      g == FixedAmountValue(Format(discountValue)) && ParseNumber(g.fixedAmount) == discountValue
  {
    if discountType == Num(0) then Shipping(true)
    else if discountType == Num(1) then PercentageValue(discountValue)
    else
      ParseFormat(discountValue);
      FixedAmountValue(Format(discountValue))
  }

  /** Every customer qualifies; the subtotal minimum is the goal's text and reads back as the goal. */
  function BuildCreateConfig(input: DiscountInput): (c: CreateConfig)
    ensures c.allCustomers && c.title == input.title
    ensures c.minimumSubtotal == Format(input.spendingGoal)
    ensures ParseNumber(c.minimumSubtotal) == input.spendingGoal
    ensures c.customerGets == CustomerGetsFor(input.discountType, input.discountValue)
  {
    ParseFormat(input.spendingGoal);
    CreateConfig(
      input.title,
      true,
      Format(input.spendingGoal),
      CustomerGetsFor(input.discountType, input.discountValue))
  }

  /** Update targets the stored discount id and reuses create's amounts and reward. */
  function BuildUpdateRequest(discountId: string, input: DiscountInput): (r: UpdateRequest)
    ensures r.id == discountId && r.title == input.title
    ensures r.minimumSubtotal == BuildCreateConfig(input).minimumSubtotal
    ensures r.customerGets == BuildCreateConfig(input).customerGets
  {
    UpdateRequest(
      discountId,
      input.title,
      Format(input.spendingGoal),
      CustomerGetsFor(input.discountType, input.discountValue))
  }

  /** A non-empty `userErrors` list throws its first message; otherwise the result is returned. */
  function CheckUserErrors(result: Payload): (r: Result<Payload>)
    ensures r.Failure? <==> |result.userErrors| > 0
    ensures r.Failure? ==> r.message == result.userErrors[0].message
    ensures r.Success? ==> r.value == result
  {
    match FirstMessage(result.userErrors)
    case Some(m) => Failure(m)
    case None => Success(result)
  }

  method CreateAutomaticDiscount(input: DiscountInput, response: Payload)
    returns (sent: CreateConfig, r: Result<Payload>)
    ensures sent == BuildCreateConfig(input)
    ensures sent.allCustomers && sent.title == input.title
    ensures ParseNumber(sent.minimumSubtotal) == input.spendingGoal
    ensures sent.customerGets == CustomerGetsFor(input.discountType, input.discountValue)
    ensures r.Failure? <==> |response.userErrors| > 0
    ensures r.Failure? ==> r.message == response.userErrors[0].message
    ensures r.Success? ==> r.value == response
  {
    sent := BuildCreateConfig(input);
    r := CheckUserErrors(response);
  }

  method UpdateAutomaticDiscount(discountId: string, input: DiscountInput, response: Payload)
    returns (sent: UpdateRequest, r: Result<Payload>)
    ensures sent == BuildUpdateRequest(discountId, input)
    ensures sent.id == discountId && sent.title == input.title
    ensures ParseNumber(sent.minimumSubtotal) == input.spendingGoal
    ensures sent.customerGets == CustomerGetsFor(input.discountType, input.discountValue)
    ensures r.Failure? <==> |response.userErrors| > 0
    ensures r.Failure? ==> r.message == response.userErrors[0].message
    ensures r.Success? ==> r.value == response
  {
    sent := BuildUpdateRequest(discountId, input);
    r := CheckUserErrors(response);
  }

  method DeleteAutomaticDiscount(discountId: string, response: Payload) returns (sentId: string, r: Result<Payload>)
    ensures sentId == discountId
    ensures r.Failure? <==> |response.userErrors| > 0
    ensures r.Failure? ==> r.message == response.userErrors[0].message
    ensures r.Success? ==> r.value == response
  {
    sentId := discountId;
    r := CheckUserErrors(response);
  }
}
