/**
 * The older `/api/cart` route. Its action dispatches on the form's `_action`:
 * CREATE writes the row and then posts a price rule to the store, UPDATE
 * rewrites the row and then posts a new price rule (a create, not an update),
 * DELETE removes the row only. The order is local first: a failed post leaves
 * the written row in place and the reply is a 500.
 *
 * The post is abstract: the action receives what the store's endpoint does
 * if called. The table is a map from row id to row with an auto-increment
 * counter; the table rejects an update or delete of an id it does not hold.
 * The ghost `trace` records every table write and post in order.
 */
module CartRoute {
  import opened JsValues
  import opened Tiers

  /** A row as this route writes it; absent optional amounts are stored as null. */
  datatype CartGoal = CartGoal(
    shop: Option<string>,
    spendingGoal: Number,
    announcement: Option<string>,
    selectedTab: Number,
    freeShipping: Option<string>,
    percentageDiscount: Value,
    fixedAmountDiscount: Value)

  /** The price rule posted: `discount_type`, `value` and the subtotal threshold. */
  datatype PriceRule = PriceRule(discountType: string, value: Value, threshold: Number)

  /** What the store's endpoint does when posted to: answers with its JSON body, or fails. */
  datatype PostReply = Posted(body: string) | PostFailed

  datatype Event =
    | RowInsert(id: int)
    | RowUpdate(id: int)
    | RowDelete(id: int)
    | PriceRulePost(rule: Option<PriceRule>)

  datatype CartReply =
    | Saved(id: int, row: CartGoal, discount: string)
    | Removed
    | Failed(status: int, error: string)

  const InvalidAction := "Invalid action"
  const OperationFailed := "Failed to process spending goal operation"

  /**
   * The price rule for a row: tab 0 is free shipping with value 0, tab 1 the
   * row's percentage, tab 2 its fixed amount, each with the row's goal as the
   * subtotal threshold; any other tab leaves the rule undefined.
   */
  function PriceRuleFor(goal: CartGoal): (rule: Option<PriceRule>)
    ensures rule.Some? <==> TierOf(goal.selectedTab).Some?
    ensures rule.Some? ==> rule.value.threshold == goal.spendingGoal
    ensures TierOf(goal.selectedTab) == Some(FreeShipping) ==>
      rule.value.discountType == "free_shipping" && rule.value.value == Numeric(Num(0))
    ensures TierOf(goal.selectedTab) == Some(Percentage) ==>
      rule.value.discountType == "percentage" && rule.value.value == goal.percentageDiscount
    ensures TierOf(goal.selectedTab) == Some(FixedAmount) ==>
      rule.value.discountType == "fixed_amount" && rule.value.value == goal.fixedAmountDiscount
  {
    if goal.selectedTab == Num(0) then
      Some(PriceRule("free_shipping", Numeric(Num(0)), goal.spendingGoal))
    else if goal.selectedTab == Num(1) then
      Some(PriceRule("percentage", goal.percentageDiscount, goal.spendingGoal))
    else if goal.selectedTab == Num(2) then
      Some(PriceRule("fixed_amount", goal.fixedAmountDiscount, goal.spendingGoal))
    else
      None
  }

  /** `formData.get(name) ? parseFloat(formData.get(name)) : null`. */
  function OptionalAmount(form: FormData, name: string): (v: Value)
    ensures v == Null <==> !IsTruthyString(Get(form, name))
    ensures v != Null ==> v == Numeric(ParseNumber(form[name]))
  {
    if IsTruthyString(Get(form, name)) then Numeric(ParseNumber(form[name])) else Null
  }

  /** `formData.get(name) || null`. */
  function TextOrNull(form: FormData, name: string): Option<string>
  {
    if IsTruthyString(Get(form, name)) then Get(form, name) else None
  }

  /** The row CREATE writes: shop and announcement default to "", the goal to 50, the tab to 0. */
  function NewRow(form: FormData): (row: CartGoal)
    ensures !IsTruthyString(Get(form, "shop")) ==> row.shop == Some("")
    ensures !IsTruthyString(Get(form, "spendingGoal")) ==> row.spendingGoal == Num(50)
    ensures !IsTruthyString(Get(form, "announcement")) ==> row.announcement == Some("")
    ensures !IsTruthyString(Get(form, "selectedTab")) ==> row.selectedTab == Num(0)
    ensures !IsTruthyString(Get(form, "percentageDiscount")) ==> row.percentageDiscount == Null
    ensures !IsTruthyString(Get(form, "fixedAmountDiscount")) ==> row.fixedAmountDiscount == Null
    ensures !IsTruthyString(Get(form, "freeShipping")) ==> row.freeShipping.None?
  {
    ParseFormat(Num(50));
    ParseFormat(Num(0));
    assert Format(Num(50)) == "50" && Format(Num(0)) == "0";
    CartGoal(
      Some(Or(Get(form, "shop"), "")),
      ParseNumber(Or(Get(form, "spendingGoal"), "50")),
      Some(Or(Get(form, "announcement"), "")),
      ParseNumber(Or(Get(form, "selectedTab"), "0")),
      TextOrNull(form, "freeShipping"),
      OptionalAmount(form, "percentageDiscount"),
      OptionalAmount(form, "fixedAmountDiscount"))
  }

  /** The row UPDATE writes: every column from the form, with no defaults but the null amounts. */
  function ChangedRow(form: FormData): (row: CartGoal)
    ensures row.shop == Get(form, "shop") && row.announcement == Get(form, "announcement")
    ensures row.spendingGoal == ParseField(Get(form, "spendingGoal"))
    ensures row.selectedTab == ParseField(Get(form, "selectedTab"))
    ensures row.percentageDiscount == NewRow(form).percentageDiscount
    ensures row.fixedAmountDiscount == NewRow(form).fixedAmountDiscount
    ensures row.freeShipping == NewRow(form).freeShipping
  {
    CartGoal(
      Get(form, "shop"),
      ParseField(Get(form, "spendingGoal")),
      Get(form, "announcement"),
      ParseField(Get(form, "selectedTab")),
      TextOrNull(form, "freeShipping"),
      OptionalAmount(form, "percentageDiscount"),
      OptionalAmount(form, "fixedAmountDiscount"))
  }

  /** Local first: a price rule is posted only right after a row was inserted or updated. */
  ghost predicate MayFollow(before: seq<Event>, e: Event)
  {
    e.PriceRulePost? ==>
      before != [] && (before[|before| - 1].RowInsert? || before[|before| - 1].RowUpdate?)
  }

  ghost predicate LocalFirst(trace: seq<Event>)
  {
    trace == [] || (LocalFirst(trace[..|trace| - 1]) && MayFollow(trace[..|trace| - 1], trace[|trace| - 1]))
  }

  lemma Extend(trace: seq<Event>, e: Event)
    requires LocalFirst(trace) && MayFollow(trace, e)
    ensures LocalFirst(trace + [e])
  {
    assert (trace + [e])[..|trace|] == trace;
  }

  class CartTable {
    var rows: map<int, CartGoal>
    var nextId: int
    ghost var trace: seq<Event>

    ghost predicate Valid()
      reads this
    {
      (forall id | id in rows :: id < nextId) && LocalFirst(trace)
    }

    constructor (initial: map<int, CartGoal>, next: int)
      requires forall id | id in initial :: id < next
      ensures Valid()
      ensures rows == initial && nextId == next && trace == []
    {
      rows := initial;
      nextId := next;
      trace := [];
    }

    /** The GET loader: every stored row, with no external call. */
    method Load() returns (goals: map<int, CartGoal>)
      ensures goals == rows
    {
      goals := rows;
    }

    /** CREATE: write the row, then post its price rule; a failed post keeps the row. */
    method Create(form: FormData, post: PostReply) returns (res: CartReply)
      requires Valid()
      modifies this
      ensures Valid()
      ensures old(nextId) !in old(rows)
      ensures rows == old(rows)[old(nextId) := NewRow(form)]
      ensures nextId == old(nextId) + 1
      ensures trace == old(trace) + [RowInsert(old(nextId)), PriceRulePost(PriceRuleFor(NewRow(form)))]
      ensures post.Posted? ==> res == Saved(old(nextId), NewRow(form), post.body)
      ensures post.PostFailed? ==> res == Failed(500, OperationFailed)
    {
      var row := NewRow(form);
      var key := nextId;
      rows := rows[key := row];
      nextId := nextId + 1;
      Extend(trace, RowInsert(key));
      trace := trace + [RowInsert(key)];
      var rule := PriceRuleFor(row);
      Extend(trace, PriceRulePost(rule));
      trace := trace + [PriceRulePost(rule)];
      if post.PostFailed? {
        return Failed(500, OperationFailed);
      }
      res := Saved(key, row, post.body);
    }

    /** UPDATE: rewrite the row, then post a new price rule; a failed post keeps the rewrite. */
    method Update(form: FormData, post: PostReply) returns (res: CartReply)
      requires Valid()
      modifies this
      ensures Valid()
      ensures nextId == old(nextId)
      ensures !Found(GoalKey(form), old(rows)) ==>
        res == Failed(500, OperationFailed) && rows == old(rows) && trace == old(trace)
      ensures Found(GoalKey(form), old(rows)) ==>
        var key := GoalKey(form).value;
        && rows == old(rows)[key := ChangedRow(form)]
        && trace == old(trace) + [RowUpdate(key), PriceRulePost(PriceRuleFor(ChangedRow(form)))]
        && (post.Posted? ==> res == Saved(key, ChangedRow(form), post.body))
        && (post.PostFailed? ==> res == Failed(500, OperationFailed))
    {
      var key := GoalKey(form);
      if !(key.Num? && key.value in rows) {
        return Failed(500, OperationFailed);
      }
      var row := ChangedRow(form);
      rows := rows[key.value := row];
      Extend(trace, RowUpdate(key.value));
      trace := trace + [RowUpdate(key.value)];
      var rule := PriceRuleFor(row);
      Extend(trace, PriceRulePost(rule));
      trace := trace + [PriceRulePost(rule)];
      if post.PostFailed? {
        return Failed(500, OperationFailed);
      }
      res := Saved(key.value, row, post.body);
    }

    /** DELETE: remove the row; nothing is sent to the store. */
    method Delete(form: FormData) returns (res: CartReply)
      requires Valid()
      modifies this
      ensures Valid()
      ensures nextId == old(nextId)
      ensures !Found(GoalKey(form), old(rows)) ==>
        res == Failed(500, OperationFailed) && rows == old(rows) && trace == old(trace)
      ensures Found(GoalKey(form), old(rows)) ==>
        && res == Removed
        && rows == old(rows) - {GoalKey(form).value}
        && trace == old(trace) + [RowDelete(GoalKey(form).value)]
    {
      var key := GoalKey(form);
      if !(key.Num? && key.value in rows) {
        return Failed(500, OperationFailed);
      }
      rows := rows - {key.value};
      Extend(trace, RowDelete(key.value));
      trace := trace + [RowDelete(key.value)];
      res := Removed;
    }

    /** Dispatch on `_action`; any other value (or none) is a 400 that touches neither store. */
    method Action(form: FormData, post: PostReply) returns (res: CartReply)
      requires Valid()
      modifies this
      ensures Valid()
      ensures Get(form, "_action") !in [Some("CREATE"), Some("UPDATE"), Some("DELETE")] ==>
        && res == Failed(400, InvalidAction)
        && rows == old(rows) && nextId == old(nextId) && trace == old(trace)
      ensures Get(form, "_action") == Some("CREATE") ==>
        && old(nextId) !in old(rows)
        && rows == old(rows)[old(nextId) := NewRow(form)]
        && nextId == old(nextId) + 1
        && trace == old(trace) + [RowInsert(old(nextId)), PriceRulePost(PriceRuleFor(NewRow(form)))]
        && (post.Posted? ==> res == Saved(old(nextId), NewRow(form), post.body))
        && (post.PostFailed? ==> res == Failed(500, OperationFailed))
      ensures Get(form, "_action") == Some("UPDATE") && !Found(GoalKey(form), old(rows)) ==>
        res == Failed(500, OperationFailed) && rows == old(rows) && trace == old(trace)
      ensures Get(form, "_action") == Some("UPDATE") && Found(GoalKey(form), old(rows)) ==>
        var key := GoalKey(form).value;
        && rows == old(rows)[key := ChangedRow(form)]
        && trace == old(trace) + [RowUpdate(key), PriceRulePost(PriceRuleFor(ChangedRow(form)))]
        && (post.Posted? ==> res == Saved(key, ChangedRow(form), post.body))
        && (post.PostFailed? ==> res == Failed(500, OperationFailed))
      ensures Get(form, "_action") == Some("DELETE") && !Found(GoalKey(form), old(rows)) ==>
        res == Failed(500, OperationFailed) && rows == old(rows) && trace == old(trace)
      ensures Get(form, "_action") == Some("DELETE") && Found(GoalKey(form), old(rows)) ==>
        && res == Removed
        && rows == old(rows) - {GoalKey(form).value}
        && trace == old(trace) + [RowDelete(GoalKey(form).value)]
      ensures Get(form, "_action") != Some("CREATE") ==> nextId == old(nextId)
    {
      var action := Get(form, "_action");
      if action == Some("CREATE") {
        res := Create(form, post);
      } else if action == Some("UPDATE") {
        res := Update(form, post);
      } else if action == Some("DELETE") {
        res := Delete(form);
      } else {
        res := Failed(400, InvalidAction);
      }
    }
  }
}
