/**
 * The create, update and delete handlers that keep a spending-goal row and its
 * automatic discount in step. Each handler reads its form, calls the discount
 * gateway and writes the goal table; every failure becomes a 400 reply.
 *
 * The gateway is abstract: each handler receives the answer the gateway gives
 * if it is called. The table is a map from row id to goal with an
 * auto-increment counter. The ghost `trace` records every gateway call and
 * table write in order, so the external-first ordering can be stated.
 */
module DiscountHandlers {
  import opened JsValues

  /** The fields a create form yields. */
  datatype GoalData = GoalData(
    shop: Option<string>,
    title: string,
    spendingGoal: Number,
    announcement: Option<string>,
    selectedTab: Number,
    percentageDiscount: Number,
    fixedAmountDiscount: Number,
    freeShipping: bool)

  /** The fields an update form yields; shop, free-shipping flag and discount id are not among them. */
  datatype UpdateData = UpdateData(
    title: Option<string>,
    spendingGoal: Number,
    announcement: Option<string>,
    selectedTab: Number,
    percentageDiscount: Number,
    fixedAmountDiscount: Number)

  /** A row of the goal table. */
  datatype Goal = Goal(
    shop: Option<string>,
    title: Option<string>,
    spendingGoal: Number,
    announcement: Option<string>,
    selectedTab: Number,
    percentageDiscount: Number,
    fixedAmountDiscount: Number,
    freeShipping: bool,
    discountId: Option<string>)

  /** What the gateway does when called: answers (with a discount node id, if any) or throws. */
  datatype GatewayReply = Ok(nodeId: Option<string>) | Fail(message: string)

  /** A side effect on one of the two stores. */
  datatype Event =
    | GatewayCreate(data: GoalData)
    | GatewayUpdate(target: Option<string>, update: UpdateData)
    | GatewayDelete(ref: string)
    | RowInsert(id: int)
    | RowUpdate(id: int)
    | RowDelete(id: int, discountId: Option<string>)

  datatype StoredGoal = StoredGoal(id: int, goal: Goal)

  /** The JSON reply: `{success: true, data}` or `{success: false, error}` with a status. */
  datatype Reply = Succeeded(data: Option<StoredGoal>) | Failed(status: int, error: string)

  const DefaultTitle := "Spending Goal Discount"
  const MissingFields := "Missing required fields"
  const NoShopifyDiscount := "Failed to create Shopify discount"
  const GoalNotFound := "Goal not found"

  /** `parseFloat(formData.get(name) || "0")`. */
  function AmountOrZero(form: FormData, name: string): Number
  {
    ParseNumber(Or(Get(form, name), "0"))
  }

  /** The create form's fields with their defaults. */
  function CreateData(form: FormData): (d: GoalData)
    ensures d.shop == Get(form, "shop") && d.announcement == Get(form, "announcement")
    ensures IsTruthyString(Get(form, "title")) ==> d.title == form["title"]
    ensures !IsTruthyString(Get(form, "title")) ==> d.title == DefaultTitle
    ensures !IsTruthyString(Get(form, "percentageDiscount")) ==> d.percentageDiscount == Num(0)
    ensures !IsTruthyString(Get(form, "fixedAmountDiscount")) ==> d.fixedAmountDiscount == Num(0)
    ensures d.freeShipping <==> Get(form, "freeShipping") == Some("true")
  {
    ParseFormat(Num(0));
    GoalData(
      Get(form, "shop"),
      Or(Get(form, "title"), DefaultTitle),
      ParseField(Get(form, "spendingGoal")),
      Get(form, "announcement"),
      ParseField(Get(form, "selectedTab")),
      AmountOrZero(form, "percentageDiscount"),
      AmountOrZero(form, "fixedAmountDiscount"),
      Get(form, "freeShipping") == Some("true"))
  }

  /** The update form's fields: the same amounts as create, the title without a default. */
  function UpdateInput(form: FormData): (u: UpdateData)
    ensures u.title == Get(form, "title") && u.announcement == Get(form, "announcement")
    ensures u.spendingGoal == CreateData(form).spendingGoal && u.selectedTab == CreateData(form).selectedTab
    ensures u.percentageDiscount == CreateData(form).percentageDiscount
    ensures u.fixedAmountDiscount == CreateData(form).fixedAmountDiscount
  {
    UpdateData(
      Get(form, "title"),
      ParseField(Get(form, "spendingGoal")),
      Get(form, "announcement"),
      ParseField(Get(form, "selectedTab")),
      AmountOrZero(form, "percentageDiscount"),
      AmountOrZero(form, "fixedAmountDiscount"))
  }

  /** A form that carries a number as the text `String(n)` reads back as that number. */
  lemma FormAmountsReadBack(form: FormData, goal: Number, tab: Number)
    requires Get(form, "spendingGoal") == Some(Format(goal)) && Get(form, "selectedTab") == Some(Format(tab))
    ensures CreateData(form).spendingGoal == goal && CreateData(form).selectedTab == tab
    ensures UpdateInput(form).spendingGoal == goal && UpdateInput(form).selectedTab == tab
  {
    ParseFormat(goal);
    ParseFormat(tab);
  }

  /** Create's guard: a shop and a goal amount that is neither NaN nor zero. */
  predicate HasRequiredFields(d: GoalData)
  {
    IsTruthyString(d.shop) && IsTruthyNumber(d.spendingGoal)
  }

  /** The discount id a create answer confirms: present and non-empty. */
  function ConfirmedId(reply: GatewayReply): (id: Option<string>)
    ensures id.Some? <==> reply.Ok? && IsTruthyString(reply.nodeId)
    ensures id.Some? ==> id.value != "" && reply.nodeId == id
  {
    if reply.Ok? && IsTruthyString(reply.nodeId) then reply.nodeId else None
  }

  /** The error a create reports when the gateway confirms no id: its own message, or a fixed one. */
  function CreateError(reply: GatewayReply): string
  {
    if reply.Fail? then reply.message else NoShopifyDiscount
  }

  function NewGoal(d: GoalData, discountId: string): (g: Goal)
  {
    Goal(d.shop, Some(d.title), d.spendingGoal, d.announcement, d.selectedTab,
         d.percentageDiscount, d.fixedAmountDiscount, d.freeShipping, Some(discountId))
  }

  /** An update replaces the form's fields and keeps shop, free-shipping flag and discount id. */
  function ApplyUpdate(g: Goal, u: UpdateData): (r: Goal)
    ensures r.shop == g.shop && r.freeShipping == g.freeShipping && r.discountId == g.discountId
    ensures r.title == u.title && r.spendingGoal == u.spendingGoal && r.announcement == u.announcement
    ensures r.selectedTab == u.selectedTab
    ensures r.percentageDiscount == u.percentageDiscount && r.fixedAmountDiscount == u.fixedAmountDiscount
  {
    g.(title := u.title, spendingGoal := u.spendingGoal, announcement := u.announcement,
       selectedTab := u.selectedTab, percentageDiscount := u.percentageDiscount,
       fixedAmountDiscount := u.fixedAmountDiscount)
  }

  /**
   * Whether event e may follow the events before it under external-first
   * ordering: a row is inserted only right after a gateway create, updated only
   * right after a gateway update, and a row holding a discount id is deleted
   * only right after the gateway deleted that discount.
   */
  ghost predicate MayFollow(before: seq<Event>, e: Event)
  {
    match e
    case RowInsert(_) => before != [] && before[|before| - 1].GatewayCreate?
    case RowUpdate(_) => before != [] && before[|before| - 1].GatewayUpdate?
    case RowDelete(_, ref) =>
      IsTruthyString(ref) ==> before != [] && before[|before| - 1] == GatewayDelete(ref.value)
    case _ => true
  }

  /** Every event of the trace may follow the events before it. */
  ghost predicate ExternalFirst(trace: seq<Event>)
  {
    trace == [] || (ExternalFirst(trace[..|trace| - 1]) && MayFollow(trace[..|trace| - 1], trace[|trace| - 1]))
  }

  lemma Extend(trace: seq<Event>, e: Event)
    requires ExternalFirst(trace) && MayFollow(trace, e)
    ensures ExternalFirst(trace + [e])
  {
    assert (trace + [e])[..|trace|] == trace;
  }

  ghost function Inserts(trace: seq<Event>): nat
  {
    if trace == [] then 0
    else Inserts(trace[..|trace| - 1]) + (if trace[|trace| - 1].RowInsert? then 1 else 0)
  }

  ghost function GatewayCreates(trace: seq<Event>): nat
  {
    if trace == [] then 0
    else GatewayCreates(trace[..|trace| - 1]) + (if trace[|trace| - 1].GatewayCreate? then 1 else 0)
  }

  /**
   * Under external-first ordering there are never more row inserts than
   * gateway creates; a trace ending in a create not yet followed by an insert
   * has strictly fewer.
   */
  lemma {:induction false} InsertsFollowCreates(trace: seq<Event>)
    requires ExternalFirst(trace)
    ensures Inserts(trace) + (if trace != [] && trace[|trace| - 1].GatewayCreate? then 1 else 0)
            <= GatewayCreates(trace)
  {
    if trace != [] {
      InsertsFollowCreates(trace[..|trace| - 1]);
    }
  }

  class GoalStore {
    var rows: map<int, Goal>
    var nextId: int
    ghost var trace: seq<Event>
    /** Rows from this id on were written by the create handler. */
    ghost const firstNewId: int

    /**
     * Ids stay below the counter, side effects keep the external-first order,
     * and every row the create handler wrote carries a confirmed discount id.
     */
    ghost predicate Valid()
      reads this
    {
      && (forall id | id in rows :: id < nextId)
      && firstNewId <= nextId
      && (forall id | id in rows && id >= firstNewId :: IsTruthyString(rows[id].discountId))
      && ExternalFirst(trace)
    }

    constructor (initial: map<int, Goal>, next: int)
      requires forall id | id in initial :: id < next
      ensures Valid()
      ensures rows == initial && nextId == next && trace == []
    {
      rows := initial;
      nextId := next;
      trace := [];
      firstNewId := next;
    }

    method HandleCreate(form: FormData, reply: GatewayReply) returns (res: Reply)
      requires Valid()
      modifies this
      ensures Valid()
      ensures res.Failed? ==> res.status == 400
      ensures !HasRequiredFields(CreateData(form)) ==>
        && res == Failed(400, MissingFields)
        && rows == old(rows) && nextId == old(nextId) && trace == old(trace)
      ensures HasRequiredFields(CreateData(form)) && ConfirmedId(reply).None? ==>
        && res == Failed(400, CreateError(reply))
        && rows == old(rows) && nextId == old(nextId)
        && trace == old(trace) + [GatewayCreate(CreateData(form))]
      ensures HasRequiredFields(CreateData(form)) && ConfirmedId(reply).Some? ==>
        && old(nextId) !in old(rows)
        && rows == old(rows)[old(nextId) := NewGoal(CreateData(form), ConfirmedId(reply).value)]
        && nextId == old(nextId) + 1
        && trace == old(trace) + [GatewayCreate(CreateData(form)), RowInsert(old(nextId))]
        && res == Succeeded(Some(StoredGoal(old(nextId), NewGoal(CreateData(form), ConfirmedId(reply).value))))
    {
      var data := CreateData(form);
      if !IsTruthyString(data.shop) || !IsTruthyNumber(data.spendingGoal) {
        return Failed(400, MissingFields);
      }
      Extend(trace, GatewayCreate(data));
      trace := trace + [GatewayCreate(data)];
      var id := ConfirmedId(reply);
      if id.None? {
        return Failed(400, CreateError(reply));
      }
      var goal := NewGoal(data, id.value);
      var key := nextId;
      rows := rows[key := goal];
      nextId := nextId + 1;
      Extend(trace, RowInsert(key));
      trace := trace + [RowInsert(key)];
      res := Succeeded(Some(StoredGoal(key, goal)));
    }

    method HandleUpdate(form: FormData, reply: GatewayReply) returns (res: Reply)
      requires Valid()
      modifies this
      ensures Valid()
      ensures nextId == old(nextId)
      ensures res.Failed? ==> res.status == 400
      ensures !Found(GoalKey(form), old(rows)) ==>
        res == Failed(400, GoalNotFound) && rows == old(rows) && trace == old(trace)
      ensures Found(GoalKey(form), old(rows)) && reply.Fail? ==>
        && res == Failed(400, reply.message)
        && rows == old(rows)
        && trace == old(trace) + [GatewayUpdate(old(rows)[GoalKey(form).value].discountId, UpdateInput(form))]
      ensures Found(GoalKey(form), old(rows)) && reply.Ok? ==>
        var key := GoalKey(form).value;
        var updated := ApplyUpdate(old(rows)[key], UpdateInput(form));
        && rows == old(rows)[key := updated]
        && trace == old(trace) + [GatewayUpdate(old(rows)[key].discountId, UpdateInput(form)), RowUpdate(key)]
        && res == Succeeded(Some(StoredGoal(key, updated)))
    {
      var key := GoalKey(form);
      var data := UpdateInput(form);
      if !(key.Num? && key.value in rows) {
        return Failed(400, GoalNotFound);
      }
      var goal := rows[key.value];
      Extend(trace, GatewayUpdate(goal.discountId, data));
      trace := trace + [GatewayUpdate(goal.discountId, data)];
      if reply.Fail? {
        return Failed(400, reply.message);
      }
      var updated := ApplyUpdate(goal, data);
      rows := rows[key.value := updated];
      Extend(trace, RowUpdate(key.value));
      trace := trace + [RowUpdate(key.value)];
      res := Succeeded(Some(StoredGoal(key.value, updated)));
    }

    method HandleDelete(form: FormData, reply: GatewayReply) returns (res: Reply)
      requires Valid()
      modifies this
      ensures Valid()
      ensures nextId == old(nextId)
      ensures res.Failed? ==> res.status == 400
      ensures !Found(GoalKey(form), old(rows)) ==>
        res == Failed(400, GoalNotFound) && rows == old(rows) && trace == old(trace)
      ensures Found(GoalKey(form), old(rows)) ==>
        var key := GoalKey(form).value;
        var ref := old(rows)[key].discountId;
        && (IsTruthyString(ref) && reply.Fail? ==>
              && res == Failed(400, reply.message)
              && rows == old(rows)
              && trace == old(trace) + [GatewayDelete(ref.value)])
        && (IsTruthyString(ref) && reply.Ok? ==>
              && res == Succeeded(None)
              && rows == old(rows) - {key}
              && trace == old(trace) + [GatewayDelete(ref.value), RowDelete(key, ref)])
        && (!IsTruthyString(ref) ==>
              && res == Succeeded(None)
              && rows == old(rows) - {key}
              && trace == old(trace) + [RowDelete(key, ref)])
    {
      var key := GoalKey(form);
      if !(key.Num? && key.value in rows) {
        return Failed(400, GoalNotFound);
      }
      var goal := rows[key.value];
      if IsTruthyString(goal.discountId) {
        Extend(trace, GatewayDelete(goal.discountId.value));
        trace := trace + [GatewayDelete(goal.discountId.value)];
        if reply.Fail? {
          return Failed(400, reply.message);
        }
      }
      rows := rows - {key.value};
      Extend(trace, RowDelete(key.value, goal.discountId));
      trace := trace + [RowDelete(key.value, goal.discountId)];
      res := Succeeded(None);
    }
  }
}
