/**
 * The reward tiers a spending goal can offer. The goal editor's tab index
 * selects the tier: 0 is free shipping, 1 a percentage off, 2 a fixed amount
 * off. Every other module maps the tab to a discount shape on its own; this
 * module is the reference those mappings are compared against.
 */
module Tiers {
  import opened JsValues

  datatype Tier = FreeShipping | Percentage | FixedAmount

  /** The tier a tab index selects under `===` comparison; none for any other value. */
  function TierOf(tab: Number): Option<Tier>
  {
    if tab == Num(0) then Some(FreeShipping)
    else if tab == Num(1) then Some(Percentage)
    else if tab == Num(2) then Some(FixedAmount)
    else None
  }

  /** The same, for a field that may also be undefined or null. */
  function TierOfValue(tab: Value): Option<Tier>
  {
    if tab.Numeric? then TierOf(tab.number) else None
  }
}
