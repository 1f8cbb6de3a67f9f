/** Error lists returned by the store's admin API: top-level `errors` and per-mutation `userErrors`. */
module AdminApi {
  import opened JsValues

  /** One entry of an `errors` or `userErrors` list; only its message is read. */
  datatype ApiError = ApiError(message: string)

  /** The message of the first entry, or none when the list is empty. */
  function FirstMessage(errors: seq<ApiError>): (m: Option<string>)
    ensures m.None? <==> |errors| == 0
    ensures m.Some? ==> m.value == errors[0].message
  {
    if |errors| > 0 then Some(errors[0].message) else None
  }
}
