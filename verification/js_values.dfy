/**
 * JavaScript values the chat client handles loosely: a string that may be
 * `null`/`undefined`, and an exception whose `message` may be missing.
 */
module JsValues {

  /** `None` stands for `null` or `undefined`. */
  datatype Option<+T> = None | Some(value: T)

  /** A thrown value as seen by `catch (e)`: `e?.message` is `None` when absent. */
  datatype Thrown = Thrown(message: Option<string>)

  /** The idiom `(s || "")`: a missing string reads as the empty string. */
  function OrEmpty(s: Option<string>): (r: string)
    ensures s.None? ==> r == ""
    ensures s.Some? ==> r == s.value
  {
    match s
    case None => ""
    case Some(v) => v
  }

  /** The idiom `e?.message || fallback`: a missing or empty message yields the fallback. */
  function MessageOr(e: Thrown, fallback: string): (r: string)
    ensures e.message.Some? && e.message.value != "" ==> r == e.message.value
    ensures e.message.None? || e.message.value == "" ==> r == fallback
    ensures r == "" ==> fallback == ""
  {
    match e.message
    case Some(m) => if m != "" then m else fallback
    case None => fallback
  }
}
