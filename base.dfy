/** Shared wrapper types used by every module of the model. */
module Base {

  /** A value that may be absent: JavaScript's `null`/`undefined` on one side, a value on the other. */
  datatype Option<+T> = None | Some(value: T) {

    /** The value when present, `default` otherwise (the `??` operator). */
    function GetOr(default: T): T {
      match this
      case Some(v) => v
      case None => default
    }
  }

  /** The transient banner a page shows after an action. */
  datatype Feedback = Success(text: string) | Error(text: string)

  /** `text || fallback`: the text unless it is empty. */
  function OrElse(text: string, fallback: string): (r: string)
    ensures text != "" ==> r == text
    ensures text == "" ==> r == fallback
  {
    if text != "" then text else fallback
  }
}
