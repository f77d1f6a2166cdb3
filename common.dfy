/** Values shared by every part of the model: optional values, the settled
    state of a promise, and JavaScript's truthiness of strings. */
module Common {

  datatype Option<+T> = None | Some(value: T)
  {
    predicate IsFailure()
    {
      None?
    }

    function PropagateFailure<U>(): Option<U>
      requires None?
    {
      None
    }

    function Extract(): T
      requires Some?
    {
      value
    }

    function GetOr(default: T): T
    {
      if Some? then value else default
    }
  }

  /** How an awaited promise settles: it resolves with a value, or it rejects
      with an `Error` whose `message` is kept (the only part of an error the
      application ever reads). */
  datatype Outcome<+T> = Ok(value: T) | Err(message: string)

  /** `s || fallback` on two strings: the empty string is the only falsy string. */
  function OrElse(s: string, fallback: string): (r: string)
    ensures r == s || r == fallback
    ensures s != "" ==> r == s
    ensures s == "" ==> r == fallback
  {
    if s != "" then s else fallback
  }

  /** The truthiness of an optional string (`undefined`, `null` and `""` are falsy). */
  predicate Truthy(s: Option<string>)
  {
    s.Some? && s.value != ""
  }
}
