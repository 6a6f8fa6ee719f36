/** Values shared by every module: optional values, results with HTTP errors,
    and the truthiness tests of JavaScript and Python on optional values. */
module Common {

  datatype Option<T> = None | Some(value: T)
  {
    function GetOr(default: T): T
    {
      match this
      case None => default
      case Some(v) => v
    }
  }

  /** An error the backend reports as `HTTPException(status_code, detail)`. */
  datatype HttpError = HttpError(code: int, detail: string)

  datatype Result<T> = Success(value: T) | Failure(error: HttpError)

  /** `if s:` in Python / `s ? … : …` in JavaScript on an optional string:
      null/None and the empty string are falsy. */
  predicate TruthyStr(s: Option<string>)
  {
    s.Some? && s.value != ""
  }

  /** Truthiness of an optional integer: None and 0 are falsy. */
  predicate TruthyInt(n: Option<int>)
  {
    n.Some? && n.value != 0
  }

  /** Python `a or b` on two optional strings: `a` when it is truthy, else `b` as it is. */
  function OrElse(a: Option<string>, b: Option<string>): (r: Option<string>)
    ensures TruthyStr(a) ==> r == a
    ensures !TruthyStr(a) ==> r == b
  {
    if TruthyStr(a) then a else b
  }

  /** JavaScript `a || fallback` on an optional string, as the pages use it to show
      or edit a nullable column: the value when it is truthy, the fallback when it is
      null or empty. */
  function OrText(a: Option<string>, fallback: string): (r: string)
    ensures TruthyStr(a) ==> r == a.value
    ensures !TruthyStr(a) ==> r == fallback
    ensures r == "" <==> (!TruthyStr(a) && fallback == "")
  {
    if TruthyStr(a) then a.value else fallback
  }
}
