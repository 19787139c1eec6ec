/** JavaScript value conventions the console relies on: optional fields,
    truthiness of strings and numbers, `a || b` defaulting, and the outcome
    of an awaited request. */
module Js {

  /** An optional field: `undefined` (None) or a present value. */
  datatype Option<+T> = None | Some(value: T) {

    /** The value, or `default` when the field is undefined. */
    function GetOr(default: T): T {
      match this
      case Some(v) => v
      case None => default
    }
  }

  /** The settled state of an awaited request: it resolved with a payload,
      or it threw (or the handler otherwise discarded its response). */
  datatype Outcome<+T> = Ok(value: T) | Failed

  /** `if (s)` on an optional string: false for undefined and for ''. */
  predicate Truthy(s: Option<string>) {
    s.Some? && s.value != ""
  }

  /** `if (n)` on a number: false exactly for 0 (NaN is not modelled). */
  predicate NumTruthy(n: int) {
    n != 0
  }

  /** `s || undefined`: an empty or missing string becomes undefined. */
  function OrUndefined(s: Option<string>): (r: Option<string>)
    ensures r.Some? <==> Truthy(s)
    ensures r.Some? ==> r == s
  {
    if Truthy(s) then s else None
  }

  /** `s || undefined` on a string that is always present. */
  function StringOrUndefined(s: string): (r: Option<string>)
    ensures r.Some? <==> s != ""
    ensures r.Some? ==> r.value == s
  {
    if s != "" then Some(s) else None
  }

  /** `value || ''`: what an antd Select with allowClear hands back, stored as
      a plain string filter (cleared becomes ''). */
  function OrEmptyString(s: Option<string>): (r: string)
    ensures Truthy(s) ==> r == s.value
    ensures !Truthy(s) ==> r == ""
  {
    if s.Some? then s.value else ""
  }

  /** `xs || []`: a missing array is read as the empty array. */
  function OrEmpty<T>(xs: Option<seq<T>>): (r: seq<T>)
    ensures xs.Some? ==> r == xs.value
    ensures xs.None? ==> r == []
  {
    match xs
    case Some(v) => v
    case None => []
  }

  /** `size / 1024 / 1024 < limit`, the upload size checks, read on exact
      numbers: a file is under the limit when its byte count is strictly
      below `limit` mebibytes. */
  predicate UnderMegabytes(size: nat, limit: nat) {
    size < limit * 1048576
  }

  /** The integer comparison agrees with dividing by 1024 twice in exact
      arithmetic. */
  lemma UnderMegabytesIsDivision(size: nat, limit: nat)
    ensures UnderMegabytes(size, limit) <==> (size as real) / 1024.0 / 1024.0 < limit as real
  {
    var x := (size as real) / 1024.0 / 1024.0;
    assert x * 1048576.0 == size as real;
    assert (limit * 1048576) as real == (limit as real) * 1048576.0;
  }
}
