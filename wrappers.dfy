/** Shared value types: optional values, thrown errors, JavaScript numbers that
    may be NaN, and calendar dates as the agent passes them around. */
module Wrappers {

  datatype Option<+T> = None | Some(value: T)

  /** What a JavaScript `throw` carries: an `Error` with its message, or a
      value that is not an `Error` (the source rethrows `undefined` in one place). */
  datatype Error = Error(message: string) | NotAnError

  /** The outcome of an operation that may throw. */
  datatype Result<+T> = Ok(value: T) | Fail(error: Error)

  /** The text a catch block shows for a thrown value:
      `error instanceof Error ? error.message : fallback`. */
  function MessageOr(e: Error, fallback: string): (m: string)
    ensures e.Error? ==> m == e.message
    ensures e.NotAnError? ==> m == fallback
  {
    match e
    case Error(msg) => msg
    case NotAnError => fallback
  }

  /** A JavaScript number as the model needs it: an integer (cents, days,
      minutes) or NaN, the result of arithmetic on an invalid date. */
  datatype Num = Finite(v: int) | NaN

  /** A date-valued string field. `Blank` is the empty string (falsy in
      JavaScript); `Day(n)` is a "YYYY-MM-DD" text naming day number `n`;
      `Unparsable` stands for a non-empty text `new Date` turns into an
      invalid date. The model reads only the "YYYY-MM-DD" form as a date;
      other forms `new Date` accepts are not distinguished. */
  datatype CalendarDate = Blank | Day(n: int) | Unparsable

  /** JavaScript truthiness of an optional string field. */
  predicate TruthyString(o: Option<string>)
  {
    o.Some? && o.value != ""
  }

  /** JavaScript truthiness of an optional date field. */
  predicate TruthyDate(o: Option<CalendarDate>)
  {
    o.Some? && !o.value.Blank?
  }

  /** `x || fallback` for an optional number: 0 and absent are falsy. */
  function IntOr(o: Option<int>, fallback: int): (r: int)
    ensures o.Some? && o.value != 0 ==> r == o.value
    ensures (o.None? || o.value == 0) ==> r == fallback
  {
    if o.Some? && o.value != 0 then o.value else fallback
  }

  /** `x || false` for an optional boolean. */
  function BoolOrFalse(o: Option<bool>): (r: bool)
    ensures r <==> o == Some(true)
  {
    o.Some? && o.value
  }

  /** `a || b || ...` over texts: the first truthy one. */
  function FirstTruthy(cands: seq<Option<string>>): (r: Option<string>)
    ensures r.Some? <==> exists i :: 0 <= i < |cands| && TruthyString(cands[i])
    ensures r.Some? ==> exists i :: 0 <= i < |cands| && TruthyString(cands[i]) && r.value == cands[i].value &&
                                    forall j :: 0 <= j < i ==> !TruthyString(cands[j])
  {
    if cands == [] then None
    else if TruthyString(cands[0]) then Some(cands[0].value)
    else
      var r := FirstTruthy(cands[1..]);
      assert forall i :: 1 <= i < |cands| ==> cands[i] == cands[1..][i - 1];
      if r.Some? then
        ghost var i :| 0 <= i < |cands[1..]| && TruthyString(cands[1..][i]) && r.value == cands[1..][i].value &&
                       forall j :: 0 <= j < i ==> !TruthyString(cands[1..][j]);
        assert TruthyString(cands[i + 1]) && r.value == cands[i + 1].value;
        r
      else r
  }

  /** `a || b || fallback` for texts. */
  function TextOr(cands: seq<Option<string>>, fallback: string): (r: string)
    ensures FirstTruthy(cands).Some? ==> r == FirstTruthy(cands).value
    ensures FirstTruthy(cands).None? ==> r == fallback
  {
    match FirstTruthy(cands)
    case Some(t) => t
    case None => fallback
  }
}
