/** Python values as the client sees them: the arguments a caller may pass,
    the truthiness test `if x:` applies to them, and the exceptions the
    client raises. */
module Values {

  /** An arbitrary Python object, as far as the client inspects it. */
  datatype Value =
    | Str(s: string)
    | List(items: seq<Value>)
    | Int(i: int)
    | Bool(b: bool)
    | NoneValue

  /** Python truthiness (`bool(x)`): empty strings and lists, zero, False and
      None are falsy, everything else is truthy. */
  predicate Truthy(v: Value)
  {
    match v
    case Str(s) => |s| > 0
    case List(items) => |items| > 0
    case Int(i) => i != 0
    case Bool(b) => b
    case NoneValue => false
  }

  /** The `str` elements of a list of strings, in order. */
  function StringsOf(items: seq<Value>): (r: seq<string>)
    requires forall i :: 0 <= i < |items| ==> items[i].Str?
    ensures |r| == |items|
    ensures forall i :: 0 <= i < |items| ==> r[i] == items[i].s
  {
    if items == [] then [] else [items[0].s] + StringsOf(items[1..])
  }

  /** A Python list of `str` objects built from Dafny strings. */
  function StrList(ss: seq<string>): (r: seq<Value>)
    ensures |r| == |ss|
    ensures forall i :: 0 <= i < |ss| ==> r[i] == Str(ss[i])
  {
    if ss == [] then [] else [Str(ss[0])] + StrList(ss[1..])
  }

  /** The exceptions the client raises; each names the offending parameter
      or, for an HTTP error, carries the response status. */
  datatype Error =
    | TypeError(param: string)
    | ValueError(param: string)
    | HTTPError(status: int)
    | KeyError(key: string)

  datatype Result<+T> = Success(value: T) | Failure(error: Error)

  datatype Option<+T> = None | Some(value: T)
}
