/** The argument check shared by both client constructors: is a value a
    `str`, or a `list` made only of `str` objects? */
module Helpers {
  import opened Values

  /** `all(isinstance(item, str) for item in items)`: scans the list from the
      front and stops at the first element that is not a string. */
  function AllStrings(items: seq<Value>): (ok: bool)
    ensures ok <==> forall i :: 0 <= i < |items| ==> items[i].Str?
  {
    if items == [] then true
    else if !items[0].Str? then false
    else AllStrings(items[1..])
  }

  /** `is_string_or_list_of_strings`: total, never raises. */
  function IsStringOrListOfStrings(v: Value): (ok: bool)
    ensures ok <==> (v.Str? || (v.List? && forall i :: 0 <= i < |v.items| ==> v.items[i].Str?))
  {
    match v
    case Str(_) => true
    case List(items) => AllStrings(items)
    case _ => false
  }

  /** A list that contains a list is refused, however deep the strings sit:
      the inner list is not a `str`. */
  lemma NestedListRefused(items: seq<Value>, k: nat)
    requires k < |items| && items[k].List?
    ensures !IsStringOrListOfStrings(List(items))
  {
  }

  /** A list of strings built from any Dafny strings is accepted, including
      the empty list (the `all` of nothing is true). */
  lemma StrListAccepted(ss: seq<string>)
    ensures IsStringOrListOfStrings(List(StrList(ss)))
    ensures StringsOf(StrList(ss)) == ss
  {
  }

  /** The cases exercised by the repository's tests, and the edge cases. */
  lemma HelperExamples()
    ensures IsStringOrListOfStrings(Str("test string"))
    ensures IsStringOrListOfStrings(List([Str("str1"), Str("str2")]))
    ensures IsStringOrListOfStrings(List([]))
    ensures !IsStringOrListOfStrings(Int(123))
    ensures !IsStringOrListOfStrings(List([Str("str1"), Bool(false)]))
    ensures !IsStringOrListOfStrings(List([List([Str("a")])]))
    ensures !IsStringOrListOfStrings(NoneValue)
  {
  }
}
