/** The values json.loads can return, and the outcome of calling it.
    JSON text itself is not parsed here: the parser is a parameter of the
    stages that use it. */
module Json {

  datatype Json =
    | JNull
    | JBool(b: bool)
    | JNum(literal: string)  // a number, kept as the text it was written as
    | JStr(str: string)
    | JArr(elems: seq<Json>)
    | JObj(fields: map<string, Json>)

  /** The result of json.loads(text): a value, or the JSONDecodeError it raised. */
  datatype Parsed = Malformed(error: string) | Parsed(value: Json)

  /** Python lists and dicts cannot be dictionary keys; every other JSON value can. */
  predicate Hashable(v: Json) {
    !v.JArr? && !v.JObj?
  }

  /** The Python type name the TypeError for an unhashable value reports. */
  function TypeName(v: Json): string {
    match v
    case JNull => "NoneType"
    case JBool(_) => "bool"
    case JNum(_) => "float"
    case JStr(_) => "str"
    case JArr(_) => "list"
    case JObj(_) => "dict"
  }

  predicate AllStrings(vs: seq<Json>) {
    forall i :: 0 <= i < |vs| ==> vs[i].JStr?
  }

  function Strings(vs: seq<Json>): (ss: seq<string>)
    requires AllStrings(vs)
    ensures |ss| == |vs| && forall i :: 0 <= i < |vs| ==> vs[i] == JStr(ss[i])
  {
    if vs == [] then [] else [vs[0].str] + Strings(vs[1..])
  }

  function FromStrings(ss: seq<string>): (vs: seq<Json>)
    ensures |vs| == |ss| && forall i :: 0 <= i < |ss| ==> vs[i] == JStr(ss[i])
  {
    if ss == [] then [] else [JStr(ss[0])] + FromStrings(ss[1..])
  }

  lemma FromThreeStrings(a: string, b: string, c: string)
    ensures FromStrings([a, b, c]) == [JStr(a), JStr(b), JStr(c)]
  {
  }

  lemma StringsFromStrings(ss: seq<string>)
    ensures AllStrings(FromStrings(ss)) && Strings(FromStrings(ss)) == ss
  {
  }
}
