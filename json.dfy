/**
 * Loosely typed data as the program handles it: the dictionaries the section
 * extractors build, what `model_dump` returns and what is written as JSON.
 * Only the shapes the program produces are represented: null, strings, lists
 * and string-keyed objects.
 */
module Json {

  datatype Json =
    | JNull
    | JStr(s: string)
    | JList(elems: seq<Json>)
    | JObject(fields: map<string, Json>)

  /** A list of strings, as a `List[str]` field is dumped. */
  function JStrings(xs: seq<string>): (r: Json)
    ensures r.JList? && |r.elems| == |xs|
    ensures forall i :: 0 <= i < |xs| ==> r.elems[i] == JStr(xs[i])
  {
    JList(seq(|xs|, i requires 0 <= i < |xs| => JStr(xs[i])))
  }
}
