/** JSON values as the message bus and the record store hand them over. */
module Payload {

  /** A value produced by json.loads (floating-point numbers are not modelled).
      An object is the dict's items in insertion order. Python's None is JNull. */
  datatype Json =
    | JNull
    | JBool(b: bool)
    | JInt(i: int)
    | JStr(s: string)
    | JList(items: seq<Json>)
    | JObject(entries: seq<(string, Json)>)

  /** Python's bool(v): the false values are exactly None, False, zero and the
      empty string, list and dict. */
  predicate Truthy(v: Json): (r: bool)
    ensures !r <==> v in {JNull, JBool(false), JInt(0), JStr(""), JList([]), JObject([])}
  {
    match v
    case JNull => false
    case JBool(b) => b
    case JInt(i) => i != 0
    case JStr(s) => s != ""
    case JList(items) => items != []
    case JObject(entries) => entries != []
  }

  /** list(d.values()) for a dict given by its items. */
  function Values(entries: seq<(string, Json)>): (r: seq<Json>)
    ensures |r| == |entries|
    ensures forall i :: 0 <= i < |r| ==> r[i] == entries[i].1
  {
    seq(|entries|, i requires 0 <= i < |entries| => entries[i].1)
  }
}
