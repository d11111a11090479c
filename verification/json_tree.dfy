/**
 * An already-parsed JSON document, as the operator descriptor reader sees it
 * (jsoncpp's Json::Value restricted to the kinds the descriptor uses). Its
 * strings are held as the text the operator ends up with: jsoncpp's escapes,
 * the NUL that ends `asCString()` and Qt's UTF-8 decoding of the result are
 * all part of the reader's outcome.
 */
module JsonTree {

  datatype Json =
    | JNull
    | JStr(s: string)
    | JArr(items: seq<Json>)
    | JObj(members: map<string, Json>)

  /** `node["key"]`: the member when `node` is an object holding `key`, null otherwise. */
  function Member(node: Json, key: string): Json
  {
    if node.JObj? && key in node.members then node.members[key] else JNull
  }

  /** The elements `node[0] .. node[size() - 1]`; a non-array has none. */
  function Elements(node: Json): seq<Json>
  {
    if node.JArr? then node.items else []
  }

  /** `node[i]` for an index that may be past the end (null there). */
  function At(node: Json, i: nat): Json
  {
    if i < |Elements(node)| then Elements(node)[i] else JNull
  }

  /** `QString(node.asCString())`: the text of a string node; other kinds give the empty string. */
  function AsString(node: Json): string
  {
    if node.JStr? then node.s else ""
  }
}
