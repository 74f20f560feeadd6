/** The JSON document tree of System.Text.Json.Nodes, as far as the program looks into it. */
module JsonTree {
  /** A JSON value. A JSON `null` member is stored as Null; a document whose text
      is `null` parses to Null at the root, which the library reports as a null node. */
  datatype Json =
    | Null
    | Bool(b: bool)
    | Number(text: string)
    | String(s: string)
    | Array(items: seq<Json>)
    | Object(members: map<string, Json>)

  /** What the indexer `node[key]` does: it throws when the node is not an object,
      gives null when the member is missing or is JSON null, and the member otherwise. */
  datatype Child = Threw | Absent | Present(node: Json)

  function Index(node: Json, key: string): (c: Child)
    ensures c.Present? ==> !c.node.Null?
  {
    match node
    case Object(m) => if key in m && !m[key].Null? then Present(m[key]) else Absent
    case _ => Threw
  }
}
