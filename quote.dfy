/** ObterCotacao (Program.cs:80-106): the price in a quote provider's reply, or -1. */
module Quote {
  import opened Wrappers
  import opened Text
  import opened JsonTree
  import opened Library
  import opened Events

  /** The price the fetch returns when anything goes wrong. */
  const Sentinel: real := -1.0

  const QuoteKey: string := "Global Quote"
  const PriceKey: string := "05. price"

  /** The provider's answer to one request: RequestFailed stands for every library
      exception before a tree exists (network, HTTP status, malformed JSON text). */
  datatype Reply = RequestFailed | Document(root: Json)

  datatype Quote = Priced(price: real) | Failed(cause: FetchFailure)

  /** JsonNode.ToString: the raw text of a string, the literal of a number or a
      boolean, the JSON text of an array or an object. */
  function NodeText(node: Json, p: Platform): string
    requires !node.Null?
  {
    match node
    case Bool(b) => if b then "true" else "false"
    case Number(t) => t
    case String(s) => s
    case Array(_) => p.serialize(node)
    case Object(_) => p.serialize(node)
  }

  /** `json["Global Quote"]?["05. price"]?.ToString()`: None is the null the
      chain yields for a missing member, Err an indexer that threw. */
  function PriceText(root: Json, p: Platform): Result<Option<string>, FetchFailure> {
    match Index(root, QuoteKey)
    case Threw => Err(NotAnObject)
    case Absent => Ok(None)
    case Present(q) =>
      match Index(q, PriceKey)
      case Threw => Err(NotAnObject)
      case Absent => Ok(None)
      case Present(n) => Ok(Some(NodeText(n, p)))
  }

  /** The outcome of one fetch: the checks of Program.cs:87-99 in their order. */
  function Fetch(reply: Reply, p: Platform): (q: Quote)
    ensures reply.RequestFailed? ==> q == Failed(RequestError)
    ensures q.Priced? ==> reply.Document? && reply.root.Object? && QuoteKey in reply.root.members
  {
    match reply
    case RequestFailed => Failed(RequestError)
    case Document(root) =>
      if root.Null? then Failed(NullDocument)
      else
        match PriceText(root, p)
        case Err(f) => Failed(f)
        case Ok(text) =>
          if IsNullOrWhiteSpace(text) then Failed(BlankPrice)
          else
            match p.parseDecimal(text.value)
            case Some(v) => Priced(v)
            case None => Failed(Unparsable)
  }

  /** The decimal ObterCotacao returns. */
  function PriceOf(q: Quote): real {
    match q
    case Priced(v) => v
    case Failed(_) => Sentinel
  }

  /** What one call of ObterCotacao makes observable: the request, then the
      error line when it failed. */
  function FetchEvents(ativo: string, reply: Reply, p: Platform): (r: seq<Event>)
    ensures |r| == (if Fetch(reply, p).Failed? then 2 else 1)
    ensures r[0] == Request(ativo)
  {
    [Request(ativo)] + match Fetch(reply, p) case Failed(f) => [Log(FetchError(f))] case Priced(_) => []
  }

  /** The fetch returns a price v exactly when the reply is a document with an
      object under "Global Quote" holding a non-null "05. price" whose text is
      not blank and parses to v. */
  lemma FetchPriced(reply: Reply, p: Platform, v: real)
    ensures Fetch(reply, p) == Priced(v) <==>
      && reply.Document? && reply.root.Object? && QuoteKey in reply.root.members
      && var q := reply.root.members[QuoteKey];
         && q.Object? && PriceKey in q.members
         && var n := q.members[PriceKey];
            && !n.Null? && !IsBlank(NodeText(n, p)) && p.parseDecimal(NodeText(n, p)) == Some(v)
  {
  }

  /** Each cause of failure has its own condition on the reply, checked in the
      source's order. The first clause only recalls that PriceOf maps every
      failure to -1; that ObterCotacao returns it on each failing path is the
      contract of Program.World.FetchQuote. An indexer throws on a node that is
      neither null nor an object; a missing or JSON-null member, like white-space
      text, is a blank price. */
  lemma FetchFailures(reply: Reply, p: Platform)
    ensures Fetch(reply, p).Failed? ==> PriceOf(Fetch(reply, p)) == Sentinel
    ensures Fetch(reply, p) == Failed(RequestError) <==> reply == RequestFailed
    ensures Fetch(reply, p) == Failed(NullDocument) <==> reply == Document(Null)
    ensures Fetch(reply, p) == Failed(NotAnObject) <==>
      && reply.Document? && !reply.root.Null?
      && (|| !reply.root.Object?
          || (&& QuoteKey in reply.root.members
              && !reply.root.members[QuoteKey].Null?
              && !reply.root.members[QuoteKey].Object?))
    ensures Fetch(reply, p) == Failed(BlankPrice) <==>
      && reply.Document? && reply.root.Object?
      && (|| QuoteKey !in reply.root.members
          || var q := reply.root.members[QuoteKey];
             || q.Null?
             || (&& q.Object?
                 && (|| PriceKey !in q.members
                     || var n := q.members[PriceKey];
                        n.Null? || IsBlank(NodeText(n, p)))))
    ensures Fetch(reply, p) == Failed(Unparsable) <==>
      && reply.Document? && reply.root.Object? && QuoteKey in reply.root.members
      && var q := reply.root.members[QuoteKey];
         && q.Object? && PriceKey in q.members
         && var n := q.members[PriceKey];
            && !n.Null? && !IsBlank(NodeText(n, p)) && p.parseDecimal(NodeText(n, p)).None?
  {
  }

  /** A reply whose price is literally "-1" cannot be told apart from a failure. */
  lemma SentinelIsAmbiguous(p: Platform)
    requires p.parseDecimal("-1") == Some(-1.0)
    ensures PriceOf(Fetch(Document(Object(map[QuoteKey := Object(map[PriceKey := String("-1")])])), p))
         == PriceOf(Fetch(RequestFailed, p))
  {
    var inner := Object(map[PriceKey := String("-1")]);
    var root := Object(map[QuoteKey := inner]);
    assert Index(root, QuoteKey) == Present(inner);
    assert Index(inner, PriceKey) == Present(String("-1"));
    assert !IsBlank("-1") by { assert !IsWhiteSpace("-1"[0]); }
  }
}
