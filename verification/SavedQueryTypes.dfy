/** The entities of the saved-query clause handler: its errors, the selectors
    it sends to the query store, stored query sources, the query trees it
    builds, and the store itself. */
module SavedQueryTypes {
  import opened XContent

  /** The search size cap of the tag/query path (MAX_NUM_TAGGED_QUERIES). */
  const MaxTaggedQueries: nat := 10000

  /** Each way the clause handler fails (a QueryParsingException with the
      message named here, or a parser failure on a truncated stream). */
  datatype Error =
    | UnsupportedField(field: string)                 // "[saved] query does not support [field]"
    | MissingReference                                 // "needs either a name ... or tags ... or query"
    | RecursiveLoop(name: string, chain: set<string>)  // "query stack has recursive loop for query ..."
    | NoSuchQuery(name: string)                        // "No saved query with name [...]"
    | InvalidSource(reason: string)                    // the inner parser rejected a stored source
    | TruncatedInput                                   // the token stream ended inside the clause

  /** What is sent to the store's search: the `{"terms":{"tags":[...]}}` query
      built from a `tags` array, or the member tokens of a `query` object. */
  datatype Selector =
    | TagTerms(tags: seq<string>)
    | Subquery(body: seq<Token>)

  /** A stored `querySource`, already parsed by the inner-query parser:
      ordinary clauses, compound clauses with sub-queries, nested `saved`
      clauses (given by their tokens after the opening brace), and sources the
      inner parser rejects. */
  datatype Source =
    | Plain(text: string)
    | Nested(kind: string, parts: seq<Source>)
    | SavedClause(clause: seq<Token>)
    | Unparsable(reason: string)

  /** An executable query tree; `Should` is a BooleanQuery of SHOULD clauses. */
  datatype Query =
    | Leaf(text: string)
    | Node(kind: string, children: seq<Query>)
    | Should(clauses: seq<Query>)

  /** A document of the saved-queries index: its `name` field and its source. */
  datatype Record = Record(name: string, source: Source)

  /** The saved-queries index: documents by id, and a ranked search. */
  datatype Store = Store(docs: map<string, Record>, search: Selector -> seq<string>)

  /** Every search hit is a stored document. */
  ghost predicate SearchClosed(st: Store)
  {
    forall sel: Selector, h: string :: h in st.search(sel) ==> h in st.docs
  }

  /** Every name the handler can put on the chain: document ids (name path)
      and documents' `name` fields (tag/query path). */
  function Names(st: Store): set<string>
  {
    st.docs.Keys + set id | id in st.docs :: st.docs[id].name
  }

  function Size(src: Source): nat
  {
    match src
    case Nested(_, parts) => 1 + SizeAll(parts)
    case _ => 1
  }

  function SizeAll(parts: seq<Source>): nat
  {
    if |parts| == 0 then 0 else Size(parts[0]) + SizeAll(parts[1..])
  }
}
