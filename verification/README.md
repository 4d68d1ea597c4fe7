# Saved-query clause handler, modelled in Dafny

This project models the `saved` query clause of the SavedQueries Elasticsearch
plugin: `SavedQueryParser.parse`. The clause names a saved query
(`{"saved":{"name":"q"}}`), a set of tags (`{"saved":{"tags":["a","b"]}}`) or an
arbitrary selecting query (`{"saved":{"query":{...}}}`). The handler extracts
that reference from the parser's token stream and resolves it against the
`savedqueries` index. A name is looked up and its stored `querySource` is
expanded into a query tree. Tags or a query are run as a search capped at
10000 hits, and every hit whose name is not on the chain is expanded into one
SHOULD clause of a single disjunction. Stored sources may contain further `saved` clauses. A chain of
the saved queries currently being expanded guards against cycles: a cycle on
the name path is an error, while on the tag/query path the cyclic hit is
skipped.

Files:

- `Wrappers.dfy`: `Option` and `Result`.
- `XContent.dfy`: the parser's tokens, the JSON documents they come from, and
  `map()`, the atomic read of a nested object, with its round trip.
- `SavedQueryTypes.dfy`: errors, selectors, stored sources, query trees,
  records, the store, and the cap `MaxTaggedQueries = 10000`.
- `Extraction.dfy`: the member loop (`Scan`/`Extract`), the inner `tags` loop
  (`TagRun`), and a member-by-member reference reading (`FoldFields`) proved
  equal to the loop on serialized documents.
- `Resolution.dfy`: the name path, the tag/query path, the hit loop, and the
  inner-query expansion of stored sources. These form one mutually recursive
  group.
- `ResolutionProperties.dfy`: what the paths return, described independently
  of how they compute it.
- `Examples.dfy`: worked scenarios on small stores.

Modelling choices:

- The chain is the handler's per-thread `TreeSet`. Here it is passed in
  explicitly, and every call returns the chain it leaves behind
  (`Outcome(res, chain)`). Pushes and pops are modelled as set operations, in
  the source's order. A top-level parse starts from the empty chain.
- The store is a finite map from document id to `Record(name, source)`, plus
  an uninterpreted ranked `search`. Every hit of `search` is a stored id
  (`SearchClosed`). The name path pushes the looked-up id. The tag/query path
  pushes the hit's `name` field, because that is what the source reads
  (`sourceAsMap.get("name")`).
- Termination is proved with a lexicographic measure. Its first component is
  the number of store names (ids and `name` fields) that are not on the chain.
  Every nested expansion pushes such a name, so that number strictly
  decreases, and the nesting depth is bounded by the number of stored names.
- A stored `querySource` is already parsed. It is a tree of plain clauses,
  compound clauses, nested `saved` clauses (kept as their token stream), and
  sources the inner parser rejects. Expanding it is the inner-query parser,
  which re-enters the handler on each nested `saved` clause.
- `Scalar` tokens are the tokens whose `isValue()` holds; they carry their
  `text()`. The null token is not a value token.
- A token stream that ends inside the clause fails with `TruncatedInput`.
  On JSON input the parser itself fails on the unexpected end of input; a
  null token past the end would also fail, at the `isValue()` checks of
  SavedQueryParser.java lines 100 and 129.

Behaviour of the code worth noting:

- Only object-valued members other than `query` and array-valued members
  other than `tags` are rejected. Scalar members with any other key are
  ignored, not rejected.
- Several recognised members are allowed. A `name` wins over any selector, and
  `tags` and `query` overwrite each other, so the last one wins.
- On the name path, the cycle check comes before the store lookup, so a name
  on the chain fails as a recursive loop even when it is not stored.
- `tags` elements are any value tokens (strings, numbers, booleans), not only
  strings. A nested array inside `tags` ends the tag run at its own
  END_ARRAY (`Examples.NestedTagArray`).

## Model

| member | source | states |
|---|---|---|
| XContent.ReadObject | src/main/java/org/elasticsearch/index/query/SavedQueryParser.java:110 | `map()` splits the stream into the object's members, one closing token, and the tokens after it, which are strictly fewer than the input |
| XContent.CloseIndex | src/main/java/org/elasticsearch/index/query/SavedQueryParser.java:110 | the token that closes the open object lies inside the stream and is a closing token |
| XContent.CloseIndexSkipsValue | src/main/java/org/elasticsearch/index/query/SavedQueryParser.java:110 | the tokens of any JSON value are balanced: skipping them never changes which token closes the enclosing object |
| XContent.ReadObjectRoundTrip | src/main/java/org/elasticsearch/index/query/SavedQueryParser.java:110 | `map()` on a serialized object returns exactly that object's member tokens and leaves the parser just after its END_OBJECT |
| Extraction.TagRun | src/main/java/org/elasticsearch/index/query/SavedQueryParser.java:127-133 | the inner `tags` loop leaves the parser strictly further on |
| Extraction.TagRunReadsValues | src/main/java/org/elasticsearch/index/query/SavedQueryParser.java:127-133 | the tag list is exactly the texts of the value tokens before the first END_ARRAY, in order, with non-value tokens skipped; the parser is left just after that END_ARRAY |
| Extraction.TagRunNeedsEnd | src/main/java/org/elasticsearch/index/query/SavedQueryParser.java:127-133 | the tag run fails exactly when no END_ARRAY follows |
| Extraction.TagRunOverFlatItems | src/main/java/org/elasticsearch/index/query/SavedQueryParser.java:120-133 | a serialized flat `tags` array yields its scalar items in order, nulls skipped |
| Extraction.Scan | src/main/java/org/elasticsearch/index/query/SavedQueryParser.java:94-141 | the member loop fails only with TruncatedInput (the stream ends first) or with UnsupportedField; a name or selector, once collected, is never cleared by a later member |
| Extraction.ScanReadsFromStream | src/main/java/org/elasticsearch/index/query/SavedQueryParser.java:94-141 | what the loop reports comes from the stream: a rejected field is the current field or a field name it read; a success met an END_OBJECT; a newly collected name is the text of a value token |
| Extraction.Extract | src/main/java/org/elasticsearch/index/query/SavedQueryParser.java:80-141 | extraction from the start of the `saved` object fails only with TruncatedInput or UnsupportedField naming a field of the stream (or the empty current field); a success met an END_OBJECT; a collected name is a value token's text |
| Extraction.ScanMatchesFold | src/main/java/org/elasticsearch/index/query/SavedQueryParser.java:94-141 | on a serialized `saved` object the token loop returns the same reference or the same error as reading the members one by one |
| Extraction.FoldRejectsFirst | src/main/java/org/elasticsearch/index/query/SavedQueryParser.java:106-139 | the first object member other than `query`, or array member other than `tags`, fails the reading with an error naming it, whatever follows |
| Extraction.FoldAccepts | src/main/java/org/elasticsearch/index/query/SavedQueryParser.java:100-139 | with no rejected member the reading succeeds; the name is the last `name` scalar and the selector the last `tags`/`query` member; once set, each is kept unless a later member overwrites it |
| Extraction.FoldKeepsSome | src/main/java/org/elasticsearch/index/query/SavedQueryParser.java:100-133 | no member clears a name or selector once one is set |
| Extraction.ExtractRejectsUnsupported | src/main/java/org/elasticsearch/index/query/SavedQueryParser.java:106-139 | extraction of a document with an unsupported object or array member fails with UnsupportedField naming the first such member |
| Extraction.ExtractCollects | src/main/java/org/elasticsearch/index/query/SavedQueryParser.java:94-141 | any other document is accepted; scalar members other than `name` are ignored; there is a name iff some `name` scalar is present, and it is the last one; there is a selector iff a `tags` array or `query` object is present, and it comes from the last one |
| Resolution.Push | src/main/java/org/elasticsearch/index/query/SavedQueryParser.java:164 | a name is only pushed when it is not on the chain (checked at every call site); popping it again restores the chain exactly |
| Resolution.Pop | src/main/java/org/elasticsearch/index/query/SavedQueryParser.java:172 | the popped name is gone and every other name on the chain stays |
| Resolution.PushShrinksMeasure | src/main/java/org/elasticsearch/index/query/SavedQueryParser.java:144-164 | pushing a stored name that is not on the chain strictly shrinks the set of stored names off the chain, so resolution terminates and nests at most as deep as there are stored names |
| Resolution.Cap | src/main/java/org/elasticsearch/index/query/SavedQueryParser.java:186-188 | the search keeps the first 10000 hits of the ranking: exactly 10000 when there are more, all hits when there are no more |
| Resolution.Parse | src/main/java/org/elasticsearch/index/query/SavedQueryParser.java:78-225 | the chain after the handler returns or fails equals the chain before; an extraction error is the handler's error |
| Resolution.ResolveName | src/main/java/org/elasticsearch/index/query/SavedQueryParser.java:142-175 | the chain is restored; a name on the chain fails with the recursive-loop error naming it and the chain, before any lookup; a missing name fails with NoSuchQuery and no result; otherwise the result is the expansion of the stored source with the name pushed |
| Resolution.ResolveSelector | src/main/java/org/elasticsearch/index/query/SavedQueryParser.java:176-223 | the chain is restored; a success is a SHOULD disjunction with no more clauses than the search cap of 10000 hits |
| Resolution.ResolveHits | src/main/java/org/elasticsearch/index/query/SavedQueryParser.java:192-222 | the chain is restored after every hit, including a failing one; there are never more clauses than hits |
| Resolution.Expand | src/main/java/org/elasticsearch/index/query/SavedQueryParser.java:160-168 | expanding a stored source (re-entering the handler on nested `saved` clauses) leaves the chain as it found it |
| Resolution.ExpandAll | src/main/java/org/elasticsearch/index/query/SavedQueryParser.java:165-168 | the sub-queries of a compound source keep their number and leave the chain as found |
| Resolution.ParseTopLevel | src/main/java/org/elasticsearch/index/query/SavedQueryParser.java:88-93 | a top-level parse starts from an empty chain and leaves it empty, so nothing carries over to the next parse |
| ResolutionProperties.ResolveHitsSucceeds | src/main/java/org/elasticsearch/index/query/SavedQueryParser.java:192-222 | the hit loop succeeds iff every hit whose name is off the chain expands; hits on the chain are skipped, not fatal |
| ResolutionProperties.ResolveHitsClauses | src/main/java/org/elasticsearch/index/query/SavedQueryParser.java:190-222 | a successful hit loop has one SHOULD clause per hit off the chain, in hit order, each that hit's expansion with its name pushed |
| ResolutionProperties.ResolveHitsFailsAtFirst | src/main/java/org/elasticsearch/index/query/SavedQueryParser.java:207-220 | a failing hit loop fails with the error of the first kept hit whose expansion fails |
| ResolutionProperties.ResolveHitsExpandsKept | src/main/java/org/elasticsearch/index/query/SavedQueryParser.java:192-222 | the hit loop, with its pushes and pops, returns what expanding the hits off the chain one by one against the entry chain returns |
| ResolutionProperties.CollectSucceeds | src/main/java/org/elasticsearch/index/query/SavedQueryParser.java:192-222 | results taken left to right give all the values, in place, exactly when every result is a value |
| ResolutionProperties.CollectFailsAtFirst | src/main/java/org/elasticsearch/index/query/SavedQueryParser.java:207-220 | results taken left to right otherwise give the first error, every earlier result being a value |
| ResolutionProperties.ResolveSelectorClauses | src/main/java/org/elasticsearch/index/query/SavedQueryParser.java:184-222 | the tag/query path succeeds iff every capped search hit whose name is off the chain expands; its disjunction then has one SHOULD clause per such hit, in hit order, each that hit's expansion with its name pushed |
| ResolutionProperties.ResolveSelectorFailsAtFirst | src/main/java/org/elasticsearch/index/query/SavedQueryParser.java:184-222 | a failing tag/query path fails with the error of the first capped hit off the chain whose expansion fails |
| ResolutionProperties.KeptNone | src/main/java/org/elasticsearch/index/query/SavedQueryParser.java:196-200 | when every hit's name is on the chain, no hit is expanded |
| ResolutionProperties.NoKeptHitsEmptyDisjunction | src/main/java/org/elasticsearch/index/query/SavedQueryParser.java:190-200 | zero hits, or only hits on the chain, give an empty disjunction rather than an error |
| ResolutionProperties.ExpandAllCharacterized | src/main/java/org/elasticsearch/index/query/SavedQueryParser.java:165-168 | a compound source expands iff each part expands against the same chain; the parts keep their order; otherwise the first failing part's error is returned |
| ResolutionProperties.ParseRejectsUnsupported | src/main/java/org/elasticsearch/index/query/SavedQueryParser.java:106-139 | an unsupported object or array member fails the whole parse with the "does not support [field]" error naming the first such member |
| ResolutionProperties.ParseTakesNamePath | src/main/java/org/elasticsearch/index/query/SavedQueryParser.java:142 | a `name` member selects the name path with its last value, whatever `tags`/`query` members are also present |
| ResolutionProperties.ParseTakesSelectorPath | src/main/java/org/elasticsearch/index/query/SavedQueryParser.java:176-191 | without a name, the last `tags` array or `query` object is the search selector |
| ResolutionProperties.ParseNeedsReference | src/main/java/org/elasticsearch/index/query/SavedQueryParser.java:176-183 | with neither a name nor a selector the parse fails with the "needs either a name ... or tags ... or query" error |
| Examples.ExtractByName | src/main/java/org/elasticsearch/index/query/SavedQueryParser.java:100-105 | `{"name": n}` yields name n and no selector |
| Examples.ExtractByTag | src/main/java/org/elasticsearch/index/query/SavedQueryParser.java:118-134 | `{"tags": [t]}` yields the terms-on-tags selector for [t] and no name |
| Examples.NameResolvesToStoredQuery | src/main/java/org/elasticsearch/index/query/SavedQueryParser.java:142-168 | a stored term query referenced by name resolves to that term query |
| Examples.UnknownNameFails | src/main/java/org/elasticsearch/index/query/SavedQueryParser.java:150-156 | a name not in the store fails with NoSuchQuery naming it |
| Examples.SelfReferenceFails | src/main/java/org/elasticsearch/index/query/SavedQueryParser.java:144-149 | a saved query that refers to itself fails with the recursive-loop error naming it |
| Examples.MutualReferenceFails | src/main/java/org/elasticsearch/index/query/SavedQueryParser.java:144-149 | with A referring to B and B to A, either entry point fails with the recursive-loop error on the chain {A, B} |
| Examples.TagsResolveToDisjunction | src/main/java/org/elasticsearch/index/query/SavedQueryParser.java:186-222 | two queries tagged "sports" resolve to the disjunction of both, in hit order |
| Examples.InnerTagCycleSkipsActiveHit | src/main/java/org/elasticsearch/index/query/SavedQueryParser.java:196-200 | inside q1's own expansion the q1 hit is skipped and only q2 is expanded |
| Examples.TagCycleIsSkipped | src/main/java/org/elasticsearch/index/query/SavedQueryParser.java:192-222 | a tag query that finds itself still resolves: the cyclic member is omitted at the inner level, not fatal |
| Examples.NestedTagArray | src/main/java/org/elasticsearch/index/query/SavedQueryParser.java:127-133 | `{"tags": [[a], b]}` selects only a: the nested END_ARRAY ends the tag run |
| Examples.ExtractNameThenTags | src/main/java/org/elasticsearch/index/query/SavedQueryParser.java:94-141 | `{"name": n, "tags": [t]}` collects both the name and the tag selector |
| Examples.NameWinsOverTags | src/main/java/org/elasticsearch/index/query/SavedQueryParser.java:142 | `{"name": "q2", "tags": ["sports"]}` resolves q2 by name and runs no search |

## Left out

- The store client (`prepareGet`, `prepareSearch`) and the network are not modelled. The store is a finite map plus an uninterpreted ranked search. DFS search type, `from`/`size` paging beyond the first 10000 hits, and explain are not modelled.
- XContent parsing of `querySource` and the `QueryParseContext` machinery are not modelled. Stored sources are pre-parsed trees, and parse failures appear as `Unparsable` sources.
- A stored document without a `querySource` or `name` field (a null dereference in the source) is not modelled: every record has both.
- Lucene `Query`/`BooleanQuery` internals are not modelled; only the tree shape is kept.
- Resolution.ResolveSelector: does not model Lucene's `BooleanQuery` clause limit (`maxClauseCount`, 1024 by default, a setting of the host and not of this plugin). With more kept hits than that limit, `bq.add` (line 214) throws `TooManyClauses` and the clause fails; the model returns the full disjunction. The 10000 bound in its contract is the search cap, not a clause count the handler can reach.
- Extraction.Scan: its contract does not characterise the result in full. The loop is related to an independent member-by-member reading by `ScanMatchesFold`, for documents whose `tags` arrays are flat.
- Thread-local storage and concurrency are replaced by an explicit chain parameter. Isolation between concurrent parses holds by construction.
- The warning logged for a skipped cyclic hit (line 198) is not modelled; only the omission of the hit is.
- Closing the inner parsers (lines 173 and 219) is not modelled.
- Malformed token streams (mismatched brackets) are assumed to be rejected by the JSON parser. `CloseIndex` treats any closing token as closing.
- Plugin registration, the module binding, the plugin descriptor, `names()`, the constructor, and the commented-out index bootstrap have no behaviour worth proving.
- Extraction.ScanMatchesFold: stated only for documents whose `tags` arrays hold scalars and nulls. Nested containers inside `tags` end the tag run early, which is covered by `TagRunReadsValues` and `Examples.NestedTagArray` instead.
- Extraction.ExtractCollects: stated for the same documents as `ScanMatchesFold`.
- Extraction.ExtractRejectsUnsupported: stated for the same documents as `ScanMatchesFold`.
- ResolutionProperties.ParseRejectsUnsupported: stated for the same documents as `ScanMatchesFold`.
- ResolutionProperties.ParseTakesNamePath: stated for the same documents as `ScanMatchesFold`.
- ResolutionProperties.ParseTakesSelectorPath: stated for the same documents as `ScanMatchesFold`.
- ResolutionProperties.ParseNeedsReference: stated for the same documents as `ScanMatchesFold`.
