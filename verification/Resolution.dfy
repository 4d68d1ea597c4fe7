/** Resolution: the name path and the tag/query path of the clause handler,
    and the inner-query parser's expansion of stored sources, which re-enters
    the handler for nested `saved` clauses. The chain of saved queries being
    expanded (a per-thread TreeSet in the handler) is threaded explicitly:
    every call takes the chain and returns the chain it leaves behind. */
module Resolution {
  import opened Wrappers
  import opened XContent
  import opened SavedQueryTypes
  import opened Extraction

  /** A result together with the chain as the call leaves it. */
  datatype Outcome<+T> = Outcome(res: Result<T, Error>, chain: set<string>)

  /** Adds a name to the chain. Its precondition is checked at every call
      site: no name is ever pushed while it is already on the chain. */
  function Push(chain: set<string>, name: string): (c: set<string>)
    requires name !in chain
    ensures name in c && |c| == |chain| + 1
    ensures Pop(c, name) == chain
  {
    chain + {name}
  }

  /** Removes a name from the chain (the `finally` block). */
  function Pop(chain: set<string>, name: string): (c: set<string>)
    ensures name !in c && c <= chain
    ensures forall other | other in chain && other != name :: other in c
  {
    chain - {name}
  }

  /** The termination measure: names of the store not yet on the chain. */
  function Measure(st: Store, chain: set<string>): nat
  {
    |Names(st) - chain|
  }

  /** Pushing a stored name that is not on the chain shrinks the measure, so
      every nested expansion is strictly closer to exhausting the store. */
  lemma PushShrinksMeasure(st: Store, chain: set<string>, name: string)
    requires name in Names(st) && name !in chain
    ensures Measure(st, Push(chain, name)) < Measure(st, chain)
  {
    var before := Names(st) - chain;
    var after := Names(st) - Push(chain, name);
    assert after == before - {name};
    assert name in before;
    assert before == after + {name};
  }

  /** The first MaxTaggedQueries hits of a ranked search. */
  function Cap(hits: seq<string>): (r: seq<string>)
    ensures |r| <= MaxTaggedQueries
    ensures r <= hits
    ensures forall h | h in r :: h in hits
    ensures |hits| <= MaxTaggedQueries ==> r == hits
    ensures |hits| > MaxTaggedQueries ==> |r| == MaxTaggedQueries
  {
    if |hits| <= MaxTaggedQueries then hits else hits[..MaxTaggedQueries]
  }

  /** The clause handler on the tokens after the `saved` object's
      START_OBJECT, with the chain active when it is entered. */
  function Parse(st: Store, clause: seq<Token>, chain: set<string>): (o: Outcome<Query>)
    requires SearchClosed(st)
    ensures o.chain == chain
    ensures Extract(clause).Failure? ==> o.res == Failure(Extract(clause).error)
    decreases Measure(st, chain), 0, 3, 0
  {
    match Extract(clause)
    case Failure(e) => Outcome(Failure(e), chain)
    case Success(ref) =>
      if ref.name.Some? then ResolveName(st, ref.name.value, chain)
      else if ref.selector.None? then Outcome(Failure(MissingReference), chain)
      else ResolveSelector(st, ref.selector.value, chain)
  }

  /** The name path: cycle check, point lookup, expansion with the name pushed,
      and the pop on every exit. */
  function ResolveName(st: Store, name: string, chain: set<string>): (o: Outcome<Query>)
    requires SearchClosed(st)
    ensures o.chain == chain
    ensures name in chain ==> o.res == Failure(RecursiveLoop(name, chain))
    ensures name !in chain && name !in st.docs ==> o.res == Failure(NoSuchQuery(name))
    ensures name !in chain && name in st.docs ==>
      (PushShrinksMeasure(st, chain, name);
       o.res == Expand(st, st.docs[name].source, Push(chain, name)).res)
    decreases Measure(st, chain), 0, 1, 0
  {
    if name in chain then Outcome(Failure(RecursiveLoop(name, chain)), chain)
    else if name !in st.docs then Outcome(Failure(NoSuchQuery(name)), chain)
    else
      PushShrinksMeasure(st, chain, name);
      var inner := Expand(st, st.docs[name].source, Push(chain, name));
      Outcome(inner.res, Pop(inner.chain, name))
  }

  /** The tag/query path: a search capped at MaxTaggedQueries hits, combined
      into one disjunction of SHOULD clauses. */
  function ResolveSelector(st: Store, sel: Selector, chain: set<string>): (o: Outcome<Query>)
    requires SearchClosed(st)
    ensures o.chain == chain
    ensures o.res.Success? ==> o.res.value.Should? && |o.res.value.clauses| <= MaxTaggedQueries
    decreases Measure(st, chain), 0, 2, 0
  {
    var hits := Cap(st.search(sel));
    assert forall h | h in hits :: h in st.docs by {
      forall h | h in hits ensures h in st.docs {
        assert h in st.search(sel);
      }
    }
    var r := ResolveHits(st, hits, chain);
    Outcome(if r.res.Failure? then Failure(r.res.error) else Success(Should(r.res.value)), r.chain)
  }

  /** The loop over search hits: a hit whose `name` is on the chain is skipped
      (the handler only logs a warning); any other is expanded with its name
      pushed, and a failing expansion aborts the loop. */
  function ResolveHits(st: Store, hits: seq<string>, chain: set<string>): (o: Outcome<seq<Query>>)
    requires SearchClosed(st)
    requires forall h | h in hits :: h in st.docs
    ensures o.chain == chain
    ensures o.res.Success? ==> |o.res.value| <= |hits|
    decreases Measure(st, chain), 0, 0, |hits|
  {
    if |hits| == 0 then Outcome(Success([]), chain)
    else
      var rec := st.docs[hits[0]];
      if rec.name in chain then ResolveHits(st, hits[1..], chain)
      else
        PushShrinksMeasure(st, chain, rec.name);
        var inner := Expand(st, rec.source, Push(chain, rec.name));
        var after := Pop(inner.chain, rec.name);
        if inner.res.Failure? then Outcome(Failure(inner.res.error), after)
        else
          var more := ResolveHits(st, hits[1..], after);
          Outcome(if more.res.Failure? then Failure(more.res.error)
                  else Success([inner.res.value] + more.res.value),
                  more.chain)
  }

  /** The inner-query parser on a stored source: structure is kept, nested
      `saved` clauses re-enter the handler on the same chain. */
  function Expand(st: Store, src: Source, chain: set<string>): (o: Outcome<Query>)
    requires SearchClosed(st)
    ensures o.chain == chain
    decreases Measure(st, chain), Size(src), 0, 0
  {
    match src
    case Plain(text) => Outcome(Success(Leaf(text)), chain)
    case Unparsable(reason) => Outcome(Failure(InvalidSource(reason)), chain)
    case SavedClause(clause) => Parse(st, clause, chain)
    case Nested(kind, parts) =>
      var o := ExpandAll(st, parts, chain);
      Outcome(if o.res.Failure? then Failure(o.res.error) else Success(Node(kind, o.res.value)), o.chain)
  }

  /** Sub-queries of a compound source, left to right; the first failure aborts. */
  function ExpandAll(st: Store, parts: seq<Source>, chain: set<string>): (o: Outcome<seq<Query>>)
    requires SearchClosed(st)
    ensures o.chain == chain
    ensures o.res.Success? ==> |o.res.value| == |parts|
    decreases Measure(st, chain), SizeAll(parts), 1, 0
  {
    if |parts| == 0 then Outcome(Success([]), chain)
    else
      var first := Expand(st, parts[0], chain);
      if first.res.Failure? then Outcome(Failure(first.res.error), first.chain)
      else
        var more := ExpandAll(st, parts[1..], first.chain);
        Outcome(if more.res.Failure? then Failure(more.res.error)
                else Success([first.res.value] + more.res.value),
                more.chain)
  }

  /** A top-level parse starts with an empty chain. */
  function ParseTopLevel(st: Store, clause: seq<Token>): (o: Outcome<Query>)
    requires SearchClosed(st)
    ensures o.chain == {}
  {
    Parse(st, clause, {})
  }
}
