/** Worked scenarios of the clause handler, stated as facts about the model
    on small stores. */
module Examples {
  import opened Wrappers
  import opened XContent
  import opened SavedQueryTypes
  import opened Extraction
  import opened Resolution

  /** The tokens of `{"name": n}` after its opening brace. */
  function ByName(n: string): seq<Token>
  {
    [FieldName("name"), Scalar(n), EndObject]
  }

  /** The tokens of `{"tags": [t]}` after its opening brace. */
  function ByTag(t: string): seq<Token>
  {
    [FieldName("tags"), StartArray, Scalar(t), EndArray, EndObject]
  }

  lemma ExtractByName(n: string)
    ensures Extract(ByName(n)) == Success(Reference(Some(n), None))
  {
    var ts := ByName(n);
    var got := Reference(Some(n), None);
    assert ts[2..] == [EndObject];
    assert Scan(ts[2..], "name", got) == Success(got);
    assert ts[1..][1..] == ts[2..];
    assert Scan(ts[1..], "name", Nothing) == Success(got);
  }

  lemma ExtractByTag(t: string)
    ensures Extract(ByTag(t)) == Success(Reference(None, Some(TagTerms([t]))))
  {
    var ts := ByTag(t);
    var got := Reference(None, Some(TagTerms([t])));
    assert ts[3..] == [EndArray, EndObject];
    assert TagRun(ts[3..]) == Some(([], [EndObject]));
    assert ts[2..][1..] == ts[3..];
    assert ts[2..][0] == Scalar(t);
    assert [t] + [] == [t];
    assert TagRun(ts[2..]) == Some(([t], [EndObject]));
    assert Scan([EndObject], "tags", got) == Success(got);
    assert ts[1..][1..] == ts[2..];
    assert Scan(ts[1..], "tags", Nothing) == Success(got);
  }

  function NoSearch(sel: Selector): seq<string>
  {
    []
  }

  function SportsSearch(sel: Selector): seq<string>
  {
    if sel == TagTerms(["sports"]) then ["q1", "q2"] else []
  }

  /** `{"saved":{"name":"q1"}}` resolves to q1's stored term query. */
  lemma NameResolvesToStoredQuery()
    ensures var st := Store(map["q1" := Record("q1", Plain("term:field=x"))], NoSearch);
      SearchClosed(st) && ParseTopLevel(st, ByName("q1")).res == Success(Leaf("term:field=x"))
  {
    ExtractByName("q1");
  }

  /** A name that is not stored fails with the missing-query error. */
  lemma UnknownNameFails()
    ensures var st := Store(map["q1" := Record("q1", Plain("term:field=x"))], NoSearch);
      SearchClosed(st) && ParseTopLevel(st, ByName("q9")).res == Failure(NoSuchQuery("q9"))
  {
    ExtractByName("q9");
  }

  /** A saved query that refers to itself fails with the recursive-loop error
      naming it. */
  lemma SelfReferenceFails()
    ensures var st := Store(map["q1" := Record("q1", SavedClause(ByName("q1")))], NoSearch);
      SearchClosed(st) && ParseTopLevel(st, ByName("q1")).res == Failure(RecursiveLoop("q1", {"q1"}))
  {
    var st := Store(map["q1" := Record("q1", SavedClause(ByName("q1")))], NoSearch);
    var loop := Failure(RecursiveLoop("q1", {"q1"}));
    ExtractByName("q1");
    assert Parse(st, ByName("q1"), {"q1"}).res == loop;
    assert Push({}, "q1") == {"q1"};
    assert ResolveName(st, "q1", {}).res == loop;
  }

  /** A refers to B and B to A. */
  function MutualStore(): Store
  {
    Store(map["A" := Record("A", SavedClause(ByName("B"))),
              "B" := Record("B", SavedClause(ByName("A")))], NoSearch)
  }

  /** With the entry point `x` on the chain, the other query `y` is pushed and
      its reference back to `x` fails with the loop error. */
  lemma MutualInnerLoop(x: string, y: string)
    requires (x, y) == ("A", "B") || (x, y) == ("B", "A")
    ensures ResolveName(MutualStore(), y, {x}).res == Failure(RecursiveLoop(x, {"A", "B"}))
  {
    var st := MutualStore();
    ExtractByName(x);
    assert Push({x}, y) == {"A", "B"};
    assert Parse(st, ByName(x), {"A", "B"}).res == Failure(RecursiveLoop(x, {"A", "B"}));
  }

  /** Entering at `x`: `x` is pushed, its stored clause names `y`, and the
      inner loop error comes back out unchanged. */
  lemma MutualOuterLoop(x: string, y: string)
    requires (x, y) == ("A", "B") || (x, y) == ("B", "A")
    ensures ResolveName(MutualStore(), x, {}).res == Failure(RecursiveLoop(x, {"A", "B"}))
  {
    var st := MutualStore();
    MutualInnerLoop(x, y);
    ExtractByName(y);
    assert Push({}, x) == {x};
    assert st.docs[x].source == SavedClause(ByName(y));
    assert Parse(st, ByName(y), {x}).res == Failure(RecursiveLoop(x, {"A", "B"}));
  }

  /** Entering at A: A is pushed, then B, and B's reference back to A closes
      the loop. */
  lemma MutualReferenceFromA()
    ensures SearchClosed(MutualStore())
    ensures ParseTopLevel(MutualStore(), ByName("A")).res == Failure(RecursiveLoop("A", {"A", "B"}))
  {
    ExtractByName("A");
    MutualOuterLoop("A", "B");
  }

  /** Entering at B: the same loop, now named after B. */
  lemma MutualReferenceFromB()
    ensures SearchClosed(MutualStore())
    ensures ParseTopLevel(MutualStore(), ByName("B")).res == Failure(RecursiveLoop("B", {"A", "B"}))
  {
    ExtractByName("B");
    MutualOuterLoop("B", "A");
  }

  /** A refers to B and B to A: either entry point fails with the
      recursive-loop error, naming the entry point and the whole chain. */
  lemma MutualReferenceFails()
    ensures SearchClosed(MutualStore())
    ensures ParseTopLevel(MutualStore(), ByName("A")).res == Failure(RecursiveLoop("A", {"A", "B"}))
    ensures ParseTopLevel(MutualStore(), ByName("B")).res == Failure(RecursiveLoop("B", {"A", "B"}))
  {
    MutualReferenceFromA();
    MutualReferenceFromB();
  }

  /** `{"saved":{"tags":["sports"]}}` over two sports queries is the
      disjunction of both, in hit order. */
  lemma TagsResolveToDisjunction()
    ensures var st := Store(map["q1" := Record("q1", Plain("a")), "q2" := Record("q2", Plain("b"))], SportsSearch);
      SearchClosed(st) && ParseTopLevel(st, ByTag("sports")).res == Success(Should([Leaf("a"), Leaf("b")]))
  {
    var st := Store(map["q1" := Record("q1", Plain("a")), "q2" := Record("q2", Plain("b"))], SportsSearch);
    ExtractByTag("sports");
    assert Cap(st.search(TagTerms(["sports"]))) == ["q1", "q2"];
    assert ["q1", "q2"][1..] == ["q2"] && ["q2"][1..] == [];
    assert [Leaf("b")] + [] == [Leaf("b")];
    assert ResolveHits(st, [], {}).res == Success([]);
    assert ResolveHits(st, ["q2"], {}).res == Success([Leaf("b")]);
    assert [Leaf("a")] + [Leaf("b")] == [Leaf("a"), Leaf("b")];
    assert ResolveHits(st, ["q1", "q2"], {}).res == Success([Leaf("a"), Leaf("b")]);
    assert ResolveSelector(st, TagTerms(["sports"]), {}).res == Success(Should([Leaf("a"), Leaf("b")]));
  }

  /** q1 is a `tags:["sports"]` query itself; q2 is a plain one. */
  function CycleStore(): Store
  {
    Store(map["q1" := Record("q1", SavedClause(ByTag("sports"))), "q2" := Record("q2", Plain("b"))], SportsSearch)
  }

  /** Inside q1's expansion the q1 hit is on the chain: it is skipped and
      only q2 is expanded. */
  lemma InnerTagCycleSkipsActiveHit()
    ensures SearchClosed(CycleStore())
    ensures Parse(CycleStore(), ByTag("sports"), {"q1"}).res == Success(Should([Leaf("b")]))
  {
    var st := CycleStore();
    ExtractByTag("sports");
    assert Cap(st.search(TagTerms(["sports"]))) == ["q1", "q2"];
    assert ["q1", "q2"][1..] == ["q2"] && ["q2"][1..] == [];
    assert [Leaf("b")] + [] == [Leaf("b")];
    assert ResolveHits(st, [], {"q1"}).res == Success([]);
    assert ResolveHits(st, ["q2"], {"q1"}).res == Success([Leaf("b")]);
    assert ResolveHits(st, ["q1", "q2"], {"q1"}).res == Success([Leaf("b")]);
    assert ResolveSelector(st, TagTerms(["sports"]), {"q1"}).res == Success(Should([Leaf("b")]));
  }

  /** The top-level hit loop: q1 expands to its own disjunction, q2 to its
      term, in hit order. */
  lemma TopLevelCycleHits()
    ensures SearchClosed(CycleStore())
    ensures ResolveHits(CycleStore(), ["q1", "q2"], {}).res == Success([Should([Leaf("b")]), Leaf("b")])
  {
    var st := CycleStore();
    InnerTagCycleSkipsActiveHit();
    assert ["q1", "q2"][1..] == ["q2"] && ["q2"][1..] == [];
    assert [Leaf("b")] + [] == [Leaf("b")];
    assert Push({}, "q1") == {"q1"};
    assert Expand(st, st.docs["q1"].source, {"q1"}).res == Success(Should([Leaf("b")]));
    assert ResolveHits(st, [], {}).res == Success([]);
    assert ResolveHits(st, ["q2"], {}).res == Success([Leaf("b")]);
    assert [Should([Leaf("b")])] + [Leaf("b")] == [Should([Leaf("b")]), Leaf("b")];
  }

  /** At top level both hits are expanded: q1 (whose own expansion skipped
      itself) and q2. */
  lemma TagCycleIsSkipped()
    ensures SearchClosed(CycleStore())
    ensures ParseTopLevel(CycleStore(), ByTag("sports")).res == Success(Should([Should([Leaf("b")]), Leaf("b")]))
  {
    var st := CycleStore();
    TopLevelCycleHits();
    ExtractByTag("sports");
    assert Cap(st.search(TagTerms(["sports"]))) == ["q1", "q2"];
    assert ResolveSelector(st, TagTerms(["sports"]), {}).res == Success(Should([Should([Leaf("b")]), Leaf("b")]));
  }

  /** The tokens of `{"tags": [[a], b]}` after its opening brace. */
  function NestedTags(a: string, b: string): seq<Token>
  {
    [FieldName("tags"), StartArray, StartArray, Scalar(a), EndArray, Scalar(b), EndArray, EndObject]
  }

  /** The tag run inside `[[a], b]` stops at the inner END_ARRAY. */
  lemma NestedTagRun(a: string, b: string)
    ensures TagRun(NestedTags(a, b)[2..]) == Some(([a], [Scalar(b), EndArray, EndObject]))
  {
    var ts := NestedTags(a, b);
    var after := [Scalar(b), EndArray, EndObject];
    assert ts[4..] == [EndArray] + after;
    assert TagRun(ts[4..]) == Some(([], after));
    assert ts[3..][1..] == ts[4..] && ts[3..][0] == Scalar(a);
    assert [a] + [] == [a];
    assert TagRun(ts[3..]) == Some(([a], after));
    assert ts[2..][1..] == ts[3..] && ts[2..][0] == StartArray;
    assert [] + [a] == [a];
  }

  /** A nested array inside `tags` ends the tag run at its own END_ARRAY:
      `{"tags": [[a], b]}` selects only `a`; the outer loop then ignores `b`
      as a scalar member other than `name`. */
  lemma NestedTagArray(a: string, b: string)
    ensures Extract(NestedTags(a, b)) == Success(Reference(None, Some(TagTerms([a]))))
  {
    var ts := NestedTags(a, b);
    var got := Reference(None, Some(TagTerms([a])));
    var after := [Scalar(b), EndArray, EndObject];
    NestedTagRun(a, b);
    SkipsTrailingValue(b, got);
    var u := ts[1..];
    assert u[0] == StartArray && u[1..] == ts[2..];
    assert Scan(u, "tags", Nothing) == Scan(after, "tags", got);
  }

  /** After the tag run, the loop passes over the stray value and the outer
      END_ARRAY and stops at the object's END_OBJECT. */
  lemma SkipsTrailingValue(b: string, got: Reference)
    ensures Scan([Scalar(b), EndArray, EndObject], "tags", got) == Success(got)
  {
    var tail := [Scalar(b), EndArray, EndObject];
    assert tail[1..] == [EndArray, EndObject];
    assert [EndArray, EndObject][1..] == [EndObject];
    assert Scan([EndArray, EndObject], "tags", got) == Success(got);
  }

  /** The tokens of `{"name": n, "tags": [t]}` after its opening brace. */
  function NameThenTags(n: string, t: string): seq<Token>
  {
    [FieldName("name"), Scalar(n), FieldName("tags"), StartArray, Scalar(t), EndArray, EndObject]
  }

  /** Both members are collected; the tags do not erase the name. The
      document-level reading gives this directly. */
  lemma ExtractNameThenTags(n: string, t: string)
    ensures Extract(NameThenTags(n, t)) == Success(Reference(Some(n), Some(TagTerms([t]))))
  {
    var tags := Field("tags", JArray([JScalar(t)]));
    var fs := [Field("name", JScalar(n)), tags];
    assert TokenizeItems([JScalar(t)]) == [Scalar(t)];
    assert TokenizeFields(fs[1..]) == [FieldName("tags"), StartArray, Scalar(t), EndArray];
    assert TokenizeFields(fs) + [EndObject] + [] == NameThenTags(n, t);
    assert ScalarTexts([JScalar(t)]) == [t];
    assert SimpleFields(fs);
    ExtractCollects(fs, []);
    assert LastNameAt(fs, 0);
    assert LastSelectorAt(fs, 1);
  }

  /** A name wins over a `tags` array given after it. */
  lemma NameWinsOverTags()
    ensures var st := Store(map["q1" := Record("q1", Plain("a")), "q2" := Record("q2", Plain("b"))], SportsSearch);
      SearchClosed(st) && ParseTopLevel(st, NameThenTags("q2", "sports")).res == Success(Leaf("b"))
  {
    ExtractNameThenTags("q2", "sports");
  }
}
