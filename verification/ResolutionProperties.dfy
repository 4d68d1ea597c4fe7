/** Properties relating the handler's paths to independent descriptions of
    their results. */
module ResolutionProperties {
  import opened Wrappers
  import opened XContent
  import opened SavedQueryTypes
  import opened Extraction
  import opened Resolution

  /** The hits the tag/query path expands: those whose `name` is not on the
      chain, in hit order. */
  function Kept(st: Store, hits: seq<string>, chain: set<string>): (r: seq<string>)
    requires forall h | h in hits :: h in st.docs
    ensures forall h | h in r :: h in hits && st.docs[h].name !in chain
  {
    if |hits| == 0 then []
    else if st.docs[hits[0]].name in chain then Kept(st, hits[1..], chain)
    else [hits[0]] + Kept(st, hits[1..], chain)
  }

  /** One hit expanded on its own, with its name pushed onto `chain`. */
  function ExpandHit(st: Store, h: string, chain: set<string>): Outcome<Query>
    requires SearchClosed(st)
    requires h in st.docs && st.docs[h].name !in chain
  {
    Expand(st, st.docs[h].source, Push(chain, st.docs[h].name))
  }

  /** One turn of the hit loop, with the chain restored after the first hit. */
  lemma ResolveHitsUnfold(st: Store, hits: seq<string>, chain: set<string>)
    requires SearchClosed(st)
    requires forall h | h in hits :: h in st.docs
    requires |hits| > 0
    ensures forall h | h in hits[1..] :: h in st.docs
    ensures st.docs[hits[0]].name in chain ==>
        && ResolveHits(st, hits, chain) == ResolveHits(st, hits[1..], chain)
        && Kept(st, hits, chain) == Kept(st, hits[1..], chain)
    ensures st.docs[hits[0]].name !in chain ==>
        && Kept(st, hits, chain) == [hits[0]] + Kept(st, hits[1..], chain)
        && (ExpandHit(st, hits[0], chain).res.Failure? ==>
              ResolveHits(st, hits, chain).res == ExpandHit(st, hits[0], chain).res.PropagateFailure())
        && (ExpandHit(st, hits[0], chain).res.Success? ==>
              ResolveHits(st, hits, chain).res ==
                (var more := ResolveHits(st, hits[1..], chain).res;
                 if more.Failure? then more
                 else Success([ExpandHit(st, hits[0], chain).res.value] + more.value)))
  {
    assert forall h | h in hits[1..] :: h in st.docs by {
      forall h | h in hits[1..] ensures h in st.docs {
        assert h in hits;
      }
    }
  }

  /** Results taken left to right: all the values, or the first error. */
  function Collect<T>(rs: seq<Result<T, Error>>): Result<seq<T>, Error>
  {
    if |rs| == 0 then Success([])
    else if rs[0].Failure? then Failure(rs[0].error)
    else
      var more := Collect(rs[1..]);
      if more.Failure? then Failure(more.error) else Success([rs[0].value] + more.value)
  }

  /** Collecting succeeds exactly when every result is a value, and then keeps
      every value in place. */
  lemma {:induction false} CollectSucceeds<T>(rs: seq<Result<T, Error>>)
    ensures Collect(rs).Success? <==> forall i | 0 <= i < |rs| :: rs[i].Success?
    ensures Collect(rs).Success? ==>
        && |Collect(rs).value| == |rs|
        && forall i | 0 <= i < |rs| :: rs[i] == Success(Collect(rs).value[i])
  {
    if |rs| > 0 {
      CollectSucceeds(rs[1..]);
      if Collect(rs).Success? {
        var more := Collect(rs[1..]).value;
        assert Collect(rs).value == [rs[0].value] + more;
        forall i | 0 < i < |rs|
          ensures rs[i] == Success(Collect(rs).value[i])
        {
          assert rs[i] == rs[1..][i - 1];
        }
      } else if rs[0].Success? {
        var k :| 0 <= k < |rs[1..]| && !rs[1..][k].Success?;
        assert rs[k + 1] == rs[1..][k];
      }
    }
  }

  /** Collecting fails with the first error, all results before it being values. */
  lemma {:induction false} CollectFailsAtFirst<T>(rs: seq<Result<T, Error>>)
    requires Collect(rs).Failure?
    ensures exists i | 0 <= i < |rs| ::
        && rs[i] == Failure(Collect(rs).error)
        && forall j | 0 <= j < i :: rs[j].Success?
  {
    var err := Collect(rs).error;
    if rs[0].Success? {
      var tail := rs[1..];
      CollectFailsAtFirst(tail);
      var k :| 0 <= k < |tail| && tail[k] == Failure(err) && forall j | 0 <= j < k :: tail[j].Success?;
      assert rs[k + 1] == tail[k];
      forall j | 0 <= j < k + 1
        ensures rs[j].Success?
      {
        if j > 0 {
          assert rs[j] == tail[j - 1];
        }
      }
    }
  }

  /** The expansions of the kept hits, each against the entry chain. */
  function KeptResults(st: Store, kept: seq<string>, chain: set<string>): (r: seq<Result<Query, Error>>)
    requires SearchClosed(st)
    requires forall h | h in kept :: h in st.docs && st.docs[h].name !in chain
    ensures |r| == |kept|
  {
    if |kept| == 0 then [] else [ExpandHit(st, kept[0], chain).res] + KeptResults(st, kept[1..], chain)
  }

  lemma {:induction false} KeptResultsAt(st: Store, kept: seq<string>, chain: set<string>)
    requires SearchClosed(st)
    requires forall h | h in kept :: h in st.docs && st.docs[h].name !in chain
    ensures forall i | 0 <= i < |kept| :: KeptResults(st, kept, chain)[i] == ExpandHit(st, kept[i], chain).res
  {
    if |kept| > 0 {
      var tail := kept[1..];
      var r := KeptResults(st, kept, chain);
      var more := KeptResults(st, tail, chain);
      assert r == [ExpandHit(st, kept[0], chain).res] + more;
      KeptResultsAt(st, tail, chain);
      forall i | 0 < i < |kept|
        ensures r[i] == ExpandHit(st, kept[i], chain).res
      {
        assert r[i] == more[i - 1];
        assert tail[i - 1] == kept[i];
      }
    }
  }

  /** The hit loop, with its chain pushes and pops, computes the same result
      as expanding the kept hits one by one against the entry chain. */
  lemma {:induction false} ResolveHitsExpandsKept(st: Store, hits: seq<string>, chain: set<string>)
    requires SearchClosed(st)
    requires forall h | h in hits :: h in st.docs
    ensures ResolveHits(st, hits, chain).res == Collect(KeptResults(st, Kept(st, hits, chain), chain))
  {
    if |hits| > 0 {
      ResolveHitsUnfold(st, hits, chain);
      ResolveHitsExpandsKept(st, hits[1..], chain);
      if st.docs[hits[0]].name !in chain {
        var kept := Kept(st, hits, chain);
        assert kept[1..] == Kept(st, hits[1..], chain);
        assert KeptResults(st, kept, chain)[1..] == KeptResults(st, kept[1..], chain);
      }
    }
  }

  /** Kept hit `i` is the first whose expansion fails, and it fails with `err`. */
  predicate FailsFirstAt(st: Store, kept: seq<string>, chain: set<string>, i: int, err: Error)
    requires SearchClosed(st)
    requires forall h | h in kept :: h in st.docs && st.docs[h].name !in chain
  {
    && 0 <= i < |kept|
    && ExpandHit(st, kept[i], chain).res == Failure(err)
    && forall j | 0 <= j < i :: ExpandHit(st, kept[j], chain).res.Success?
  }

  /** A failing expansion of the kept hits fails at the first kept hit
      that does not expand. */
  lemma KeptFailsAtFirst(st: Store, kept: seq<string>, chain: set<string>)
    requires SearchClosed(st)
    requires forall h | h in kept :: h in st.docs && st.docs[h].name !in chain
    requires Collect(KeptResults(st, kept, chain)).Failure?
    ensures exists i :: FailsFirstAt(st, kept, chain, i, Collect(KeptResults(st, kept, chain)).error)
  {
    var rs := KeptResults(st, kept, chain);
    var err := Collect(rs).error;
    CollectFailsAtFirst(rs);
    var i :| 0 <= i < |rs| && rs[i] == Failure(err) && forall j | 0 <= j < i :: rs[j].Success?;
    KeptFailsAt(st, kept, chain, i, err);
  }

  /** The first failing result among the kept hits is their first failing
      expansion. */
  lemma KeptFailsAt(st: Store, kept: seq<string>, chain: set<string>, i: nat, err: Error)
    requires SearchClosed(st)
    requires forall h | h in kept :: h in st.docs && st.docs[h].name !in chain
    requires i < |kept| && KeptResults(st, kept, chain)[i] == Failure(err)
    requires forall j | 0 <= j < i :: KeptResults(st, kept, chain)[j].Success?
    ensures FailsFirstAt(st, kept, chain, i, err)
  {
    KeptResultsAt(st, kept, chain);
  }

  /** The hit loop succeeds exactly when every kept hit expands: hits on the
      chain are skipped, never fatal. */
  lemma {:induction false} ResolveHitsSucceeds(st: Store, hits: seq<string>, chain: set<string>)
    requires SearchClosed(st)
    requires forall h | h in hits :: h in st.docs
    ensures ResolveHits(st, hits, chain).res.Success?
        <==> forall i | 0 <= i < |Kept(st, hits, chain)| :: ExpandHit(st, Kept(st, hits, chain)[i], chain).res.Success?
  {
    var kept := Kept(st, hits, chain);
    ResolveHitsExpandsKept(st, hits, chain);
    KeptResultsAt(st, kept, chain);
    CollectSucceeds(KeptResults(st, kept, chain));
  }

  /** A successful hit loop yields one clause per kept hit, that hit's
      expansion, in hit order. */
  lemma {:induction false} ResolveHitsClauses(st: Store, hits: seq<string>, chain: set<string>)
    requires SearchClosed(st)
    requires forall h | h in hits :: h in st.docs
    requires ResolveHits(st, hits, chain).res.Success?
    ensures |ResolveHits(st, hits, chain).res.value| == |Kept(st, hits, chain)|
    ensures forall i | 0 <= i < |Kept(st, hits, chain)| ::
        ExpandHit(st, Kept(st, hits, chain)[i], chain).res == Success(ResolveHits(st, hits, chain).res.value[i])
  {
    var kept := Kept(st, hits, chain);
    ResolveHitsExpandsKept(st, hits, chain);
    KeptResultsAt(st, kept, chain);
    CollectSucceeds(KeptResults(st, kept, chain));
  }

  /** A failing hit loop fails with the error of the first kept hit that does
      not expand. */
  lemma {:induction false} ResolveHitsFailsAtFirst(st: Store, hits: seq<string>, chain: set<string>)
    requires SearchClosed(st)
    requires forall h | h in hits :: h in st.docs
    requires ResolveHits(st, hits, chain).res.Failure?
    ensures exists i :: FailsFirstAt(st, Kept(st, hits, chain), chain, i, ResolveHits(st, hits, chain).res.error)
  {
    ResolveHitsExpandsKept(st, hits, chain);
    KeptFailsAtFirst(st, Kept(st, hits, chain), chain);
  }

  /** The tag/query path over a store search: it succeeds exactly when every
      capped hit off the chain expands, and then its disjunction holds those
      expansions, one SHOULD clause per kept hit, in hit order. */
  lemma ResolveSelectorClauses(st: Store, sel: Selector, chain: set<string>)
    requires SearchClosed(st)
    ensures var kept := Kept(st, Cap(st.search(sel)), chain);
      var r := ResolveSelector(st, sel, chain).res;
      r.Success? <==> forall i | 0 <= i < |kept| :: ExpandHit(st, kept[i], chain).res.Success?
    ensures var kept := Kept(st, Cap(st.search(sel)), chain);
      var r := ResolveSelector(st, sel, chain).res;
      r.Success? ==>
        && |r.value.clauses| == |kept|
        && forall i | 0 <= i < |kept| :: ExpandHit(st, kept[i], chain).res == Success(r.value.clauses[i])
  {
    var hits := Cap(st.search(sel));
    ResolveHitsSucceeds(st, hits, chain);
    if ResolveHits(st, hits, chain).res.Success? {
      ResolveHitsClauses(st, hits, chain);
    }
  }

  /** A failing tag/query path fails with the error of the first capped hit
      off the chain whose expansion fails. */
  lemma ResolveSelectorFailsAtFirst(st: Store, sel: Selector, chain: set<string>)
    requires SearchClosed(st)
    ensures var r := ResolveSelector(st, sel, chain).res;
      r.Failure? ==> exists i :: FailsFirstAt(st, Kept(st, Cap(st.search(sel)), chain), chain, i, r.error)
  {
    var hits := Cap(st.search(sel));
    if ResolveHits(st, hits, chain).res.Failure? {
      ResolveHitsFailsAtFirst(st, hits, chain);
    }
  }

  /** When every hit's name is on the chain, no hit is kept. */
  lemma {:induction false} KeptNone(st: Store, hits: seq<string>, chain: set<string>)
    requires forall h | h in hits :: h in st.docs && st.docs[h].name in chain
    ensures Kept(st, hits, chain) == []
  {
    if |hits| > 0 {
      assert hits[0] in hits;
      assert forall h | h in hits[1..] :: h in hits;
      KeptNone(st, hits[1..], chain);
    }
  }

  /** The search path: zero hits, or hits that are all on the chain, give an
      empty disjunction rather than an error. */
  lemma NoKeptHitsEmptyDisjunction(st: Store, sel: Selector, chain: set<string>)
    requires SearchClosed(st)
    requires forall h | h in Cap(st.search(sel)) :: h in st.docs && st.docs[h].name in chain
    ensures ResolveSelector(st, sel, chain).res == Success(Should([]))
  {
    var hits := Cap(st.search(sel));
    assert forall h | h in hits :: h in st.docs;
    KeptNone(st, hits, chain);
    ResolveHitsSucceeds(st, hits, chain);
    ResolveHitsClauses(st, hits, chain);
    assert ResolveHits(st, hits, chain).res == Success([]);
  }

  /** The sub-queries of a compound source are expanded against the same
      chain: the expansion succeeds exactly when each part does, keeps their
      order, and otherwise fails with the first failing part's error. */
  lemma {:induction false} ExpandAllCharacterized(st: Store, parts: seq<Source>, chain: set<string>)
    requires SearchClosed(st)
    ensures ExpandAll(st, parts, chain).res.Success?
        <==> forall i | 0 <= i < |parts| :: Expand(st, parts[i], chain).res.Success?
    ensures ExpandAll(st, parts, chain).res.Success? ==>
        forall i | 0 <= i < |parts| :: ExpandAll(st, parts, chain).res.value[i] == Expand(st, parts[i], chain).res.value
    ensures ExpandAll(st, parts, chain).res.Failure? ==>
        exists i | 0 <= i < |parts| ::
          && Expand(st, parts[i], chain).res == Failure(ExpandAll(st, parts, chain).res.error)
          && forall j | 0 <= j < i :: Expand(st, parts[j], chain).res.Success?
  {
    if |parts| > 0 {
      var tail := parts[1..];
      ExpandAllCharacterized(st, tail, chain);
      var o := ExpandAll(st, parts, chain);
      var first := Expand(st, parts[0], chain);
      if first.res.Success? {
        var more := ExpandAll(st, tail, chain);
        forall i | 0 < i < |parts|
          ensures parts[i] == tail[i - 1]
        {
        }
        if more.res.Success? {
          assert o.res.value == [first.res.value] + more.res.value;
        } else {
          var k :| 0 <= k < |tail|
            && Expand(st, tail[k], chain).res == Failure(more.res.error)
            && forall j | 0 <= j < k :: Expand(st, tail[j], chain).res.Success?;
          assert parts[k + 1] == tail[k];
          forall j | 0 <= j < k + 1
            ensures Expand(st, parts[j], chain).res.Success?
          {
            if j > 0 {
              assert parts[j] == tail[j - 1];
            }
          }
        }
      }
    }
  }

  // ---- The handler over a serialized `saved` object ----

  /** An object member other than `query` or an array member other than
      `tags` fails the parse, naming the first such member. */
  lemma ParseRejectsUnsupported(st: Store, fs: seq<Field>, rest: seq<Token>, chain: set<string>, i: nat)
    requires SearchClosed(st) && SimpleFields(fs)
    requires i < |fs| && Rejected(fs[i])
    requires forall j | 0 <= j < i :: !Rejected(fs[j])
    ensures Parse(st, TokenizeFields(fs) + [EndObject] + rest, chain).res == Failure(UnsupportedField(fs[i].key))
  {
    ExtractRejectsUnsupported(fs, rest, i);
  }

  /** A `name` member selects the name path (its last value), whatever `tags`
      or `query` members are also present. */
  lemma ParseTakesNamePath(st: Store, fs: seq<Field>, rest: seq<Token>, chain: set<string>, i: nat)
    requires SearchClosed(st) && SimpleFields(fs)
    requires forall j | 0 <= j < |fs| :: !Rejected(fs[j])
    requires LastNameAt(fs, i)
    ensures Parse(st, TokenizeFields(fs) + [EndObject] + rest, chain) == ResolveName(st, fs[i].value.text, chain)
  {
    ExtractCollects(fs, rest);
  }

  /** Without a name, the last `tags` array or `query` object selects the
      search path. */
  lemma ParseTakesSelectorPath(st: Store, fs: seq<Field>, rest: seq<Token>, chain: set<string>, i: nat)
    requires SearchClosed(st) && SimpleFields(fs)
    requires forall j | 0 <= j < |fs| :: !Rejected(fs[j]) && !NameField(fs[j])
    requires LastSelectorAt(fs, i)
    ensures Parse(st, TokenizeFields(fs) + [EndObject] + rest, chain) == ResolveSelector(st, SelectorOf(fs[i]), chain)
  {
    ExtractCollects(fs, rest);
  }

  /** With neither a name nor a selector the parse fails with the
      "needs either a name ... or tags ... or query" error. */
  lemma ParseNeedsReference(st: Store, fs: seq<Field>, rest: seq<Token>, chain: set<string>)
    requires SearchClosed(st) && SimpleFields(fs)
    requires forall j | 0 <= j < |fs| :: !Rejected(fs[j]) && !NameField(fs[j]) && !SelectorField(fs[j])
    ensures Parse(st, TokenizeFields(fs) + [EndObject] + rest, chain).res == Failure(MissingReference)
  {
    ExtractCollects(fs, rest);
  }
}
