/** The search projection as the object it is: maps updated in place by rebuild and append, and
    queries answered from them (history/search.go). Every answer is proved equal to a scan. */
module InvertedIndex {
  import opened Basics
  import opened Sorting
  import opened Records
  import opened RecordOrder
  import opened Tokens
  import opened SearchIndex
  import opened SearchScan
  import opened SearchReorder
  import opened SearchSync
  import opened SearchNumbers

  // ----- Tables a query works on: document number -> score -----

  type Scores = map<nat, real>

  ghost function TermTable(e: Engine, lists: seq<seq<string>>, term: string): Scores {
    map d: nat | 0 <= d < |lists| && term in lists[d] :: TermScore(e, lists, term, lists[d])
  }

  ghost function ClauseTable(e: Engine, lists: seq<seq<string>>, c: Clause): Scores {
    map d: nat | 0 <= d < |lists| && ClauseHolds(c, lists[d]) :: ClauseScore(e, lists, c, lists[d])
  }

  ghost function QueryTable(e: Engine, lists: seq<seq<string>>, clauses: seq<Clause>): Scores {
    map d: nat | 0 <= d < |lists| && AllHold(clauses, lists[d]) :: QueryScore(e, lists, clauses, lists[d])
  }

  ghost function JoinSum(left: Scores, right: Scores): Scores {
    map d | d in left && d in right :: left[d] + right[d]
  }

  lemma JoinSumCommutes(a: Scores, b: Scores)
    ensures JoinSum(a, b) == JoinSum(b, a)
  {
  }

  method JoinScores(small: Scores, large: Scores) returns (r: Scores)
    ensures r == JoinSum(small, large)
  {
    r := map[];
    var pending := small.Keys;
    while pending != {}
      invariant pending <= small.Keys
      invariant r.Keys == small.Keys * large.Keys - pending
      invariant forall d | d in r :: r[d] == small[d] + large[d]
      decreases pending
    {
      var d :| d in pending;
      if d in large { r := r[d := small[d] + large[d]]; }
      pending := pending - {d};
    }
  }

  /** Walk the smaller table and keep what both have. */
  method IntersectScores(left: Option<Scores>, right: Scores) returns (r: Scores)
    ensures left.None? ==> r == right
    ensures left.Some? ==> r == JoinSum(left.value, right)
  {
    if left.None? { return right; }
    if |left.value| > |right| {
      JoinSumCommutes(left.value, right);
      r := JoinScores(right, left.value);
    } else {
      r := JoinScores(left.value, right);
    }
  }

  method FilterScores(scores: Scores, allowed: set<nat>) returns (r: Scores)
    ensures r == map d | d in scores && d in allowed :: scores[d]
  {
    r := map[];
    var pending := scores.Keys;
    while pending != {}
      invariant pending <= scores.Keys
      invariant r == map d | d in scores && d in allowed && d !in pending :: scores[d]
      decreases pending
    {
      var d :| d in pending;
      if d in allowed { r := r[d := scores[d]]; }
      pending := pending - {d};
    }
  }

  // ----- Bisection -----

  /** The least index whose value is not below the one sought: sort.SearchInts. */
  method SearchInts(values: seq<nat>, expected: nat) returns (index: nat)
    requires forall i, j | 0 <= i < j < |values| :: values[i] < values[j]
    ensures index <= |values|
    ensures forall i | 0 <= i < index :: values[i] < expected
    ensures forall i | index <= i < |values| :: expected <= values[i]
  {
    var lo, hi := 0, |values|;
    while lo < hi
      invariant 0 <= lo <= hi <= |values|
      invariant forall i | 0 <= i < lo :: values[i] < expected
      invariant forall i | hi <= i < |values| :: expected <= values[i]
    {
      var mid := (lo + hi) / 2;
      if values[mid] < expected { lo := mid + 1; } else { hi := mid; }
    }
    index := lo;
  }

  method ContainsPosition(values: seq<nat>, expected: nat) returns (found: bool)
    requires forall i, j | 0 <= i < j < |values| :: values[i] < values[j]
    ensures found <==> expected in values
  {
    var index := SearchInts(values, expected);
    found := index < |values| && values[index] == expected;
  }

  /** The least index whose word is not below the one sought: sort.SearchStrings. */
  method SearchStrings(words: seq<string>, expected: string) returns (index: nat)
    requires Sorted(StringLess, words)
    ensures index <= |words|
    ensures forall i | 0 <= i < index :: StringLess(words[i], expected)
    ensures forall i | index <= i < |words| :: !StringLess(words[i], expected)
  {
    var lo, hi := 0, |words|;
    while lo < hi
      invariant 0 <= lo <= hi <= |words|
      invariant forall i | 0 <= i < lo :: StringLess(words[i], expected)
      invariant forall i | hi <= i < |words| :: !StringLess(words[i], expected)
    {
      var mid := (lo + hi) / 2;
      if StringLess(words[mid], expected) {
        forall i | lo <= i < mid ensures StringLess(words[i], expected) {
          StringLessTransitive(words[i], words[mid], expected);
        }
        lo := mid + 1;
      } else {
        forall i | mid < i < hi ensures !StringLess(words[i], expected) {
          if StringLess(words[i], expected) { StringLessTransitive(words[mid], words[i], expected); }
        }
        hi := mid;
      }
    }
    index := lo;
  }

  /** A word with a prefix is not below it, and below nothing that lies between. */
  lemma {:induction false} PrefixIsLowerBound(word: string, prefix: string)
    requires HasPrefix(word, prefix)
    ensures !StringLess(word, prefix)
  {
    if prefix != [] {
      assert word[0] == prefix[0];
      assert HasPrefix(word[1..], prefix[1..]) by { assert word[1..][..|prefix| - 1] == word[..|prefix|][1..]; }
      PrefixIsLowerBound(word[1..], prefix[1..]);
    }
  }

  lemma {:induction false} PrefixIsConvex(lo: string, hi: string, prefix: string)
    requires HasPrefix(hi, prefix) && !StringLess(lo, prefix) && StringLess(lo, hi)
    ensures HasPrefix(lo, prefix)
  {
    if prefix == [] {
      assert lo[..0] == prefix;
    } else {
      assert hi[0] == prefix[0];
      assert HasPrefix(hi[1..], prefix[1..]) by { assert hi[1..][..|prefix| - 1] == hi[..|prefix|][1..]; }
      PrefixIsConvex(lo[1..], hi[1..], prefix[1..]);
      assert lo[..|prefix|] == [lo[0]] + lo[1..][..|prefix| - 1];
    }
  }

  /** Everything with the prefix sits in one run of a sorted vocabulary. */
  lemma PrefixRun(words: seq<string>, prefix: string, start: nat, end: nat)
    requires Sorted(StringLess, words) && start <= end <= |words|
    requires forall i | 0 <= i < start :: StringLess(words[i], prefix)
    requires forall i | start <= i < |words| :: !StringLess(words[i], prefix)
    requires forall i | start <= i < end :: HasPrefix(words[i], prefix)
    requires end < |words| ==> !HasPrefix(words[end], prefix)
    ensures Filter(words, (t: string) => HasPrefix(t, prefix)) == words[start..end]
  {
    var p := (t: string) => HasPrefix(t, prefix);
    forall i | 0 <= i < start ensures !HasPrefix(words[i], prefix) {
      if HasPrefix(words[i], prefix) { PrefixIsLowerBound(words[i], prefix); }
    }
    forall i | end <= i < |words| ensures !HasPrefix(words[i], prefix) {
      if i > end && HasPrefix(words[i], prefix) { PrefixIsConvex(words[end], words[i], prefix); }
    }
    FilterRun(words, p, start, end);
  }

  lemma FilterRun<T>(s: seq<T>, p: T -> bool, start: nat, end: nat)
    requires start <= end <= |s|
    requires forall i | 0 <= i < |s| :: p(s[i]) <==> start <= i < end
    ensures Filter(s, p) == s[start..end]
  {
    SliceHas(s, p, 0, start, false);
    SliceHas(s, p, start, end, true);
    SliceHas(s, p, end, |s|, false);
    SlicesJoin(s, start, end);
    hide Filter;
    FilterThree(s[0..start], s[start..end], s[end..|s|], p);
  }

  lemma SliceHas<T>(s: seq<T>, p: T -> bool, a: nat, b: nat, value: bool)
    requires a <= b <= |s| && forall i | a <= i < b :: p(s[i]) == value
    ensures forall x | x in s[a..b] :: p(x) == value
  {
    forall x | x in s[a..b] ensures p(x) == value {
      var i :| 0 <= i < |s[a..b]| && s[a..b][i] == x;
      assert s[a + i] == x;
    }
  }

  lemma SlicesJoin<T>(s: seq<T>, start: nat, end: nat)
    requires start <= end <= |s|
    ensures s == s[0..start] + (s[start..end] + s[end..|s|])
  {
  }

  lemma FilterThree<T>(before: seq<T>, run: seq<T>, after: seq<T>, p: T -> bool)
    requires (forall x | x in before :: !p(x)) && (forall x | x in run :: p(x)) && (forall x | x in after :: !p(x))
    ensures Filter(before + (run + after), p) == run
  {
    hide Filter;
    FilterAppend(before, run + after, p);
    FilterAppend(run, after, p);
    FilterNone(before, p);
    FilterAll(run, p);
    FilterNone(after, p);
  }

  // ----- Counting -----

  lemma {:induction false} OccurrencesCounted(term: string, lists: seq<seq<string>>)
    ensures |Occurrences(term, lists)| == Frequency(term, lists)
  {
    if lists != [] {
      var front, last := lists[..|lists| - 1], |lists| - 1;
      OccurrencesCounted(term, front);
      assert Occurrences(term, lists) == if term in lists[last]
        then Occurrences(term, front)[last := PositionsOf(term, lists[last])] else Occurrences(term, front);
    }
  }

  ghost function Numbers<T>(s: seq<T>, p: T -> bool): set<nat> {
    set d: nat | 0 <= d < |s| && p(s[d])
  }

  lemma NumbersSnoc<T>(front: seq<T>, x: T, p: T -> bool)
    ensures Numbers(front + [x], p) == Numbers(front, p) + (if p(x) then {|front|} else {})
  {
    var more := front + [x];
    forall d: nat | d < |front| ensures more[d] == front[d] {}
  }

  /** As many document numbers satisfy p as documents do. */
  lemma {:induction false} NumbersCounted<T>(s: seq<T>, p: T -> bool)
    ensures |Numbers(s, p)| == |Filter(s, p)|
  {
    if s != [] {
      var front, x := s[..|s| - 1], s[|s| - 1];
      assert s == front + [x];
      NumbersCounted(front, p);
      NumbersSnoc(front, x, p);
      FilterAppend(front, [x], p);
      assert Filter([x], p) == if p(x) then [x] else [];
    }
  }

  lemma PostingLookup(lists: seq<seq<string>>, term: string)
    ensures term in PostingsOf(lists) ==> PostingsOf(lists)[term] == Occurrences(term, lists)
    ensures term !in PostingsOf(lists) ==> Occurrences(term, lists) == map[]
  {
    if term !in PostingsOf(lists) {
      forall d | 0 <= d < |lists| ensures term !in lists[d] {
        forall i | 0 <= i < |lists[d]| ensures lists[d][i] != term { assert lists[d][i] in Vocabulary(lists); }
      }
    }
  }

  lemma PhraseAtPointwise(terms: seq<string>, phrase: seq<string>, start: nat)
    ensures PhraseAt(terms, phrase, start) <==>
              start + |phrase| <= |terms| && forall o | 0 <= o < |phrase| :: terms[start + o] == phrase[o]
  {
    if PhraseAt(terms, phrase, start) {
      forall o | 0 <= o < |phrase| ensures terms[start + o] == phrase[o] {
        assert terms[start..start + |phrase|][o] == phrase[o];
      }
    }
  }

  /** Where the run of words with a prefix ends. */
  lemma RunEnd(words: seq<string>, prefix: string, start: nat) returns (end: nat)
    requires start <= |words|
    ensures start <= end <= |words| && (forall i | start <= i < end :: HasPrefix(words[i], prefix))
    ensures end < |words| ==> !HasPrefix(words[end], prefix)
  {
    end := start;
    while end < |words| && HasPrefix(words[end], prefix)
      invariant start <= end <= |words| && forall i | start <= i < end :: HasPrefix(words[i], prefix)
    {
      end := end + 1;
    }
  }

  /** The expansion of a prefix is one run of the sorted vocabulary, from the bisection point on. */
  lemma ExpansionIsRun(lists: seq<seq<string>>, words: seq<string>, prefix: string, start: nat) returns (end: nat)
    requires Sorted(StringLess, words) && Elements(words) == Vocabulary(lists) && start <= |words|
    requires forall i | 0 <= i < start :: StringLess(words[i], prefix)
    requires forall i | start <= i < |words| :: !StringLess(words[i], prefix)
    ensures start <= end <= |words| && Expansion(lists, prefix) == words[start..end]
    ensures forall i | start <= i < end :: HasPrefix(words[i], prefix)
    ensures end < |words| ==> !HasPrefix(words[end], prefix)
  {
    hide Vocabulary;
    SortedKeysUnique(Vocabulary(lists), words);
    end := RunEnd(words, prefix, start);
    PrefixRun(words, prefix, start, end);
  }

  /** The disposable cache: the indexed documents and their sources. */
  datatype SearchCache = SearchCache(schema: string, store: string, contents: Contents)

  const CACHE_SCHEMA: string := "farfield.search.cache.v2"

  predicate DocumentLess(a: Document, b: Document) {
    if a.sourceKey == b.sourceKey then StringLess(a.record.id, b.record.id) else StringLess(a.sourceKey, b.sourceKey)
  }

  lemma DocumentOrderIsTotal(documents: seq<Document>)
    requires DistinctDocuments(documents)
    ensures TotalOrderOn(DocumentLess, Elements(documents)) && NoDuplicates(documents)
  {
    hide StringLess;
    forall a, b | a in documents && b in documents
      ensures !DocumentLess(a, a) && (a == b || DocumentLess(a, b) || DocumentLess(b, a))
    {
      StringLessIrreflexive(a.record.id);
      StringLessConnected(a.record.id, b.record.id);
      StringLessConnected(a.sourceKey, b.sourceKey);
    }
    forall a, b, c | a in documents && b in documents && c in documents && DocumentLess(a, b) && DocumentLess(b, c)
      ensures DocumentLess(a, c)
    {
      StringLessIrreflexive(a.sourceKey);
      if a.sourceKey != b.sourceKey && b.sourceKey != c.sourceKey { StringLessTransitive(a.sourceKey, b.sourceKey, c.sourceKey); }
      if a.sourceKey == b.sourceKey == c.sourceKey { StringLessTransitive(a.record.id, b.record.id, c.record.id); }
    }
  }

  /** Two indexes over the same documents, numbered differently, write the same cache. */
  lemma CacheIsCanonical(a: seq<Document>, b: seq<Document>)
    requires DistinctDocuments(a) && DistinctDocuments(b) && Elements(a) == Elements(b)
    ensures SortBy(a, DocumentLess) == SortBy(b, DocumentLess)
  {
    hide DocumentLess, DistinctDocuments;
    DocumentOrderIsTotal(a);
    DocumentOrderIsTotal(b);
    SortByOrderFree(a, b, DocumentLess);
  }

  /** The records a query by filters alone finds. */
  ghost function Found(q: SearchQuery, documents: seq<Document>): set<Record> {
    set d | d in documents && PassesFacets(d.record, q) && WithinTime(d.record, q.since, q.until) :: d.record
  }

  class SearchProjection {
    const engine: Engine
    const store: string
    var loaded: bool
    var documents: seq<Document>
    var sources: map<string, string>
    var postings: Postings
    var filters: Filters
    var vocabulary: seq<string>
    var documentLengths: seq<nat>
    var totalTerms: nat

    ghost function Lists(): seq<seq<string>>
      reads this
    {
      TermLists(engine.alphabet, documents)
    }

    /** The index agrees with its documents. */
    ghost predicate Indexed()
      reads this
    {
      && postings == PostingsOf(Lists()) && filters == FiltersOf(documents)
      && |documentLengths| == |documents| && (forall d | 0 <= d < |documents| :: documentLengths[d] == |Lists()[d]|)
      && totalTerms == SumLengths(Lists())
      && Sorted(StringLess, vocabulary) && Elements(vocabulary) == Vocabulary(Lists())
    }

    /** ... as far as document n. */
    ghost predicate IndexedUpTo(n: nat)
      reads this
    {
      && n <= |documents| == |documentLengths|
      && postings == PostingsOf(Lists()[..n]) && filters == FiltersOf(documents[..n])
      && (forall d | 0 <= d < n :: documentLengths[d] == |Lists()[d]|)
      && totalTerms == SumLengths(Lists()[..n])
    }

    constructor (engine: Engine, store: string)
      ensures this.engine == engine && this.store == store && !loaded && documents == [] && sources == map[] && Indexed()
    {
      this.engine, this.store := engine, store;
      loaded, documents, sources := false, [], map[];
      postings, filters, vocabulary, documentLengths, totalTerms := map[], map[], [], [], 0;
      new;
      assert PostingsOf([]) == map[] && FiltersOf([]) == map[] && Vocabulary([]) == {};
    }

    method AddFilterLocked(f: Field, value: string, d: nat)
      modifies this`filters
      ensures filters == AddFilter(old(filters), f, value, d)
    {
      if value == "" { return; }
      filters := filters[(f, value) := (if (f, value) in filters then filters[(f, value)] else {}) + {d}];
    }

    method AddScalarLocked(f: Field, value: Option<string>, d: nat, ghost front: seq<Document>, ghost entered: set<(Field, string)>)
      requires filters == FiltersWith(front, d, entered)
      modifies this`filters
      ensures filters == FiltersWith(front, d, entered + Tagged(f, Scalar(value)))
    {
      hide FiltersWith;
      if value.Some? && value.value != "" {
        FiltersWithAdd(front, d, entered, f, value.value);
        assert Tagged(f, Scalar(value)) == {(f, value.value)};
      } else {
        assert entered + Tagged(f, Scalar(value)) == entered;
      }
      AddFilterLocked(f, if value.Some? then value.value else "", d);
    }

    method AddFiltersLocked(d: nat, record: Record, ghost front: seq<Document>)
      requires filters == FiltersOf(front)
      modifies this`filters
      ensures filters == FiltersWith(front, d, Facets(record))
    {
      hide FiltersWith, FiltersOf, Scalar, Tagged, AddFilter;
      FiltersWithNothing(front, d);
      ghost var entered: set<(Field, string)> := {};
      AddScalarLocked(ConversationField, Some(record.conversationID), d, front, entered);
      entered := entered + Tagged(ConversationField, Scalar(Some(record.conversationID)));
      AddScalarLocked(TraceField, record.traceID, d, front, entered);
      entered := entered + Tagged(TraceField, Scalar(record.traceID));
      AddScalarLocked(KindField, Some(record.kind), d, front, entered);
      entered := entered + Tagged(KindField, Scalar(Some(record.kind)));
      AddScalarLocked(AgentField, record.agent, d, front, entered);
      entered := entered + Tagged(AgentField, Scalar(record.agent));
      AddScalarLocked(ToolField, record.tool, d, front, entered);
      entered := entered + Tagged(ToolField, Scalar(record.tool));
      AddScalarLocked(StatusField, record.status, d, front, entered);
      entered := entered + Tagged(StatusField, Scalar(record.status));
      AddTagsLocked(d, record, front, entered);
      assert entered + Tagged(TagField, TagValues(record)) == Facets(record);
    }

    method AddTagsLocked(d: nat, record: Record, ghost front: seq<Document>, ghost entered: set<(Field, string)>)
      requires filters == FiltersWith(front, d, entered)
      modifies this`filters
      ensures filters == FiltersWith(front, d, entered + Tagged(TagField, TagValues(record)))
    {
      hide FiltersWith;
      var pending := record.tags.Keys;
      ghost var tagged: set<(Field, string)> := {};
      assert entered + tagged == entered;
      while pending != {}
        invariant pending <= record.tags.Keys
        invariant tagged == set k | k in record.tags && k !in pending :: (TagField, TagValue(k, record.tags[k]))
        invariant filters == FiltersWith(front, d, entered + tagged)
        decreases pending
      {
        var k :| k in pending;
        var facet := (TagField, TagValue(k, record.tags[k]));
        FiltersWithAdd(front, d, entered + tagged, facet.0, facet.1);
        AddFilterLocked(facet.0, facet.1, d);
        assert entered + tagged + {facet} == entered + (tagged + {facet});
        tagged := tagged + {facet};
        pending := pending - {k};
      }
      assert tagged == Tagged(TagField, TagValues(record)) by {
        forall v | v in TagValues(record) ensures (TagField, v) in tagged {}
      }
    }

    /** Enter one document; with collect, also note the terms never seen before. */
    method IndexDocumentLocked(d: nat, collect: bool)
      requires d < |documents| && IndexedUpTo(d)
      requires collect ==> NoDuplicates(vocabulary) && Elements(vocabulary) == postings.Keys
      modifies this`postings, this`filters, this`vocabulary, this`documentLengths, this`totalTerms
      ensures IndexedUpTo(d + 1)
      ensures collect ==> NoDuplicates(vocabulary) && Elements(vocabulary) == postings.Keys
    {
      hide PostingsOf, FiltersOf, FiltersWith, Facets, AddPosition, Terms, Occurrences, Vocabulary;
      ghost var lists := Lists();
      var tokens := Tokenize(engine.alphabet, documents[d].text);
      documentLengths := documentLengths[d := |tokens|];
      totalTerms := totalTerms + |tokens|;
      PostingsStart(lists[..d]);
      assert lists[d][..0] == [];
      for i := 0 to |tokens|
        invariant postings == PostingsOf(lists[..d] + [lists[d][..i]])
        invariant filters == old(filters) && |documentLengths| == |documents|
        invariant totalTerms == old(totalTerms) + |tokens|
        invariant documentLengths == old(documentLengths)[d := |tokens|]
        invariant collect ==> NoDuplicates(vocabulary) && Elements(vocabulary) == postings.Keys
      {
        ghost var partial := lists[..d] + [lists[d][..i]];
        PostingsExtend(partial, tokens[i].term);
        assert lists[d][..i] + [tokens[i].term] == lists[d][..i + 1];
        assert partial[d := partial[d] + [tokens[i].term]] == lists[..d] + [lists[d][..i + 1]];
        if collect && tokens[i].term !in postings {
          assert tokens[i].term !in Elements(vocabulary);
          assert Elements(vocabulary + [tokens[i].term]) == Elements(vocabulary) + {tokens[i].term};
          vocabulary := vocabulary + [tokens[i].term];
        }
        AddPositionKeys(postings, tokens[i].term, d, tokens[i].position);
        postings := AddPosition(postings, tokens[i].term, d, tokens[i].position);
      }
      assert lists[d][..|tokens|] == lists[d];
      assert lists[..d] + [lists[d]] == lists[..d + 1];
      assert lists[..d + 1][..d] == lists[..d];
      AddFiltersLocked(d, documents[d].record, documents[..d]);
      FiltersWithAll(documents[..d], documents[d]);
      assert documents[..d] + [documents[d]] == documents[..d + 1];
    }

    /** Build the index of the current documents from nothing. */
    method RebuildLocked()
      modifies this`postings, this`filters, this`vocabulary, this`documentLengths, this`totalTerms
      ensures Indexed()
    {
      postings, filters, totalTerms := map[], map[], 0;
      documentLengths := seq(|documents|, _ => 0);
      assert PostingsOf(Lists()[..0]) == map[] && FiltersOf(documents[..0]) == map[];
      for d := 0 to |documents|
        invariant IndexedUpTo(d)
      {
        IndexDocumentLocked(d, false);
      }
      assert Lists()[..|documents|] == Lists() && documents[..|documents|] == documents;
      assert postings.Keys == Vocabulary(Lists());
      vocabulary := CollectSortedKeys(postings.Keys);
    }

    /** Extend the index in place by more documents. */
    method AddDocumentsLocked(more: seq<Document>)
      requires Indexed()
      modifies this`documents, this`postings, this`filters, this`vocabulary, this`documentLengths, this`totalTerms
      ensures Indexed() && documents == old(documents) + more
    {
      hide PostingsOf, FiltersOf, Facets, Terms, Vocabulary, SumLengths, SortBy;
      var start := |documents|;
      ghost var before := Lists();
      documents := documents + more;
      documentLengths := documentLengths + seq(|more|, _ => 0);
      assert Lists()[..start] == before && documents[..start] == old(documents);
      StringOrderIsTotal(Elements(vocabulary));
      SortedHasNoDuplicates(StringLess, vocabulary);
      PostingsKeys(before);
      for d := start to |documents|
        invariant IndexedUpTo(d) && documents == old(documents) + more
        invariant NoDuplicates(vocabulary) && Elements(vocabulary) == postings.Keys
      {
        IndexDocumentLocked(d, true);
      }
      assert Lists()[..|documents|] == Lists() && documents[..|documents|] == documents;
      PostingsKeys(Lists());
      StringOrderIsTotal(Elements(vocabulary));
      SortBySorted(vocabulary, StringLess);
      vocabulary := SortBy(vocabulary, StringLess);
    }

    // ----- Staying in step with the store: the critical sections -----

    function Held(): Contents
      reads this`sources, this`documents
    {
      Contents(sources, documents)
    }

    /** What the listed keys lack, unless an indexed source is no longer listed. */
    method PickLocked(listed: seq<string>) returns (removed: bool, missing: seq<string>)
      ensures removed == Removed(Held(), listed)
      ensures !removed ==> missing == Missing(Held(), listed)
    {
      missing, removed := [], false;
      var pending := sources.Keys;
      while pending != {}
        invariant pending <= sources.Keys && forall k | k in sources && k !in pending :: k in listed
        decreases pending
      {
        var k :| k in pending;
        if k !in listed { return true, []; }
        pending := pending - {k};
      }
      for i := 0 to |listed|
        invariant missing == Missing(Held(), listed[..i])
      {
        ghost var known := sources;
        FilterAppend(listed[..i], [listed[i]], (k: string) => k !in known);
        assert listed[..i + 1] == listed[..i] + [listed[i]];
        if listed[i] !in sources { missing := missing + [listed[i]]; }
      }
      assert listed[..|listed|] == listed;
    }

    /** Forget everything. */
    method ClearLocked()
      modifies this
      ensures Indexed() && Held() == EMPTY && loaded == old(loaded)
    {
      documents, sources := [], map[];
      RebuildLocked();
    }

    /** Install what a refresh read, without looking again at what is there. */
    method CommitLocked(read: seq<Loaded>)
      requires Indexed()
      modifies this
      ensures Indexed() && Held() == AddAll(old(Held()), read) && loaded == old(loaded)
    {
      for i := 0 to |read|
        invariant Held() == AddAll(old(Held()), read[..i]) && loaded == old(loaded)
        invariant i == 0 ==> Indexed()
      {
        assert read[..i + 1][..i] == read[..i];
        sources, documents := sources[read[i].key := read[i].digest], documents + read[i].documents;
      }
      assert read[..|read|] == read;
      if |read| > 0 { RebuildLocked(); }
    }

    /** Index a write of this process, unless its source is already there. */
    method ObserveSegment(source: Loaded)
      requires Indexed()
      modifies this
      ensures Indexed() && loaded == old(loaded)
      ensures Held() == if loaded then Observe(old(Held()), source) else old(Held())
    {
      if !loaded || source.key in sources { return; }
      sources := sources[source.key := source.digest];
      AddDocumentsLocked(source.documents);
    }

    method CacheLocked() returns (cache: Sealed<SearchCache>)
      ensures Intact(cache) && cache.value.schema == CACHE_SCHEMA && cache.value.store == store
      ensures cache.value.contents.sources == sources
      ensures cache.value.contents.documents == SortBy(documents, DocumentLess)
      ensures multiset(cache.value.contents.documents) == multiset(documents)
    {
      cache := Seal(SearchCache(CACHE_SCHEMA, store, Contents(sources, SortBy(documents, DocumentLess))));
    }

    /** A cache is used only if it is this store's, of this version, and intact. */
    method ReadCache(file: Option<Sealed<SearchCache>>) returns (r: Option<SearchCache>)
      ensures r.Some? <==> file.Some? && file.value.value.schema == CACHE_SCHEMA && file.value.value.store == store && Intact(file.value)
      ensures r.Some? ==> r.value == file.value.value
    {
      if file.None? { return None; }
      var cache := file.value.value;
      if cache.schema != CACHE_SCHEMA || cache.store != store { return None; }
      if cache != file.value.digestOf { return None; }
      r := Some(cache);
    }

    method InstallCacheLocked(cache: SearchCache)
      modifies this
      ensures Indexed() && loaded && Held() == cache.contents
    {
      loaded := true;
      documents, sources := cache.contents.documents, cache.contents.sources;
      RebuildLocked();
    }

    // ----- Answering queries -----

    /** The stored positions of a term in a document; none when there is no posting. */
    ghost function Positions(term: string, d: nat): seq<nat>
      reads this
    {
      if term in postings && d in postings[term] then postings[term][d] else []
    }

    lemma PositionsKnown(term: string, d: nat)
      requires Indexed() && d < |documents|
      ensures Positions(term, d) == PositionsOf(term, Lists()[d])
    {
      PostingLookup(Lists(), term);
      PositionsOfMember(term, Lists()[d]);
    }

    /** BM25 scores of one term in every document that contains it. */
    method TermScoresLocked(term: string) returns (r: Scores)
      requires Indexed()
      ensures r == TermTable(engine, Lists(), term)
    {
      hide PostingsOf, FiltersOf, SumLengths, Vocabulary, Terms, PositionsOf, Bm25, Idf, Sorted, Elements;
      ghost var lists := Lists();
      PostingLookup(lists, term);
      OccurrencesCounted(term, lists);
      var posting: map<nat, seq<nat>> := if term in postings then postings[term] else map[];
      assert posting == Occurrences(term, lists);
      r := map[];
      if |posting| == 0 || |documents| == 0 {
        assert posting == map[];
        assert TermTable(engine, lists, term).Keys == posting.Keys;
        return;
      }
      var n := |documents|;
      var idf := Idf(engine.ln, n, |posting|);
      var pending := posting.Keys;
      while pending != {}
        invariant pending <= posting.Keys && r.Keys == posting.Keys - pending
        invariant forall d | d in r :: r[d] == TermScore(engine, lists, term, lists[d])
        decreases pending
      {
        var d :| d in pending;
        PositionsOfMember(term, lists[d]);
        SumLengthsPositive(lists, d);
        var score := ScoreDocument(engine.ln, n, |posting|, idf, totalTerms, |posting[d]|, documentLengths[d]);
        r := r[d := score];
        pending := pending - {d};
      }
      assert r.Keys == TermTable(engine, lists, term).Keys;
    }

    /** Do the remaining terms of a phrase follow at consecutive positions? */
    method FollowsLocked(d: nat, terms: seq<string>, start: nat) returns (matched: bool)
      requires Indexed() && d < |documents| && terms != []
      requires start < |Lists()[d]| && Lists()[d][start] == terms[0]
      ensures matched <==> PhraseAt(Lists()[d], terms, start)
    {
      hide PostingsOf, FiltersOf, SumLengths, Vocabulary, Terms, PositionsOf, Sorted, Elements;
      ghost var list := Lists()[d];
      PhraseAtPointwise(list, terms, start);
      for offset := 1 to |terms|
        invariant start + offset <= |list| && forall o | 0 <= o < offset :: list[start + o] == terms[o]
      {
        PositionsKnown(terms[offset], d);
        PositionsOfMember(terms[offset], list);
        var positions := if terms[offset] in postings && d in postings[terms[offset]] then postings[terms[offset]][d] else [];
        var follows := ContainsPosition(positions, start + offset);
        if !follows {
          assert !(start + offset < |list| && list[start + offset] == terms[offset]);
          return false;
        }
      }
      matched := true;
    }

    /** The positional phrase test: start at each occurrence of the first term and bisect for the others. */
    method HasPhraseLocked(d: nat, terms: seq<string>) returns (found: bool)
      requires Indexed() && d < |documents|
      ensures found <==> |terms| < 2 || PhraseIn(Lists()[d], terms)
    {
      hide PostingsOf, FiltersOf, SumLengths, Vocabulary, Terms, PositionsOf, Sorted, Elements;
      if |terms| < 2 { return true; }
      ghost var list := Lists()[d];
      PositionsKnown(terms[0], d);
      PositionsOfMember(terms[0], list);
      var positions := if terms[0] in postings && d in postings[terms[0]] then postings[terms[0]][d] else [];
      for i := 0 to |positions|
        invariant forall j | 0 <= j < i :: !PhraseAt(list, terms, positions[j])
      {
        var matched := FollowsLocked(d, terms, positions[i]);
        if matched { return true; }
      }
      forall start: nat | PhraseAt(list, terms, start) ensures start in positions {
        PhraseAtPointwise(list, terms, start);
        assert list[start + 0] == terms[0];
      }
      found := false;
    }

    /** Bisect to the first candidate, then walk the run of words with the prefix. */
    method ExpandPrefixLocked(prefix: string) returns (r: Option<seq<string>>)
      requires Indexed()
      ensures r.Some? ==> r.value == Expansion(Lists(), prefix)
      ensures r.None? <==> |Expansion(Lists(), prefix)| > MAX_PREFIX_EXPANSIONS
    {
      hide PostingsOf, FiltersOf, SumLengths, Vocabulary, Terms, Expansion, Sorted, Elements, StringLess;
      var start := SearchStrings(vocabulary, prefix);
      ghost var end := ExpansionIsRun(Lists(), vocabulary, prefix, start);
      var terms: seq<string> := [];
      var index := start;
      while index < |vocabulary| && HasPrefix(vocabulary[index], prefix)
        invariant start <= index <= end && terms == vocabulary[start..index]
        invariant |terms| <= MAX_PREFIX_EXPANSIONS
        decreases |vocabulary| - index
      {
        terms := terms + [vocabulary[index]];
        index := index + 1;
        if |terms| > MAX_PREFIX_EXPANSIONS { return None; }
      }
      r := Some(terms);
    }

    /** Every word of an exact or phrase clause must occur; scores add up. */
    method MatchTermsLocked(terms: seq<string>) returns (r: Scores)
      requires Indexed() && terms != []
      ensures r == map d: nat | 0 <= d < |documents| && (forall t | t in terms :: t in Lists()[d]) :: SumScores(engine, Lists(), terms, Lists()[d])
    {
      ghost var lists := Lists();
      var matches: Option<Scores> := None;
      for i := 0 to |terms|
        invariant i == 0 <==> matches.None?
        invariant i > 0 ==> matches.value.Keys == set d: nat | 0 <= d < |lists| && forall t | t in terms[..i] :: t in lists[d]
        invariant i > 0 ==> forall d | d in matches.value :: matches.value[d] == SumScores(engine, lists, terms[..i], lists[d])
      {
        var scores := TermScoresLocked(terms[i]);
        var joined := IntersectScores(matches, scores);
        assert terms[..i + 1] == terms[..i] + [terms[i]];
        assert terms[..i + 1][..i] == terms[..i];
        assert i == 0 ==> terms[..i] == [];
        matches := Some(joined);
      }
      assert terms[..|terms|] == terms;
      r := matches.value;
    }

    /** Any word of an expansion may occur; scores of those that do add up. */
    method MatchAnyLocked(terms: seq<string>) returns (r: Scores)
      requires Indexed()
      ensures r == map d: nat | 0 <= d < |documents| && (exists t :: t in terms && t in Lists()[d]) :: SumScores(engine, Lists(), terms, Lists()[d])
    {
      hide PostingsOf, FiltersOf, SumLengths, Vocabulary, Terms, Sorted, Elements, TermScore, PositionsOf;
      ghost var lists := Lists();
      r := map[];
      for i := 0 to |terms|
        invariant r.Keys == set d: nat | 0 <= d < |lists| && exists t :: t in terms[..i] && t in lists[d]
        invariant forall d | d in r :: r[d] == SumScores(engine, lists, terms[..i], lists[d])
      {
        var scores := TermScoresLocked(terms[i]);
        r := AddScores(r, scores);
        assert terms[..i + 1] == terms[..i] + [terms[i]];
        assert terms[..i + 1][..i] == terms[..i];
        forall d | d in r ensures r[d] == SumScores(engine, lists, terms[..i + 1], lists[d]) {
          if forall t | t in terms[..i] :: t !in lists[d] { SumScoresNowhere(engine, lists, terms[..i], lists[d]); }
          PositionsOfMember(terms[i], lists[d]);
          if terms[i] !in lists[d] { AbsentScore(engine, lists, terms[i], lists[d]); }
        }
      }
      assert terms[..|terms|] == terms;
    }

    /** One clause, as a table of the documents that satisfy it. */
    method MatchClauseLocked(c: Clause) returns (r: Result<Scores, SearchError>)
      requires Indexed() && c.terms != []
      ensures r.Err? <==> TooBroad(Lists(), c)
      ensures r.Err? ==> r.error == PrefixTooBroad
      ensures r.Ok? ==> r.value == ClauseTable(engine, Lists(), c)
    {
      hide PostingsOf, FiltersOf, SumLengths, Vocabulary, Terms, Expansion, SumScores, Sorted, Elements, HasPrefix, PhraseIn;
      ghost var lists := Lists();
      if c.prefix {
        var terms := ExpandPrefixLocked(c.terms[0]);
        if terms.None? { return Err(PrefixTooBroad); }
        var any := MatchAnyLocked(terms.value);
        forall d | 0 <= d < |lists| ensures ClauseHolds(c, lists[d]) <==> exists t :: t in terms.value && t in lists[d] {
          ExpansionHolds(lists, c.terms[0], d);
        }
        assert any == ClauseTable(engine, lists, c);
        return Ok(any);
      }
      var all := MatchTermsLocked(c.terms);
      if !c.phrase {
        assert all == ClauseTable(engine, lists, c);
        return Ok(all);
      }
      var matches: Scores := map[];
      var pending := all.Keys;
      while pending != {}
        invariant pending <= all.Keys
        invariant matches.Keys == set d | d in all && d !in pending && PhraseIn(lists[d], c.terms)
        invariant forall d | d in matches :: matches[d] == 2.0 * SumScores(engine, lists, c.terms, lists[d])
        decreases pending
      {
        var d :| d in pending;
        var found := HasPhraseLocked(d, c.terms);
        if |c.terms| == 1 { SingleWordPhrase(lists[d], c.terms); }
        if found { matches := matches[d := all[d] * 2.0]; }
        pending := pending - {d};
      }
      assert matches == ClauseTable(engine, lists, c);
      r := Ok(matches);
    }

    /** With no clause every document is a candidate, scored zero. */
    method EveryDocumentLocked() returns (r: Scores)
      ensures r == QueryTable(engine, Lists(), [])
    {
      r := map[];
      for d := 0 to |documents|
        invariant (forall i: nat :: i in r <==> i < d) && forall i | i in r :: r[i] == 0.0
      {
        r := r[d := 0.0];
      }
    }

    /** AND the clauses together, adding their scores. */
    method MatchAllLocked(clauses: seq<Clause>) returns (r: Result<Scores, SearchError>)
      requires Indexed() && forall i | 0 <= i < |clauses| :: clauses[i].terms != []
      ensures r.Err? <==> exists i :: 0 <= i < |clauses| && TooBroad(Lists(), clauses[i])
      ensures r.Err? ==> r.error == PrefixTooBroad
      ensures r.Ok? ==> r.value == QueryTable(engine, Lists(), clauses)
    {
      hide ClauseTable, QueryTable, TooBroad, PostingsOf, FiltersOf, SumLengths, Vocabulary, Sorted, Elements;
      ghost var lists := Lists();
      var candidates: Option<Scores> := None;
      for i := 0 to |clauses|
        invariant i == 0 <==> candidates.None?
        invariant i > 0 ==> candidates == Some(QueryTable(engine, lists, clauses[..i]))
        invariant forall j | 0 <= j < i :: !TooBroad(lists, clauses[j])
      {
        var matches := MatchClauseLocked(clauses[i]);
        if matches.Err? { return Err(matches.error); }
        var joined := IntersectScores(candidates, matches.value);
        QueryTableSnoc(engine, lists, clauses[..i], clauses[i]);
        assert clauses[..i + 1] == clauses[..i] + [clauses[i]];
        assert i == 0 ==> clauses[..i] == [];
        candidates := Some(joined);
      }
      assert clauses[..|clauses|] == clauses;
      if candidates.None? {
        var every := EveryDocumentLocked();
        r := Ok(every);
      } else {
        r := Ok(candidates.value);
      }
    }

    /** Keep the candidates found under every wanted (field, value) pair. */
    method ApplyFiltersLocked(q: SearchQuery, candidates: Scores) returns (r: Scores)
      requires Indexed() && forall d | d in candidates :: d < |documents|
      ensures r == map d | d in candidates && PassesFacets(documents[d].record, q) :: candidates[d]
    {
      hide PostingsOf, SumLengths, Vocabulary, Sorted, Elements, Facets, Wanted;
      r := candidates;
      var pending := Wanted(q);
      while pending != {}
        invariant pending <= Wanted(q)
        invariant r == map d | d in candidates && Wanted(q) - pending <= Facets(documents[d].record) :: candidates[d]
        decreases pending
      {
        var facet :| facet in pending;
        var allowed := if facet in filters then filters[facet] else {};
        forall d | d in candidates ensures d in allowed <==> facet in Facets(documents[d].record) {
          FilterLookup(documents, facet, d);
        }
        var before := r;
        r := FilterScores(r, allowed);
        assert Wanted(q) - (pending - {facet}) == (Wanted(q) - pending) + {facet};
        pending := pending - {facet};
      }
      assert Wanted(q) - {} == Wanted(q);
    }

    method ApplyTimeLocked(q: SearchQuery, candidates: Scores) returns (r: Scores)
      requires forall d | d in candidates :: d < |documents|
      ensures r == map d | d in candidates && WithinTime(documents[d].record, q.since, q.until) :: candidates[d]
    {
      r := candidates;
      var pending := candidates.Keys;
      while pending != {}
        invariant pending <= candidates.Keys
        invariant r == map d | d in candidates && (d in pending || WithinTime(documents[d].record, q.since, q.until)) :: candidates[d]
        decreases pending
      {
        var d :| d in pending;
        var occurredAt := documents[d].record.occurredAt;
        if (q.since.Some? && occurredAt < q.since.value) || (q.until.Some? && occurredAt > q.until.value) {
          r := r - {d};
        }
        pending := pending - {d};
      }
    }

    /** Walk the candidates in arbitrary order and turn each into a hit. */
    method CollectHitsLocked(candidates: Scores) returns (hits: seq<Hit>)
      requires forall d | d in candidates :: d < |documents|
      ensures |hits| == |candidates|
      ensures Elements(hits) == set d | d in candidates :: Hit(documents[d].record, candidates[d])
      ensures DistinctDocuments(documents) ==> NoDuplicates(hits)
    {
      hits := [];
      var pending := candidates.Keys;
      while pending != {}
        invariant pending <= candidates.Keys && |hits| + |pending| == |candidates|
        invariant Elements(hits) == set d | d in candidates && d !in pending :: Hit(documents[d].record, candidates[d])
        invariant DistinctDocuments(documents) ==> NoDuplicates(hits)
        decreases pending
      {
        var d :| d in pending;
        var hit := Hit(documents[d].record, candidates[d]);
        forall e | e in candidates && e != d && DistinctDocuments(documents)
          ensures Hit(documents[e].record, candidates[e]) != hit
        {
        }
        assert DistinctDocuments(documents) ==> hit !in Elements(hits);
        assert Elements(hits + [hit]) == Elements(hits) + {hit};
        hits := hits + [hit];
        pending := pending - {d};
      }
    }

    /** The records of the candidates within the time bounds, in the order the map is walked. */
    method CollectRecordsLocked(q: SearchQuery, candidates: Scores) returns (records: seq<Record>)
      requires forall d | d in candidates :: d < |documents|
      ensures Elements(records) == set d | d in candidates && WithinTime(documents[d].record, q.since, q.until) :: documents[d].record
      ensures DistinctDocuments(documents) ==> NoDuplicates(records)
    {
      records := [];
      var pending := candidates.Keys;
      while pending != {}
        invariant pending <= candidates.Keys
        invariant Elements(records) ==
          set d | d in candidates && d !in pending && WithinTime(documents[d].record, q.since, q.until) :: documents[d].record
        invariant DistinctDocuments(documents) ==> NoDuplicates(records)
        decreases pending
      {
        var d :| d in pending;
        var record := documents[d].record;
        forall e | e in candidates && e != d && DistinctDocuments(documents) ensures documents[e].record != record {}
        assert DistinctDocuments(documents) ==> record !in Elements(records);
        assert Elements(records + [record]) == Elements(records) + {record};
        if !((q.since.Some? && record.occurredAt < q.since.value) || (q.until.Some? && record.occurredAt > q.until.value)) {
          records := records + [record];
        }
        pending := pending - {d};
      }
    }

    /** A query without text: refused below zero and beyond a thousand, otherwise the first of what a scan finds,
        in listing order whenever that order is one (RecordOrderTotalIff). */
    method QueryRecords(q: SearchQuery) returns (r: Option<seq<Record>>)
      requires Indexed()
      ensures r.None? <==> q.limit < 0 || q.limit > 1000
      ensures r.Some? ==> Elements(r.value) <= Found(q, documents) && |r.value| <= EffectiveLimit(q.limit)
      ensures r.Some? && DistinctDocuments(documents) && NoStraddling(Found(q, documents)) ==>
                exists all ::
                  && InListingOrder(all) && NoDuplicates(all) && Elements(all) == Found(q, documents)
                  && r.value == all[..Min(if q.limit == 0 then 100 else q.limit, |all|)]
    {
      hide PassesFacets, Sorted, RecordLess, TotalOrderOn, NoStraddling, InListingOrder, Insert, NoDuplicates, WithinTime, FiltersOf, PostingsOf, Vocabulary, SumLengths;
      if q.limit < 0 || q.limit > 1000 { return None; }
      var every := EveryDocumentLocked();
      var candidates := ApplyFiltersLocked(q, every);
      var records := CollectRecordsLocked(q, candidates);
      assert Elements(records) == Found(q, documents) by { FoundByNumber(q, documents, every); }
      var sorted := SortBy(records, RecordLess);
      MultisetElements(sorted, records);
      if DistinctDocuments(documents) && NoStraddling(Found(q, documents)) {
        RecordOrderTotalIff(Found(q, documents));
        SortBySorted(records, RecordLess);
        SortedIsInListingOrder(sorted);
        SortedHasNoDuplicates(RecordLess, sorted);
      }
      r := Some(FirstOf(sorted, EffectiveLimit(q.limit)));
    }

    /** A search agrees with scanning every document: it fails exactly when the scan does, and
        otherwise returns the number of matching documents and the best of them in rank order. */
    method Execute(q: SearchQuery) returns (r: Result<(seq<Hit>, nat), SearchError>)
      requires Indexed() && engine.Lawful() && q.limit >= 0
      ensures DistinctDocuments(documents) ==> r == Scan(engine, q, documents)
      ensures r.Err? == Scan(engine, q, documents).Err? && (r.Err? ==> r == Scan(engine, q, documents))
      ensures r.Ok? ==> r.value.1 == |Matching(engine, q, Parse(engine.alphabet, q.text).value, documents)|
      ensures r.Ok? ==> Elements(r.value.0) <= HitSet(engine, q, Parse(engine.alphabet, q.text).value, documents)
      ensures r.Err? ==> r.error == PrefixTooBroad || (r.error.Unparsable? && Parse(engine.alphabet, q.text) == Err(r.error.error))
      ensures r.Ok? && DistinctDocuments(documents) ==> ShowsBest(engine, q, Parse(engine.alphabet, q.text).value, documents, r.value.0)
    {
      hide PostingsOf, FiltersOf, SumLengths, Vocabulary, Sorted, TooBroad, PassesFacets, WithinTime, Parse, TotalOrderOn, HitLess, ShowsBest, DistinctDocuments, QueryScore, Insert, NoDuplicates;
      var parsed := ParseSearchQuery(engine.alphabet, q.text);
      if parsed.Err? { return Err(Unparsable(parsed.error)); }
      var clauses := parsed.value;
      ParseIsStable(engine.alphabet, q.text);
      var matched := MatchAllLocked(clauses);
      if matched.Err? { return Err(matched.error); }
      var filtered := ApplyFiltersLocked(q, matched.value);
      var candidates := ApplyTimeLocked(q, filtered);
      var hits := CollectHitsLocked(candidates);
      CandidatesAreMatches(engine, q, clauses, documents, candidates);
      MultisetElements(SortBy(hits, HitLess), hits);
      if DistinctDocuments(documents) {
        HitsOrdered(engine, q, clauses, documents);
        HitListing(engine, q, clauses, documents);
        SortByOrderFree(hits, HitsOf(engine, q, clauses, documents), HitLess);
        ScanShowsBest(engine, q, documents);
      }
      r := Ok((FirstOf(SortBy(hits, HitLess), EffectiveLimit(q.limit)), |hits|));
    }

    /** The request as it comes in: its limit and bounds are checked before anything else. */
    method Search(q: SearchQuery) returns (r: Result<(seq<Hit>, nat), SearchError>)
      requires Indexed() && engine.Lawful()
      ensures DistinctDocuments(documents) ==> r == Answer(engine, q, documents)
      ensures r.Err? == Answer(engine, q, documents).Err? && (r.Err? ==> r == Answer(engine, q, documents))
      ensures r.Ok? ==> r.value.1 == |Matching(engine, q, Parse(engine.alphabet, q.text).value, documents)|
      ensures r.Ok? && DistinctDocuments(documents) ==> ShowsBest(engine, q, Parse(engine.alphabet, q.text).value, documents, r.value.0)
      ensures r == Err(InvalidLimit) <==> q.limit < 0 || q.limit > 1000
      ensures r == Err(InvertedBounds) <==> 0 <= q.limit <= 1000 && q.since.Some? && q.until.Some? && q.since.value > q.until.value
    {
      hide Scan, Indexed, Matching, DistinctDocuments, ShowsBest;
      if q.limit < 0 || q.limit > 1000 { return Err(InvalidLimit); }
      if Inverted(q) { return Err(InvertedBounds); }
      r := Execute(q);
    }
  }

  lemma FoundByNumber(q: SearchQuery, documents: seq<Document>, every: Scores)
    requires forall d: nat :: d in every <==> d < |documents|
    ensures (set d | d in every && PassesFacets(documents[d].record, q) && WithinTime(documents[d].record, q.since, q.until) :: documents[d].record) == Found(q, documents)
  {
    hide PassesFacets, WithinTime;
    forall x | x in documents && PassesFacets(x.record, q) && WithinTime(x.record, q.since, q.until)
      ensures exists d: nat :: d in every && documents[d] == x
    {
      var d: nat :| d < |documents| && documents[d] == x;
      assert d in every;
    }
  }

  /** The whole index is determined by its documents, so extending it in place leaves exactly what
      rebuilding it from all the documents would. */
  lemma IndexDetermined(a: SearchProjection, b: SearchProjection)
    requires a.Indexed() && b.Indexed() && a.documents == b.documents && a.engine == b.engine
    ensures a.postings == b.postings && a.filters == b.filters && a.vocabulary == b.vocabulary
    ensures a.documentLengths == b.documentLengths && a.totalTerms == b.totalTerms
  {
    hide Vocabulary, PostingsOf, FiltersOf, SumLengths, Terms;
    StringOrderIsTotal(Elements(a.vocabulary));
    SortedUnique(StringLess, a.vocabulary, b.vocabulary);
  }

  lemma SingleWordPhrase(terms: seq<string>, phrase: seq<string>)
    requires |phrase| == 1 && phrase[0] in terms
    ensures PhraseIn(terms, phrase)
  {
    var i :| 0 <= i < |terms| && terms[i] == phrase[0];
    assert PhraseAt(terms, phrase, i);
  }

  lemma QueryTableSnoc(e: Engine, lists: seq<seq<string>>, clauses: seq<Clause>, c: Clause)
    ensures clauses == [] ==> QueryTable(e, lists, clauses + [c]) == ClauseTable(e, lists, c)
    ensures JoinSum(QueryTable(e, lists, clauses), ClauseTable(e, lists, c)) == QueryTable(e, lists, clauses + [c])
  {
    hide ClauseHolds, ClauseScore;
    var more := clauses + [c];
    assert more[..|more| - 1] == clauses && more[|more| - 1] == c;
    forall d | 0 <= d < |lists|
      ensures AllHold(more, lists[d]) <==> AllHold(clauses, lists[d]) && ClauseHolds(c, lists[d])
    {
      if AllHold(more, lists[d]) {
        forall i | 0 <= i < |clauses| ensures ClauseHolds(clauses[i], lists[d]) { assert more[i] == clauses[i]; }
        assert more[|clauses|] == c;
      }
    }
    var m, n := QueryTable(e, lists, more), ClauseTable(e, lists, c);
    if clauses == [] {
      assert m.Keys == n.Keys;
      forall d | d in m ensures m[d] == n[d] {
        assert QueryScore(e, lists, clauses, lists[d]) == 0.0;
      }
    }
  }

  lemma FilterLookup(documents: seq<Document>, facet: (Field, string), d: nat)
    requires d < |documents|
    ensures d in (if facet in FiltersOf(documents) then FiltersOf(documents)[facet] else {}) <==> facet in Facets(documents[d].record)
  {
    hide Facets;
    if facet in Facets(documents[d].record) { assert facet in AllFacets(documents); }
  }

  /** The candidate table lists exactly the documents a scan would match, with their scores. */
  lemma CandidatesAreMatches(e: Engine, q: SearchQuery, clauses: seq<Clause>, documents: seq<Document>, candidates: Scores)
    requires var lists := TermLists(e.alphabet, documents);
             var matched := QueryTable(e, lists, clauses);
             var filtered := map d | d in matched && PassesFacets(documents[d].record, q) :: matched[d];
             candidates == map d | d in filtered && WithinTime(documents[d].record, q.since, q.until) :: filtered[d]
    ensures |candidates| == |Matching(e, q, clauses, documents)|
    ensures (set d | d in candidates :: Hit(documents[d].record, candidates[d])) == HitSet(e, q, clauses, documents)
  {
    hide PassesFacets, WithinTime, AllHold, QueryScore, Terms;
    var p := (d: Document) => Matches(e, q, clauses, d);
    assert candidates.Keys == Numbers(documents, p);
    NumbersCounted(documents, p);
    forall d | d in candidates ensures Hit(documents[d].record, candidates[d]) == HitFor(e, documents, clauses, documents[d]) {}
    HitsByNumber(e, q, clauses, documents, candidates);
  }

  lemma HitsByNumber(e: Engine, q: SearchQuery, clauses: seq<Clause>, documents: seq<Document>, candidates: Scores)
    requires candidates.Keys == Numbers(documents, (d: Document) => Matches(e, q, clauses, d))
    requires forall d | d in candidates :: Hit(documents[d].record, candidates[d]) == HitFor(e, documents, clauses, documents[d])
    ensures (set d | d in candidates :: Hit(documents[d].record, candidates[d])) == HitSet(e, q, clauses, documents)
  {
    hide Matches, HitFor;
    var hits := set d | d in candidates :: Hit(documents[d].record, candidates[d]);
    forall d | d in candidates ensures Hit(documents[d].record, candidates[d]) in HitSet(e, q, clauses, documents) {
      assert documents[d] in documents && Matches(e, q, clauses, documents[d]);
    }
    forall x | x in documents && Matches(e, q, clauses, x) ensures HitFor(e, documents, clauses, x) in hits {
      var d: nat :| d < |documents| && documents[d] == x;
      assert d in candidates;
    }
  }

  /** The BM25 formula, with the inverse document frequency computed once per term. */
  method ScoreDocument(ghost ln: real -> real, n: nat, ghost df: nat, idf: real, total: nat, positions: nat, length: nat) returns (score: real)
    requires n > 0 && total > 0 && positions > 0 && idf == Idf(ln, n, df)
    ensures score == Bm25(ln, n, df, total, positions, length)
  {
    LengthRatio(n, total, positions, length);
    var averageLength := (total as real) / (n as real);
    var tf := positions as real;
    var denominator := tf + 1.2 * (1.0 - 0.75 + 0.75 * (length as real) / averageLength);
    score := idf * (tf * 2.2 / denominator);
  }

  /** matches[d] += score, for every entry. */
  method AddScores(matches: Scores, scores: Scores) returns (r: Scores)
    ensures r.Keys == matches.Keys + scores.Keys
    ensures forall d | d in r ::
      r[d] == (if d in matches then matches[d] else 0.0) + (if d in scores then scores[d] else 0.0)
  {
    r := matches;
    var pending := scores.Keys;
    while pending != {}
      invariant pending <= scores.Keys && r.Keys == matches.Keys + (scores.Keys - pending)
      invariant forall d | d in r ::
        r[d] == (if d in matches then matches[d] else 0.0) + (if d in scores && d !in pending then scores[d] else 0.0)
      decreases pending
    {
      var d :| d in pending;
      r := r[d := (if d in r then r[d] else 0.0) + scores[d]];
      pending := pending - {d};
    }
  }

  /** The cache file: numbers as they are written, under a digest of what is written. It decodes when they
      do. */
  function CacheFile(w: Numbering, cache: Sealed<SearchCache>): (r: Option<Sealed<SearchCache>>)
    ensures r.Some? <==> Decode(Renumber(w, cache.value.contents.documents))
    ensures r.Some? ==> r.value == Sealed(cache.value.(contents := RenumberContents(w, cache.value.contents)),
                                          cache.digestOf.(contents := RenumberContents(w, cache.digestOf.contents)))
  {
    var value := cache.value.(contents := RenumberContents(w, cache.value.contents));
    if Decode(value.contents.documents) then
      Some(Sealed(value, cache.digestOf.(contents := RenumberContents(w, cache.digestOf.contents))))
    else None
  }

  /** A cache round trip changes no answer but for sequence numbers that the encoding rounds: an index
      installed from the cache another one wrote answers every query as the writer does. A number that
      does not decode makes the whole file useless. */
  method SearchReinstalled(writer: SearchProjection, reader: SearchProjection, q: SearchQuery, w: Numbering)
      returns (written: Result<(seq<Hit>, nat), SearchError>, read: Option<Result<(seq<Hit>, nat), SearchError>>)
    requires writer.Indexed() && DistinctDocuments(writer.documents) && writer != reader
    requires writer.engine == reader.engine && writer.engine.Lawful() && writer.store == reader.store
    modifies reader
    ensures written == Answer(writer.engine, q, writer.documents)
    ensures read.Some? <==> Decode(Renumber(w, writer.documents))
    ensures read.Some? ==> read.value == RenumberAnswer(w, written)
    ensures read.Some? && AllSurvive(w, writer.documents) ==> read.value == written
    ensures read.Some? ==> reader.Indexed() && reader.loaded && reader.sources == writer.sources
  {
    hide DistinctDocuments, Answer, AllSurvive, Decode, Renumber, RenumberAnswer;
    var cache := writer.CacheLocked();
    written := writer.Search(q);
    RenumberedMultiset(w, cache.value.contents.documents, writer.documents);
    SameDecode(Renumber(w, cache.value.contents.documents), Renumber(w, writer.documents));
    var file := reader.ReadCache(CacheFile(w, cache));
    if file.None? { return written, None; }
    reader.InstallCacheLocked(file.value);
    AnswerRenumbered(w, writer.engine, q, writer.documents, reader.documents);
    var again := reader.Search(q);
    read := Some(again);
  }

  lemma AnswerRenumbered(w: Numbering, e: Engine, q: SearchQuery, a: seq<Document>, b: seq<Document>)
    requires DistinctDocuments(a) && multiset(b) == multiset(Renumber(w, a))
    ensures DistinctDocuments(b)
    ensures Answer(e, q, b) == RenumberAnswer(w, Answer(e, q, a))
    ensures AllSurvive(w, a) ==> Answer(e, q, b) == Answer(e, q, a)
  {
    hide Scan, DistinctDocuments, AllSurvive, Renumber, RenumberHits;
    RenumberedDistinct(w, a);
    DistinctOrderFree(Renumber(w, a), b);
    ScanOrderFree(e, q, Renumber(w, a), b);
    ScanRenumbered(w, e, q, a);
    if AllSurvive(w, a) { SurvivorsStay(w, a); }
  }

  lemma SameDecode(a: seq<Document>, b: seq<Document>)
    requires multiset(a) == multiset(b)
    ensures Decode(a) <==> Decode(b)
  {
    MultisetElements(a, b);
    assert forall d :: d in a <==> d in Elements(a);
    assert forall d :: d in b <==> d in Elements(b);
  }
}
