/** Document numbers do not show: two indexes over the same documents in any order give the same
    answers, so a cache may list the documents however it likes (history/search.go). */
module SearchReorder {
  import opened Basics
  import opened Sorting
  import opened Records
  import opened Tokens
  import opened SearchIndex
  import opened SearchScan

  /** The statistics a score is made of. */
  ghost predicate SameStatistics(a: seq<seq<string>>, b: seq<seq<string>>) {
    && |a| == |b| && SumLengths(a) == SumLengths(b) && Vocabulary(a) == Vocabulary(b)
    && forall t :: Frequency(t, a) == Frequency(t, b)
  }

  lemma {:induction false} SumLengthsAppend(a: seq<seq<string>>, b: seq<seq<string>>)
    ensures SumLengths(a + b) == SumLengths(a) + SumLengths(b)
  {
    if b == [] {
      assert a + b == a;
    } else {
      assert (a + b)[..|a + b| - 1] == a + b[..|b| - 1];
      SumLengthsAppend(a, b[..|b| - 1]);
    }
  }

  lemma {:induction false} FrequencyAppend(term: string, a: seq<seq<string>>, b: seq<seq<string>>)
    ensures Frequency(term, a + b) == Frequency(term, a) + Frequency(term, b)
  {
    if b == [] {
      assert a + b == a;
    } else {
      assert (a + b)[..|a + b| - 1] == a + b[..|b| - 1];
      FrequencyAppend(term, a, b[..|b| - 1]);
    }
  }

  lemma {:induction false} SumLengthsOrderFree(a: seq<seq<string>>, b: seq<seq<string>>)
    requires multiset(a) == multiset(b)
    ensures SumLengths(a) == SumLengths(b)
  {
    MultisetElements(a, b);
    if a != [] {
      var i := FindFirst(a, b);
      SumLengthsOrderFree(a[1..], RemoveAt(b, i));
      assert a == [a[0]] + a[1..] && b == b[..i] + ([b[i]] + b[i + 1..]);
      SumLengthsAppend([a[0]], a[1..]);
      SumLengthsAppend(b[..i], [b[i]] + b[i + 1..]);
      SumLengthsAppend([b[i]], b[i + 1..]);
      SumLengthsAppend(b[..i], b[i + 1..]);
    }
  }

  lemma {:induction false} FrequencyOrderFree(term: string, a: seq<seq<string>>, b: seq<seq<string>>)
    requires multiset(a) == multiset(b)
    ensures Frequency(term, a) == Frequency(term, b)
  {
    MultisetElements(a, b);
    if a != [] {
      var i := FindFirst(a, b);
      FrequencyOrderFree(term, a[1..], RemoveAt(b, i));
      assert a == [a[0]] + a[1..] && b == b[..i] + ([b[i]] + b[i + 1..]);
      FrequencyAppend(term, [a[0]], a[1..]);
      FrequencyAppend(term, b[..i], [b[i]] + b[i + 1..]);
      FrequencyAppend(term, [b[i]], b[i + 1..]);
      FrequencyAppend(term, b[..i], b[i + 1..]);
    }
  }

  lemma VocabularyWithin(a: seq<seq<string>>, b: seq<seq<string>>)
    requires Elements(a) <= Elements(b)
    ensures Vocabulary(a) <= Vocabulary(b)
  {
    forall d, i | 0 <= d < |a| && 0 <= i < |a[d]| ensures a[d][i] in Vocabulary(b) {
      assert a[d] in Elements(b);
      var e :| 0 <= e < |b| && b[e] == a[d];
      assert b[e][i] == a[d][i];
    }
  }

  lemma TermListsAppend(ab: Alphabet, a: seq<Document>, b: seq<Document>)
    ensures TermLists(ab, a + b) == TermLists(ab, a) + TermLists(ab, b)
  {
    hide Terms;
  }

  lemma {:induction false} TermListsOrderFree(ab: Alphabet, a: seq<Document>, b: seq<Document>)
    requires multiset(a) == multiset(b)
    ensures multiset(TermLists(ab, a)) == multiset(TermLists(ab, b))
  {
    MultisetElements(a, b);
    if a != [] {
      var i := FindFirst(a, b);
      TermListsOrderFree(ab, a[1..], RemoveAt(b, i));
      hide TermLists;
      assert a == [a[0]] + a[1..] && b == b[..i] + ([b[i]] + b[i + 1..]);
      TermListsAppend(ab, [a[0]], a[1..]);
      TermListsAppend(ab, b[..i], [b[i]] + b[i + 1..]);
      TermListsAppend(ab, [b[i]], b[i + 1..]);
      TermListsAppend(ab, b[..i], b[i + 1..]);
    }
  }

  lemma StatisticsOrderFree(ab: Alphabet, a: seq<Document>, b: seq<Document>)
    requires multiset(a) == multiset(b)
    ensures SameStatistics(TermLists(ab, a), TermLists(ab, b))
  {
    hide Vocabulary;
    var la, lb := TermLists(ab, a), TermLists(ab, b);
    TermListsOrderFree(ab, a, b);
    MultisetElements(la, lb);
    SumLengthsOrderFree(la, lb);
    VocabularyWithin(la, lb);
    VocabularyWithin(lb, la);
    forall t ensures Frequency(t, la) == Frequency(t, lb) { FrequencyOrderFree(t, la, lb); }
  }

  lemma {:induction false} SumScoresSame(e: Engine, a: seq<seq<string>>, b: seq<seq<string>>, wanted: seq<string>, terms: seq<string>)
    requires SameStatistics(a, b)
    ensures SumScores(e, a, wanted, terms) == SumScores(e, b, wanted, terms)
  {
    if wanted != [] {
      assert Frequency(wanted[|wanted| - 1], a) == Frequency(wanted[|wanted| - 1], b);
      SumScoresSame(e, a, b, wanted[..|wanted| - 1], terms);
    }
  }

  lemma {:induction false} QueryScoreSame(e: Engine, a: seq<seq<string>>, b: seq<seq<string>>, clauses: seq<Clause>, terms: seq<string>)
    requires SameStatistics(a, b)
    ensures QueryScore(e, a, clauses, terms) == QueryScore(e, b, clauses, terms)
  {
    hide Vocabulary, SumLengths;
    if clauses != [] {
      QueryScoreSame(e, a, b, clauses[..|clauses| - 1], terms);
      var c := clauses[|clauses| - 1];
      if c.terms != [] {
        SumScoresSame(e, a, b, c.terms, terms);
        SumScoresSame(e, a, b, Expansion(a, c.terms[0]), terms);
      }
    }
  }

  lemma BroadQuerySame(a: seq<seq<string>>, b: seq<seq<string>>, clauses: seq<Clause>)
    requires SameStatistics(a, b)
    ensures BroadQuery(a, clauses) <==> BroadQuery(b, clauses)
  {
    hide Vocabulary, SumLengths;
    forall i | 0 <= i < |clauses| ensures TooBroad(a, clauses[i]) <==> TooBroad(b, clauses[i]) {}
  }

  lemma HitSetOrderFree(e: Engine, q: SearchQuery, clauses: seq<Clause>, a: seq<Document>, b: seq<Document>)
    requires multiset(a) == multiset(b)
    ensures HitSet(e, q, clauses, a) == HitSet(e, q, clauses, b)
  {
    hide Matches, QueryScore, SameStatistics, Terms;
    MultisetElements(a, b);
    StatisticsOrderFree(e.alphabet, a, b);
    forall d ensures HitFor(e, a, clauses, d) == HitFor(e, b, clauses, d) {
      QueryScoreSame(e, TermLists(e.alphabet, a), TermLists(e.alphabet, b), clauses, Terms(e.alphabet, d.text));
    }
    forall d ensures d in a <==> d in b {
      assert d in a <==> d in Elements(a);
      assert d in b <==> d in Elements(b);
    }
  }

  lemma {:induction false} DistinctOrderFree(a: seq<Document>, b: seq<Document>)
    requires multiset(a) == multiset(b) && DistinctDocuments(a)
    ensures DistinctDocuments(b)
    decreases |b|
  {
    if b != [] {
      var i := FindFirst(b, a);
      var rest := RemoveAt(a, i);
      DistinctOrderFree(rest, b[1..]);
      MultisetElements(rest, b[1..]);
      forall j | 0 < j < |b| ensures b[0].record.id != b[j].record.id {
        assert b[1..][j - 1] in Elements(b[1..]);
        var k :| 0 <= k < |rest| && rest[k] == b[j];
      }
      forall j, k | 0 < j < k < |b| ensures b[j].record.id != b[k].record.id {
        assert b[1..][j - 1].record.id != b[1..][k - 1].record.id;
      }
    }
  }

  /** Any two numberings of the same documents give the same answer to every query: the same
      failure, or the same total and the same hits with the same scores in the same order. */
  lemma ScanOrderFree(e: Engine, q: SearchQuery, a: seq<Document>, b: seq<Document>)
    requires multiset(a) == multiset(b) && DistinctDocuments(a)
    ensures Scan(e, q, a) == Scan(e, q, b)
  {
    hide SameStatistics, HitsOf, HitSet, HitLess, DistinctDocuments, TotalOrderOn, BroadQuery, NoDuplicates;
    DistinctOrderFree(a, b);
    StatisticsOrderFree(e.alphabet, a, b);
    var parsed := Parse(e.alphabet, q.text);
    if parsed.Ok? {
      BroadQuerySame(TermLists(e.alphabet, a), TermLists(e.alphabet, b), parsed.value);
      HitSetOrderFree(e, q, parsed.value, a, b);
      HitListing(e, q, parsed.value, a);
      HitListing(e, q, parsed.value, b);
      HitsOrdered(e, q, parsed.value, a);
      SortByOrderFree(HitsOf(e, q, parsed.value, a), HitsOf(e, q, parsed.value, b), HitLess);
    }
  }
}
