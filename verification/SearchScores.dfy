/** Bounds on the scores a search reports (history/search.go). */
module SearchScores {
  import opened Basics
  import opened Sorting
  import opened Records
  import opened Tokens
  import opened SearchIndex
  import opened SearchScan

  lemma {:induction false} FrequencyPositive(term: string, lists: seq<seq<string>>, d: nat)
    requires d < |lists| && term in lists[d]
    ensures Frequency(term, lists) >= 1
  {
    if d < |lists| - 1 { FrequencyPositive(term, lists[..|lists| - 1], d); }
  }

  /** The inverse document frequency is positive because no term occurs in more documents than
      there are. */
  lemma IdfPositive(e: Engine, n: nat, df: nat)
    requires e.Lawful() && df <= n
    ensures Idf(e.ln, n, df) > 0.0
  {
    var ratio := ((n as real) - (df as real) + 0.5) / ((df as real) + 0.5);
    assert ratio > 0.0;
    assert 1.0 + ratio > 1.0;
  }

  lemma ProductOrder(a: real, b: real, c: real)
    requires a < b && c > 0.0
    ensures a * c < b * c
  {
    assert (b - a) * c > 0.0;
  }

  lemma ScaleBelow(idf: real, tf: real, denominator: real)
    requires idf > 0.0 && 0.0 < tf < denominator
    ensures 0.0 < idf * (tf * 2.2 / denominator) < 2.2 * idf
  {
    var share := tf / denominator;
    assert share * denominator == tf;
    if share >= 1.0 {
      if share > 1.0 { ProductOrder(1.0, share, denominator); }
      assert false;
    }
    if share <= 0.0 {
      if share < 0.0 { ProductOrder(share, 0.0, denominator); }
      assert false;
    }
    assert tf * 2.2 / denominator == 2.2 * share;
    ProductOrder(0.0, 2.2 * share, idf);
    ProductOrder(2.2 * share, 2.2, idf);
  }

  /** A term scores strictly between 0 and 2.2 times its idf in any document that contains it. */
  lemma TermScoreBounds(e: Engine, lists: seq<seq<string>>, term: string, d: nat)
    requires e.Lawful() && d < |lists| && term in lists[d]
    ensures Idf(e.ln, |lists|, Frequency(term, lists)) > 0.0
    ensures 0.0 < TermScore(e, lists, term, lists[d]) < 2.2 * Idf(e.ln, |lists|, Frequency(term, lists))
  {
    hide Idf;
    var n, df, total := |lists|, Frequency(term, lists), SumLengths(lists);
    IdfPositive(e, n, df);
    PositionsOfMember(term, lists[d]);
    SumLengthsPositive(lists, d);
    var tf, length := |PositionsOf(term, lists[d])|, |lists[d]|;
    LengthRatio(n, total, tf, length);
    var idf := Idf(e.ln, n, df);
    var averageLength := (total as real) / (n as real);
    var denominator := (tf as real) + 1.2 * (1.0 - 0.75 + 0.75 * (length as real) / averageLength);
    assert TermScore(e, lists, term, lists[d]) == Bm25(e.ln, n, df, total, tf, length);
    assert Bm25(e.ln, n, df, total, tf, length) == idf * ((tf as real) * 2.2 / denominator);
    ScaleBelow(idf, tf as real, denominator);
  }

  lemma {:induction false} SumScoresSign(e: Engine, lists: seq<seq<string>>, wanted: seq<string>, d: nat)
    requires e.Lawful() && d < |lists|
    ensures SumScores(e, lists, wanted, lists[d]) >= 0.0
    ensures SumScores(e, lists, wanted, lists[d]) > 0.0 <==> exists t :: t in wanted && t in lists[d]
  {
    hide TermScore;
    if wanted != [] {
      var front, last := wanted[..|wanted| - 1], wanted[|wanted| - 1];
      SumScoresSign(e, lists, front, d);
      assert wanted == front + [last];
      if last in lists[d] {
        TermScoreBounds(e, lists, last, d);
      } else {
        PositionsOfMember(last, lists[d]);
        AbsentScore(e, lists, last, lists[d]);
      }
    }
  }

  lemma ClauseScorePositive(e: Engine, lists: seq<seq<string>>, c: Clause, d: nat)
    requires e.Lawful() && d < |lists| && ClauseHolds(c, lists[d])
    ensures ClauseScore(e, lists, c, lists[d]) > 0.0
  {
    if c.prefix {
      ExpansionHolds(lists, c.terms[0], d);
      SumScoresSign(e, lists, Expansion(lists, c.terms[0]), d);
    } else {
      assert c.terms[0] in c.terms && c.terms[0] in lists[d];
      SumScoresSign(e, lists, c.terms, d);
    }
  }

  lemma {:induction false} QueryScorePositive(e: Engine, lists: seq<seq<string>>, clauses: seq<Clause>, d: nat)
    requires e.Lawful() && d < |lists| && AllHold(clauses, lists[d]) && clauses != []
    ensures QueryScore(e, lists, clauses, lists[d]) > 0.0
  {
    hide ClauseScore, ClauseHolds;
    var front := clauses[..|clauses| - 1];
    ClauseScorePositive(e, lists, clauses[|clauses| - 1], d);
    if front != [] {
      assert AllHold(front, lists[d]);
      QueryScorePositive(e, lists, front, d);
    }
  }

  /** Every hit of a query with at least one clause has a strictly positive score; a query without
      clauses scores everything zero. */
  lemma HitScores(e: Engine, q: SearchQuery, clauses: seq<Clause>, documents: seq<Document>, hit: Hit)
    requires e.Lawful() && hit in HitSet(e, q, clauses, documents)
    ensures if clauses == [] then hit.score == 0.0 else hit.score > 0.0
  {
    hide ClauseScore, ClauseHolds, Terms;
    var x :| x in documents && Matches(e, q, clauses, x) && hit == HitFor(e, documents, clauses, x);
    var d :| 0 <= d < |documents| && documents[d] == x;
    if clauses != [] {
      QueryScorePositive(e, TermLists(e.alphabet, documents), clauses, d);
    }
  }

  // ----- What makes a score higher -----

  ghost predicate Increasing(ln: real -> real) {
    forall x, y :: 0.0 < x < y ==> ln(x) < ln(y)
  }

  lemma PositiveFactor(p: real, q: real)
    requires p * q > 0.0 && q > 0.0
    ensures p > 0.0
  {
  }

  lemma DivideOrder(a: real, b: real, c: real, d: real)
    requires c > 0.0 && d > 0.0 && a * d < b * c
    ensures a / c < b / d
  {
    var x, y, cd := a / c, b / d, c * d;
    assert x * c == a && y * d == b;
    assert x * cd == (x * c) * d && y * cd == (y * d) * c;
    assert (y - x) * cd == b * c - a * d;
    PositiveFactor(y - x, cd);
  }

  /** A rarer term weighs more; one that half of the documents contain weighs ln 2. */
  lemma RarerWeighsMore(ln: real -> real, n: nat, rare: nat, common: nat)
    requires Increasing(ln) && rare < common <= n
    ensures Idf(ln, n, rare) > Idf(ln, n, common)
    ensures Idf(ln, 2 * common, common) == ln(2.0)
  {
    RarityRatio(n as real, rare as real, common as real);
    assert (2 * common) as real == 2.0 * (common as real);
    assert ((2 * common) as real - (common as real) + 0.5) / ((common as real) + 0.5) == 1.0;
  }

  lemma RarityRatio(n: real, rare: real, common: real)
    requires 0.0 <= rare < common <= n
    ensures 0.0 < 1.0 + (n - common + 0.5) / (common + 0.5) < 1.0 + (n - rare + 0.5) / (rare + 0.5)
  {
    ProductOrder(rare, common, n + 1.0);
    assert (n - rare + 0.5) * (common + 0.5) == n * common - rare * common + 0.5 * common + 0.5 * n - 0.5 * rare + 0.25;
    assert (n - common + 0.5) * (rare + 0.5) == n * rare - rare * common + 0.5 * rare + 0.5 * n - 0.5 * common + 0.25;
    DivideOrder(n - common + 0.5, n - rare + 0.5, common + 0.5, rare + 0.5);
    DivideOrder(0.0, n - common + 0.5, 1.0, common + 0.5);
  }

  /** The share of the weight a document gets: more occurrences give more. */
  lemma MoreOccurrences(ln: real -> real, n: nat, df: nat, total: nat, tf: nat, more: nat, length: nat)
    requires n > 0 && total > 0 && 0 < tf < more && Idf(ln, n, df) > 0.0
    ensures Bm25(ln, n, df, total, tf, length) < Bm25(ln, n, df, total, more, length)
  {
    Bm25Spread(ln, n, df, total, tf, length);
    Bm25Spread(ln, n, df, total, more, length);
    var x := Spread(length, (total as real) / (n as real));
    hide *;
    ShareGrows(tf as real, more as real, x);
    ProductOrder(Share(tf as real, x), Share(more as real, x), Idf(ln, n, df));
  }

  /** A longer document gets less. */
  lemma LongerDocument(ln: real -> real, n: nat, df: nat, total: nat, tf: nat, length: nat, longer: nat)
    requires n > 0 && total > 0 && tf > 0 && length < longer && Idf(ln, n, df) > 0.0
    ensures Bm25(ln, n, df, total, tf, longer) < Bm25(ln, n, df, total, tf, length)
  {
    Bm25Spread(ln, n, df, total, tf, length);
    Bm25Spread(ln, n, df, total, tf, longer);
    var average := (total as real) / (n as real);
    hide *;
    SpreadGrows(length, longer, average);
    ShareShrinks(tf as real, Spread(length, average), Spread(longer, average));
    ProductOrder(Share(tf as real, Spread(longer, average)), Share(tf as real, Spread(length, average)), Idf(ln, n, df));
  }

  /** One occurrence in a document of average length gets the weight itself; in an
      empty one it would get 22/13 of it. */
  lemma AverageDocument(ln: real -> real, n: nat, df: nat, total: nat, length: nat)
    requires n > 0 && total > 0
    ensures length * n == total ==> Bm25(ln, n, df, total, 1, length) == Idf(ln, n, df)
    ensures length == 0 ==> Bm25(ln, n, df, total, 1, length) == Idf(ln, n, df) * (22.0 / 13.0)
  {
    Bm25Spread(ln, n, df, total, 1, length);
    hide *;
    if length * n == total { AverageSpread(n, total, length); }
    if length == 0 { EmptySpread((total as real) / (n as real)); }
  }

  function Share(tf: real, spread: real): real
    requires tf > 0.0 && spread > 0.0
  {
    tf * 2.2 / (tf + spread)
  }

  lemma ShareGrows(tf: real, more: real, x: real)
    requires 0.0 < tf < more && 0.0 < x
    ensures Share(tf, x) < Share(more, x)
  {
    ProductOrder(tf, more, x);
    assert (tf * 2.2) * (more + x) == 2.2 * (tf * more) + 2.2 * (tf * x);
    assert (more * 2.2) * (tf + x) == 2.2 * (tf * more) + 2.2 * (more * x);
    DivideOrder(tf * 2.2, more * 2.2, tf + x, more + x);
  }

  lemma ShareShrinks(tf: real, x: real, y: real)
    requires 0.0 < tf && 0.0 < x < y
    ensures Share(tf, y) < Share(tf, x)
  {
    var p := tf * 2.2;
    ProductOrder(tf + x, tf + y, p);
    assert p * (tf + x) == (tf + x) * p && p * (tf + y) == (tf + y) * p;
    DivideOrder(p, p, tf + y, tf + x);
  }

  lemma Bm25Spread(ln: real -> real, n: nat, df: nat, total: nat, tf: nat, length: nat)
    requires n > 0 && total > 0 && tf > 0
    ensures (total as real) / (n as real) > 0.0 && Spread(length, (total as real) / (n as real)) > 0.0
    ensures Bm25(ln, n, df, total, tf, length) == Idf(ln, n, df) * Share(tf as real, Spread(length, (total as real) / (n as real)))
  {
    hide Idf;
    LengthRatio(n, total, tf, length);
    SpreadGrows(length, length + 1, (total as real) / (n as real));
  }

  lemma AverageSpread(n: nat, total: nat, length: nat)
    requires n > 0 && total > 0 && length * n == total && (total as real) / (n as real) > 0.0
    ensures Spread(length, (total as real) / (n as real)) == 1.2 && Share(1.0, 1.2) == 1.0
  {
    assert (length as real) * (n as real) == total as real;
    assert (total as real) / (n as real) == length as real;
    assert 0.75 * (length as real) / (length as real) == 0.75;
  }

  lemma EmptySpread(average: real)
    requires average > 0.0
    ensures Spread(0, average) == 0.3 && Share(1.0, 0.3) == 22.0 / 13.0
  {
    assert 0.75 * (0 as real) / average == 0.0;
  }

  /** What a document's length adds to the denominator. */
  function Spread(length: nat, average: real): real
    requires average > 0.0
  {
    1.2 * (1.0 - 0.75 + 0.75 * (length as real) / average)
  }

  lemma SpreadGrows(length: nat, longer: nat, average: real)
    requires average > 0.0 && length < longer
    ensures 0.0 < Spread(length, average) < Spread(longer, average)
  {
    DivideOrder(0.75 * (length as real), 0.75 * (longer as real), average, average) by {
      ProductOrder(0.75 * (length as real), 0.75 * (longer as real), average);
    }
    if length > 0 {
      DivideOrder(0.0, 0.75 * (length as real), 1.0, average);
    }
  }

  /** The scores of the words of a clause, each as a clause of its own. */
  ghost function WordScores(e: Engine, lists: seq<seq<string>>, words: seq<string>, terms: seq<string>): real {
    if words == [] then 0.0
    else WordScores(e, lists, words[..|words| - 1], terms) + ClauseScore(e, lists, Clause([words[|words| - 1]], false, false), terms)
  }

  lemma {:induction false} WordsSumUp(e: Engine, lists: seq<seq<string>>, words: seq<string>, terms: seq<string>)
    ensures SumScores(e, lists, words, terms) == WordScores(e, lists, words, terms)
  {
    hide TermScore;
    if words != [] {
      var last := words[|words| - 1];
      WordsSumUp(e, lists, words[..|words| - 1], terms);
      assert [last][..0] == [] && [last][0] == last;
      assert SumScores(e, lists, [last], terms) == TermScore(e, lists, last, terms);
    }
  }

  /** A phrase scores twice its words, and a prefix all the words it expands to. */
  lemma PhraseScoresTwice(e: Engine, lists: seq<seq<string>>, words: seq<string>, terms: seq<string>)
    requires words != []
    ensures ClauseScore(e, lists, Clause(words, true, false), terms) == 2.0 * WordScores(e, lists, words, terms)
    ensures ClauseScore(e, lists, Clause([words[0]], false, true), terms) == WordScores(e, lists, Expansion(lists, words[0]), terms)
  {
    hide Expansion;
    WordsSumUp(e, lists, words, terms);
    WordsSumUp(e, lists, Expansion(lists, words[0]), terms);
  }

  /** A query scores the sum of its clauses. */
  lemma {:induction false} ClausesSumUp(e: Engine, lists: seq<seq<string>>, a: seq<Clause>, b: seq<Clause>, terms: seq<string>)
    ensures QueryScore(e, lists, a + b, terms) == QueryScore(e, lists, a, terms) + QueryScore(e, lists, b, terms)
  {
    hide ClauseScore;
    if b == [] {
      assert a + b == a;
    } else {
      assert (a + b)[..|a + b| - 1] == a + b[..|b| - 1];
      ClausesSumUp(e, lists, a, b[..|b| - 1], terms);
    }
  }
}
