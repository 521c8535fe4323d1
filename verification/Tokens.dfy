/** Tokenising text and parsing search queries (history/search.go). */
module Tokens {
  import opened Basics

  /** The Unicode tables the source consults. */
  datatype Alphabet = Alphabet(isWord: char -> bool, isSpace: char -> bool, lower: char -> char) {
    /** What those tables satisfy: lower-casing keeps word characters and is idempotent, and the
        query punctuation is neither part of words nor (but for the blank) white space. */
    ghost predicate Lawful() {
      && (forall c :: isWord(c) ==> isWord(lower(c)) && !isSpace(c))
      && (forall c :: isWord(c) ==> lower(lower(c)) == lower(c))
      && !isWord('"') && !isWord('*') && !isWord(' ')
      && isSpace(' ') && !isSpace('"') && !isSpace('*')
    }
  }

  // ----- Tokens -----

  datatype Token = Token(term: string, position: nat)

  function LowerAll(ab: Alphabet, word: string): (r: string)
    ensures |r| == |word|
    ensures forall i | 0 <= i < |r| :: r[i] == ab.lower(word[i])
  {
    seq(|word|, i requires 0 <= i < |word| => ab.lower(word[i]))
  }

  function Flush(ab: Alphabet, word: string): seq<string> {
    if word == [] then [] else [LowerAll(ab, word)]
  }

  /** The terms of text when word has been collected just before it. */
  function TermsAfter(ab: Alphabet, word: string, text: string): seq<string>
    decreases |text|
  {
    if text == [] then Flush(ab, word)
    else if ab.isWord(text[0]) then TermsAfter(ab, word + [ab.lower(text[0])], text[1..])
    else Flush(ab, word) + TermsAfter(ab, [], text[1..])
  }

  function Terms(ab: Alphabet, text: string): seq<string> {
    TermsAfter(ab, [], text)
  }

  function Numbered(terms: seq<string>): seq<Token> {
    seq(|terms|, i requires 0 <= i < |terms| => Token(terms[i], i))
  }

  /** The source's loop: tokens carry consecutive positions. */
  method Tokenize(ab: Alphabet, text: string) returns (tokens: seq<Token>)
    ensures tokens == Numbered(Terms(ab, text))
    ensures |tokens| == |Terms(ab, text)| && forall i | 0 <= i < |tokens| :: tokens[i].term == Terms(ab, text)[i] && tokens[i].position == i
  {
    tokens := [];
    var word: string := [];
    ghost var done: seq<string> := [];
    for i := 0 to |text|
      invariant tokens == Numbered(done) && done + TermsAfter(ab, word, text[i..]) == Terms(ab, text)
    {
      assert text[i..][0] == text[i] && text[i..][1..] == text[i + 1..];
      if ab.isWord(text[i]) {
        word := word + [ab.lower(text[i])];
      } else {
        if word != [] {
          tokens := tokens + [Token(LowerAll(ab, word), |tokens|)];
          assert done + (Flush(ab, word) + TermsAfter(ab, [], text[i + 1..])) == (done + [LowerAll(ab, word)]) + TermsAfter(ab, [], text[i + 1..]);
          done := done + [LowerAll(ab, word)];
        }
        word := [];
      }
    }
    assert text[|text|..] == [];
    if word != [] {
      tokens := tokens + [Token(LowerAll(ab, word), |tokens|)];
    }
  }

  // ----- What the terms of a text are -----

  /** Only word characters, in any case. */
  predicate AllWord(ab: Alphabet, run: string) {
    forall i | 0 <= i < |run| :: ab.isWord(run[i])
  }

  predicate NoWord(ab: Alphabet, gap: string) {
    forall i | 0 <= i < |gap| :: !ab.isWord(gap[i])
  }

  /** Word characters, in whatever case, add their lower-casing to the word collected so far, up to the first
      character that is not one. */
  lemma {:induction false} RunIsCollected(ab: Alphabet, word: string, run: string, rest: string)
    requires ab.Lawful() && (word == [] || IsTerm(ab, word)) && AllWord(ab, run) && word + run != []
    requires rest == [] || !ab.isWord(rest[0])
    ensures TermsAfter(ab, word, run + rest) == [word + LowerAll(ab, run)] + (if rest == [] then [] else TermsAfter(ab, [], rest[1..]))
    decreases |run|
  {
    hide TermsAfter, LowerAll, IsTerm;
    if run == [] {
      assert run + rest == rest;
      NothingLowered(ab, word);
      TermsEnd(ab, word, rest);
    } else {
      var all, longer := run + rest, word + [ab.lower(run[0])];
      assert all[0] == run[0] && all[1..] == run[1..] + rest;
      TermsGoOn(ab, word, all);
      OneMore(ab, word, run);
      RunIsCollected(ab, longer, run[1..], rest);
    }
  }

  lemma NothingLowered(ab: Alphabet, word: string)
    requires IsTerm(ab, word)
    ensures LowerAll(ab, word) == word && word + LowerAll(ab, "") == word
  {
  }

  lemma OneMore(ab: Alphabet, word: string, run: string)
    requires ab.Lawful() && (word == [] || IsTerm(ab, word)) && run != [] && ab.isWord(run[0])
    ensures IsTerm(ab, word + [ab.lower(run[0])])
    ensures (word + [ab.lower(run[0])]) + LowerAll(ab, run[1..]) == word + LowerAll(ab, run)
  {
  }

  lemma TermsGoOn(ab: Alphabet, word: string, text: string)
    requires text != [] && ab.isWord(text[0])
    ensures TermsAfter(ab, word, text) == TermsAfter(ab, word + [ab.lower(text[0])], text[1..])
  {
  }

  lemma TermsEnd(ab: Alphabet, word: string, text: string)
    requires word != [] && (text == [] || !ab.isWord(text[0]))
    ensures TermsAfter(ab, word, text) == [LowerAll(ab, word)] + (if text == [] then [] else TermsAfter(ab, [], text[1..]))
  {
    hide LowerAll;
  }

  lemma {:induction false} GapIsSkipped(ab: Alphabet, gap: string, text: string)
    requires NoWord(ab, gap)
    ensures Terms(ab, gap + text) == Terms(ab, text)
    decreases |gap|
  {
    if gap == [] {
      assert gap + text == text;
    } else {
      assert (gap + text)[0] == gap[0] && (gap + text)[1..] == gap[1..] + text;
      GapIsSkipped(ab, gap[1..], text);
    }
  }

  /** A text is gaps and runs: whatever its case, each maximal run of word characters gives exactly one
      term, its lower-casing, and nothing else gives any. */
  lemma TermsByRuns(ab: Alphabet, gap: string, run: string, rest: string)
    requires ab.Lawful() && NoWord(ab, gap) && AllWord(ab, run) && run != [] && (rest == [] || !ab.isWord(rest[0]))
    ensures Terms(ab, gap) == []
    ensures Terms(ab, gap + (run + rest)) == [LowerAll(ab, run)] + Terms(ab, rest)
  {
    GapIsSkipped(ab, gap, "");
    assert gap + "" == gap;
    GapIsSkipped(ab, gap, run + rest);
    RunIsCollected(ab, "", run, rest);
    assert "" + LowerAll(ab, run) == LowerAll(ab, run);
  }

  /** The text is a single run between gaps. */
  predicate OneRun(ab: Alphabet, text: string, a: nat, b: nat) {
    a < b <= |text| && NoWord(ab, text[..a]) && AllWord(ab, text[a..b]) && NoWord(ab, text[b..])
  }

  /** The first maximal run of a text that has one. */
  lemma FirstRun(ab: Alphabet, text: string) returns (a: nat, b: nat)
    requires !NoWord(ab, text)
    ensures a < b <= |text| && NoWord(ab, text[..a]) && AllWord(ab, text[a..b]) && (b < |text| ==> !ab.isWord(text[b]))
  {
    a := 0;
    while !ab.isWord(text[a])
      invariant a < |text| && (forall i | 0 <= i < a :: !ab.isWord(text[i])) && exists i :: a <= i < |text| && ab.isWord(text[i])
      decreases |text| - a
    {
      a := a + 1;
    }
    b := a + 1;
    while b < |text| && ab.isWord(text[b])
      invariant a < b <= |text| && forall i | a <= i < b :: ab.isWord(text[i])
    {
      b := b + 1;
    }
  }

  /** A text has no term exactly when it has no word character, and one exactly when it is one run. */
  lemma TermCount(ab: Alphabet, text: string)
    requires ab.Lawful()
    ensures Terms(ab, text) == [] <==> NoWord(ab, text)
    ensures |Terms(ab, text)| == 1 <==> exists a: nat, b: nat :: OneRun(ab, text, a, b)
    ensures forall a: nat, b: nat | OneRun(ab, text, a, b) :: Terms(ab, text) == [LowerAll(ab, text[a..b])]
  {
    hide Terms, NoWord, AllWord;
    NoTerms(ab);
    forall a: nat, b: nat | OneRun(ab, text, a, b) ensures Terms(ab, text) == [LowerAll(ab, text[a..b])] {
      RunGivesTerm(ab, text, a, b);
    }
    if NoWord(ab, text) {
      GapIsSkipped(ab, text, "");
      assert text + "" == text;
    } else {
      var a, b := FirstRun(ab, text);
      assert text == text[..a] + (text[a..b] + text[b..]);
      TermsByRuns(ab, text[..a], text[a..b], text[b..]);
      if NoWord(ab, text[b..]) {
        assert OneRun(ab, text, a, b);
      } else {
        var c, d := FirstRun(ab, text[b..]);
        assert text[b..] == text[b..][..c] + (text[b..][c..d] + text[b..][d..]);
        TermsByRuns(ab, text[b..][..c], text[b..][c..d], text[b..][d..]);
      }
    }
  }

  lemma NoTerms(ab: Alphabet)
    ensures Terms(ab, "") == []
  {
  }

  lemma RunGivesTerm(ab: Alphabet, text: string, a: nat, b: nat)
    requires ab.Lawful() && OneRun(ab, text, a, b)
    ensures Terms(ab, text) == [LowerAll(ab, text[a..b])]
  {
    assert text == text[..a] + (text[a..b] + text[b..]);
    TermsByRuns(ab, text[..a], text[a..b], text[b..]);
    GapIsSkipped(ab, text[b..], "");
    assert text[b..] + "" == text[b..];
  }

  predicate IsTerm(ab: Alphabet, term: string) {
    term != [] && forall i | 0 <= i < |term| :: ab.isWord(term[i]) && ab.lower(term[i]) == term[i]
  }

  lemma {:induction false} TermsAreTerms(ab: Alphabet, word: string, text: string)
    requires ab.Lawful() && (word == [] || IsTerm(ab, word))
    ensures forall t | t in TermsAfter(ab, word, text) :: IsTerm(ab, t)
    decreases |text|
  {
    if text != [] {
      if ab.isWord(text[0]) {
        TermsAreTerms(ab, word + [ab.lower(text[0])], text[1..]);
      } else {
        TermsAreTerms(ab, [], text[1..]);
      }
    }
  }

  /** A term reads back as itself, up to the first character that is not part of a word. */
  lemma TermReadsBack(ab: Alphabet, word: string, term: string, rest: string)
    requires ab.Lawful() && (term == [] || IsTerm(ab, term)) && (word == [] || IsTerm(ab, word)) && word + term != []
    requires rest == [] || !ab.isWord(rest[0])
    ensures TermsAfter(ab, word, term + rest) == [word + term] + (if rest == [] then [] else TermsAfter(ab, [], rest[1..]))
  {
    RunIsCollected(ab, word, term, rest);
    assert LowerAll(ab, term) == term;
  }

  // ----- Clauses -----

  datatype Clause = Clause(terms: seq<string>, phrase: bool, prefix: bool)

  datatype ParseError = MissingQuote | EmptyPhrase | InvalidTerm | ShortPrefix

  /** The clauses a user can express. */
  predicate WellFormed(ab: Alphabet, c: Clause) {
    && c.terms != [] && (forall i | 0 <= i < |c.terms| :: IsTerm(ab, c.terms[i]))
    && (!c.phrase ==> |c.terms| == 1)
    && (c.prefix ==> !c.phrase && |c.terms[0]| >= 2)
  }

  /** The index of the first character satisfying p, or the length. */
  function IndexOf(text: string, p: char -> bool): (i: nat)
    ensures i <= |text|
    ensures forall j | 0 <= j < i :: !p(text[j])
    ensures i < |text| ==> p(text[i])
  {
    if text == [] || p(text[0]) then 0 else 1 + IndexOf(text[1..], p)
  }

  function TrimLeft(ab: Alphabet, text: string): string {
    text[IndexOf(text, (c: char) => !ab.isSpace(c))..]
  }

  function TrimRight(ab: Alphabet, text: string): string {
    if text != [] && ab.isSpace(text[|text| - 1]) then TrimRight(ab, text[..|text| - 1]) else text
  }

  /** One clause off the front of text that does not start with white space, and what is left. */
  function NextClause(ab: Alphabet, text: string): (r: Result<(Clause, string), ParseError>)
    requires text != []
    ensures r.Ok? ==> |r.value.1| < |text|
  {
    if text[0] == '"' then
      var end := IndexOf(text[1..], (c: char) => c == '"');
      if end == |text| - 1 then Err(MissingQuote)
      else
        var terms := Terms(ab, text[1..end + 1]);
        if terms == [] then Err(EmptyPhrase) else Ok((Clause(terms, true, false), text[end + 2..]))
    else
      var end := IndexOf(text, ab.isSpace);
      var starred := end > 0 && text[end - 1] == '*';
      var terms := Terms(ab, if starred then text[..end - 1] else text[..end]);
      if |terms| != 1 then Err(InvalidTerm)
      else if starred && |terms[0]| < 2 then Err(ShortPrefix)
      else Ok((Clause(terms, false, starred), text[end..]))
  }

  /** Where an unquoted word ends: at the first white space, or with the text. */
  predicate WordEnds(ab: Alphabet, text: string, end: nat) {
    end <= |text| && (forall i | 0 <= i < end :: !ab.isSpace(text[i])) && (end < |text| ==> ab.isSpace(text[end]))
  }

  /** The word without the star of a prefix. */
  function Bare(word: string): string {
    if word != [] && word[|word| - 1] == '*' then word[..|word| - 1] else word
  }

  /** Which quoted clauses are refused, and why: those that are not closed, and those without a word
      character up to the closing quote. */
  lemma QuotedRefusedIff(ab: Alphabet, text: string)
    requires ab.Lawful() && text != [] && text[0] == '"'
    ensures NextClause(ab, text) == Err(MissingQuote) <==> forall i | 1 <= i < |text| :: text[i] != '"'
    ensures NextClause(ab, text) == Err(EmptyPhrase) <==>
              exists end: nat :: ClosesAt(text, end) && NoWord(ab, text[1..end])
    ensures NextClause(ab, text).Err? ==> NextClause(ab, text).error in {MissingQuote, EmptyPhrase}
  {
    var end := IndexOf(text[1..], (c: char) => c == '"');
    if end < |text| - 1 {
      TermCount(ab, text[1..end + 1]);
      assert ClosesAt(text, end + 1) by {
        forall i | 1 <= i < end + 1 ensures text[i] != '"' { assert text[1..][i - 1] == text[i]; }
        assert text[1..][end] == text[end + 1];
      }
      assert forall e: nat :: ClosesAt(text, e) ==> e == end + 1;
    } else {
      forall i | 1 <= i < |text| ensures text[i] != '"' { assert text[1..][i - 1] == text[i]; }
    }
  }

  /** The first closing quote. */
  predicate ClosesAt(text: string, end: nat) {
    1 <= end < |text| && text[end] == '"' && forall i | 1 <= i < end :: text[i] != '"'
  }

  /** The next clause of text that starts with a word. */
  lemma NextWord(ab: Alphabet, text: string, end: nat)
    requires text != [] && text[0] != '"' && WordEnds(ab, text, end)
    ensures var word := text[..end];
            var terms := Terms(ab, Bare(word));
            NextClause(ab, text) == if |terms| != 1 then Err(InvalidTerm)
              else if word != Bare(word) && |terms[0]| < 2 then Err(ShortPrefix)
              else Ok((Clause(terms, false, word != Bare(word)), text[end..]))
  {
    hide Terms;
    IndexOfFirst(text, ab.isSpace, end);
    assert Bare(text[..end]) == (if end > 0 && text[end - 1] == '*' then text[..end - 1] else text[..end]);
  }

  /** Which unquoted words are refused, and why: those that, but for the star of a prefix, are not one run
      of word characters between others, and prefixes of less than two characters. */
  lemma WordRefusedIff(ab: Alphabet, text: string, end: nat)
    requires ab.Lawful() && text != [] && text[0] != '"' && WordEnds(ab, text, end)
    ensures var word := text[..end];
            && (NextClause(ab, text) == Err(InvalidTerm) <==> forall a: nat, b: nat :: !OneRun(ab, Bare(word), a, b))
            && (NextClause(ab, text) == Err(ShortPrefix) <==>
                  word != Bare(word) && exists a: nat, b: nat :: OneRun(ab, Bare(word), a, b) && b - a < 2)
    ensures NextClause(ab, text).Err? ==> NextClause(ab, text).error in {InvalidTerm, ShortPrefix}
  {
    hide Terms, NextClause;
    var word := text[..end];
    NextWord(ab, text, end);
    TermCount(ab, Bare(word));
    if a: nat, b: nat :| OneRun(ab, Bare(word), a, b) {
      assert |Terms(ab, Bare(word))[0]| == b - a;
    }
  }

  function ParseFrom(ab: Alphabet, text: string): Result<seq<Clause>, ParseError>
    decreases |text|
  {
    var text := TrimLeft(ab, text);
    if text == [] then Ok([])
    else
      var next := NextClause(ab, text);
      if next.Err? then Err(next.error)
      else
        var rest := ParseFrom(ab, next.value.1);
        if rest.Err? then Err(rest.error) else Ok([next.value.0] + rest.value)
  }

  function Parse(ab: Alphabet, text: string): Result<seq<Clause>, ParseError> {
    ParseFrom(ab, TrimRight(ab, TrimLeft(ab, text)))
  }

  /** The body of the source's loop: read one clause and advance. */
  method ReadClause(ab: Alphabet, text: string) returns (r: Result<(Clause, string), ParseError>)
    requires text != []
    ensures r == NextClause(ab, text)
  {
    if text[0] == '"' {
      var end := IndexOf(text[1..], (c: char) => c == '"');
      if end == |text| - 1 { return Err(MissingQuote); }
      var values := Tokenize(ab, text[1..end + 1]);
      if |values| == 0 { return Err(EmptyPhrase); }
      var terms := seq(|values|, i requires 0 <= i < |values| => values[i].term);
      assert terms == Terms(ab, text[1..end + 1]);
      return Ok((Clause(terms, true, false), text[end + 2..]));
    }
    var end := IndexOf(text, ab.isSpace);
    var word := text[..end];
    var prefix := |word| > 0 && word[|word| - 1] == '*';
    if prefix { word := word[..|word| - 1]; }
    assert word == if prefix then text[..end - 1] else text[..end];
    var values := Tokenize(ab, word);
    if |values| != 1 { return Err(InvalidTerm); }
    if prefix && |values[0].term| < 2 { return Err(ShortPrefix); }
    assert [values[0].term] == Terms(ab, word);
    r := Ok((Clause([values[0].term], false, prefix), text[end..]));
  }

  /** The source's loop over the remaining text; it ends because every round consumes some. */
  method ParseSearchQuery(ab: Alphabet, query: string) returns (r: Result<seq<Clause>, ParseError>)
    ensures r == Parse(ab, query)
  {
    hide ParseFrom, NextClause, TrimLeft, TrimRight;
    var text := TrimRight(ab, TrimLeft(ab, query));
    var clauses: seq<Clause> := [];
    assert ParseFrom(ab, text).Ok? ==> [] + ParseFrom(ab, text).value == ParseFrom(ab, text).value;
    while |text| > 0
      invariant Parse(ab, query) == Prepend(clauses, ParseFrom(ab, text))
      decreases |text|
    {
      ParseFromUnfolds(ab, text);
      var trimmed := TrimLeft(ab, text);
      if trimmed == [] {
        assert clauses + [] == clauses;
        return Ok(clauses);
      }
      TrimLeftShrinks(ab, text);
      var next := ReadClause(ab, trimmed);
      if next.Err? { return Err(next.error); }
      var (clause, rest) := next.value;
      PrependAssociates(clauses, clause, ParseFrom(ab, rest));
      clauses, text := clauses + [clause], rest;
    }
    assert clauses + [] == clauses;
    ParseFromUnfolds(ab, text);
    TrimLeftShrinks(ab, text);
    r := Ok(clauses);
  }

  lemma TrimLeftShrinks(ab: Alphabet, text: string)
    ensures |TrimLeft(ab, text)| <= |text|
  {
  }

  lemma ParseFromUnfolds(ab: Alphabet, text: string)
    ensures var trimmed := TrimLeft(ab, text);
            ParseFrom(ab, text)
            == if trimmed == [] then Ok([])
               else if NextClause(ab, trimmed).Err? then Err(NextClause(ab, trimmed).error)
               else Prepend([NextClause(ab, trimmed).value.0], ParseFrom(ab, NextClause(ab, trimmed).value.1))
  {
  }

  function Prepend(clauses: seq<Clause>, rest: Result<seq<Clause>, ParseError>): Result<seq<Clause>, ParseError> {
    if rest.Err? then rest else Ok(clauses + rest.value)
  }

  lemma PrependAssociates(clauses: seq<Clause>, c: Clause, rest: Result<seq<Clause>, ParseError>)
    ensures Prepend(clauses, Prepend([c], rest)) == Prepend(clauses + [c], rest)
  {
    if rest.Ok? { assert clauses + ([c] + rest.value) == (clauses + [c]) + rest.value; }
  }

  // ----- Printing and reading back -----

  function Joined(terms: seq<string>): string {
    if terms == [] then ""
    else if |terms| == 1 then terms[0]
    else terms[0] + " " + Joined(terms[1..])
  }

  function Print(c: Clause): string {
    if c.phrase then "\"" + Joined(c.terms) + "\""
    else if c.terms == [] then ""
    else c.terms[0] + if c.prefix then "*" else ""
  }

  function PrintAll(clauses: seq<Clause>): string {
    if clauses == [] then ""
    else if |clauses| == 1 then Print(clauses[0])
    else Print(clauses[0]) + " " + PrintAll(clauses[1..])
  }

  /** Joining terms with blanks and tokenising gives the terms back. */
  lemma {:induction false} JoinedReadsBack(ab: Alphabet, terms: seq<string>)
    requires ab.Lawful() && forall i | 0 <= i < |terms| :: IsTerm(ab, terms[i])
    ensures Terms(ab, Joined(terms)) == terms
  {
    if |terms| == 1 {
      TermReadsBack(ab, "", terms[0], "");
      assert terms[0] + "" == terms[0] && "" + terms[0] == terms[0];
    } else if |terms| > 1 {
      JoinedReadsBack(ab, terms[1..]);
      var rest := " " + Joined(terms[1..]);
      assert rest[0] == ' ' && rest[1..] == Joined(terms[1..]);
      TermReadsBack(ab, "", terms[0], rest);
      assert Joined(terms) == terms[0] + rest && "" + terms[0] == terms[0];
    }
  }

  lemma {:induction false} JoinedHasNoQuote(ab: Alphabet, terms: seq<string>)
    requires ab.Lawful() && forall i | 0 <= i < |terms| :: IsTerm(ab, terms[i])
    ensures forall i | 0 <= i < |Joined(terms)| :: Joined(terms)[i] != '"'
  {
    if |terms| > 1 { JoinedHasNoQuote(ab, terms[1..]); }
  }

  lemma {:induction false} IndexOfFirst(text: string, p: char -> bool, n: nat)
    requires n <= |text| && (forall i | 0 <= i < n :: !p(text[i])) && (n < |text| ==> p(text[n]))
    ensures IndexOf(text, p) == n
  {
    if n > 0 { IndexOfFirst(text[1..], p, n - 1); }
  }

  /** A printed clause followed by nothing or by a blank reads back as that clause. */
  lemma PrintedClauseReadsBack(ab: Alphabet, c: Clause, rest: string)
    requires ab.Lawful() && WellFormed(ab, c) && (rest == [] || rest[0] == ' ')
    ensures Print(c) != [] && !ab.isSpace(Print(c)[0]) && !ab.isSpace(Print(c)[|Print(c)| - 1])
    ensures NextClause(ab, Print(c) + rest) == Ok((c, rest))
  {
    if c.phrase { PrintedPhraseReadsBack(ab, c, rest); } else { PrintedWordReadsBack(ab, c, rest); }
  }

  lemma PrintedPhraseReadsBack(ab: Alphabet, c: Clause, rest: string)
    requires ab.Lawful() && WellFormed(ab, c) && c.phrase
    ensures Print(c) != [] && !ab.isSpace(Print(c)[0]) && !ab.isSpace(Print(c)[|Print(c)| - 1])
    ensures NextClause(ab, Print(c) + rest) == Ok((c, rest))
  {
    hide Terms, Joined;
    var text, body := Print(c) + rest, Joined(c.terms);
    JoinedReadsBack(ab, c.terms);
    JoinedHasNoQuote(ab, c.terms);
    assert text[1..] == body + "\"" + rest;
    IndexOfFirst(text[1..], (ch: char) => ch == '"', |body|);
    assert text[1..|body| + 1] == body && text[|body| + 2..] == rest;
  }

  lemma PrintedWordReadsBack(ab: Alphabet, c: Clause, rest: string)
    requires ab.Lawful() && WellFormed(ab, c) && !c.phrase && (rest == [] || rest[0] == ' ')
    ensures Print(c) != [] && !ab.isSpace(Print(c)[0]) && !ab.isSpace(Print(c)[|Print(c)| - 1])
    ensures NextClause(ab, Print(c) + rest) == Ok((c, rest))
  {
    var term := c.terms[0];
    assert c.terms == [term] && Print(c) == term + if c.prefix then "*" else "";
    assert IsTerm(ab, term);
    assert Terms(ab, term) == [term] by {
      TermReadsBack(ab, "", term, "");
      assert term + "" == term && "" + term == term;
    }
    hide Terms, NextClause, IsTerm, Print, WellFormed;
    PrintedWordEnds(ab, term, c.prefix, rest);
    NextWord(ab, Print(c) + rest, |Print(c)|);
    assert (Print(c) + rest)[..|Print(c)|] == Print(c) && (Print(c) + rest)[|Print(c)|..] == rest;
  }

  lemma PrintedWordEnds(ab: Alphabet, term: string, prefix: bool, rest: string)
    requires ab.Lawful() && IsTerm(ab, term) && (rest == [] || rest[0] == ' ')
    ensures var word := term + if prefix then "*" else "";
            && !ab.isSpace(word[0]) && !ab.isSpace(word[|word| - 1]) && word[0] != '"'
            && WordEnds(ab, word + rest, |word|) && Bare(word) == term && (word == term <==> !prefix)
  {
    var word := term + if prefix then "*" else "";
    assert ab.isWord(term[|term| - 1]) && ab.isWord(term[0]);
    forall i | 0 <= i < |word| ensures !ab.isSpace((word + rest)[i]) {
      if i < |term| { assert word[i] == term[i] && ab.isWord(term[i]); }
    }
  }

  lemma TrimLeftNothing(ab: Alphabet, text: string)
    requires text == [] || !ab.isSpace(text[0])
    ensures TrimLeft(ab, text) == text
  {
  }

  lemma ParseFromStep(ab: Alphabet, text: string, c: Clause, rest: string)
    requires text != [] && !ab.isSpace(text[0]) && NextClause(ab, text) == Ok((c, rest))
    ensures ParseFrom(ab, text) == Prepend([c], ParseFrom(ab, rest))
  {
    TrimLeftNothing(ab, text);
  }

  lemma LeadingBlank(ab: Alphabet, text: string)
    requires ab.isSpace(' ') && (text == [] || !ab.isSpace(text[0]))
    ensures ParseFrom(ab, " " + text) == ParseFrom(ab, text)
  {
    var padded := " " + text;
    IndexOfFirst(padded, (c: char) => !ab.isSpace(c), 1);
    assert TrimLeft(ab, padded) == text;
    TrimLeftNothing(ab, text);
  }

  lemma NothingParses(ab: Alphabet)
    ensures ParseFrom(ab, "") == Ok([])
  {
  }

  /** text neither starts nor ends with white space. */
  predicate Trimmed(ab: Alphabet, text: string) {
    text != [] ==> !ab.isSpace(text[0]) && !ab.isSpace(text[|text| - 1])
  }

  lemma {:induction false} PrintedReadsBack(ab: Alphabet, clauses: seq<Clause>)
    requires ab.Lawful() && forall i | 0 <= i < |clauses| :: WellFormed(ab, clauses[i])
    ensures ParseFrom(ab, PrintAll(clauses)) == Ok(clauses)
    ensures Trimmed(ab, PrintAll(clauses)) && (clauses != [] ==> PrintAll(clauses) != [])
  {
    hide NextClause, Print, IsTerm, WellFormed, TrimLeft;
    if clauses == [] {
      NothingParses(ab);
    } else if |clauses| == 1 {
      var c := clauses[0];
      NothingParses(ab);
      PrintedClauseReadsBack(ab, c, "");
      assert Print(c) + "" == Print(c) && [c] + [] == clauses;
      ParseFromStep(ab, Print(c), c, "");
    } else {
      var c, more := clauses[0], clauses[1..];
      var rest := " " + PrintAll(more);
      PrintedClauseReadsBack(ab, c, rest);
      PrintedReadsBack(ab, more);
      LeadingBlank(ab, PrintAll(more));
      assert PrintAll(clauses) == Print(c) + rest && [c] + more == clauses;
      ParseFromStep(ab, Print(c) + rest, c, rest);
    }
  }

  /** Parsing the printed form of any list of clauses gives that list back. */
  lemma ParsePrint(ab: Alphabet, clauses: seq<Clause>)
    requires ab.Lawful() && forall i | 0 <= i < |clauses| :: WellFormed(ab, clauses[i])
    ensures Parse(ab, PrintAll(clauses)) == Ok(clauses)
  {
    hide WellFormed, PrintAll, ParseFrom, TrimLeft, TrimRight;
    PrintedReadsBack(ab, clauses);
    TrimLeftNothing(ab, PrintAll(clauses));
    TrimRightNothing(ab, PrintAll(clauses));
  }

  lemma TrimRightNothing(ab: Alphabet, text: string)
    requires text == [] || !ab.isSpace(text[|text| - 1])
    ensures TrimRight(ab, text) == text
  {
  }

  lemma {:induction false} ParseFromWellFormed(ab: Alphabet, text: string)
    requires ab.Lawful() && ParseFrom(ab, text).Ok?
    ensures forall i | 0 <= i < |ParseFrom(ab, text).value| :: WellFormed(ab, ParseFrom(ab, text).value[i])
    decreases |text|
  {
    var trimmed := TrimLeft(ab, text);
    if trimmed != [] {
      var (c, rest) := NextClause(ab, trimmed).value;
      ParseFromWellFormed(ab, rest);
      NextClauseWellFormed(ab, trimmed);
    }
  }

  lemma NextClauseWellFormed(ab: Alphabet, text: string)
    requires ab.Lawful() && text != [] && NextClause(ab, text).Ok?
    ensures WellFormed(ab, NextClause(ab, text).value.0)
  {
    if text[0] == '"' {
      TermsAreTerms(ab, [], text[1..IndexOf(text[1..], (c: char) => c == '"') + 1]);
    } else {
      var end := IndexOf(text, ab.isSpace);
      TermsAreTerms(ab, [], text[..end]);
      if end > 0 { TermsAreTerms(ab, [], text[..end - 1]); }
    }
  }

  /** Whatever parses is a list of well-formed clauses, and printing it loses nothing. */
  lemma ParseIsStable(ab: Alphabet, query: string)
    requires ab.Lawful() && Parse(ab, query).Ok?
    ensures Parse(ab, PrintAll(Parse(ab, query).value)) == Parse(ab, query)
    ensures forall i | 0 <= i < |Parse(ab, query).value| :: WellFormed(ab, Parse(ab, query).value[i])
  {
    ParseFromWellFormed(ab, TrimRight(ab, TrimLeft(ab, query)));
    ParsePrint(ab, Parse(ab, query).value);
  }
}
