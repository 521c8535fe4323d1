/** How deeply a JSON text nests. Go's encoding/json refuses texts that nest more than 10000 arrays and
    objects; the canonical encoder has no such limit. */
module JsonNesting {
  import opened Basics

  const MAX_NESTING: nat := 10_000

  /** A scanner over JSON text: the arrays and objects open, the most there were, and whether it is in a
      string or behind a backslash there. */
  datatype Scanner = Scanner(depth: nat, deepest: nat, inString: bool, escaped: bool) {

    function Next(b: bv8): Scanner {
      if escaped then this.(escaped := false)
      else if inString then
        if b == '\\' as bv8 then this.(escaped := true) else if b == '"' as bv8 then this.(inString := false) else this
      else if b == '"' as bv8 then this.(inString := true)
      else if b == '[' as bv8 || b == '{' as bv8 then this.(depth := depth + 1, deepest := Max(deepest, depth + 1))
      else if (b == ']' as bv8 || b == '}' as bv8) && depth > 0 then this.(depth := depth - 1)
      else this
    }
  }

  function ScanText(text: Bytes): Scanner {
    if text == [] then Scanner(0, 0, false, false) else ScanText(text[..|text| - 1]).Next(text[|text| - 1])
  }

  function Nesting(text: Bytes): nat {
    ScanText(text).deepest
  }

  // ----- Nested arrays -----

  const OPEN: bv8 := '[' as bv8
  const CLOSE: bv8 := ']' as bv8

  /** n opening brackets, then m closing ones. */
  function Brackets(n: nat, m: nat): Bytes {
    seq(n, _ => OPEN) + seq(m, _ => CLOSE)
  }

  lemma ScanSnoc(text: Bytes, b: bv8)
    ensures ScanText(text + [b]) == ScanText(text).Next(b)
  {
    assert (text + [b])[..|text|] == text;
  }

  lemma {:induction false} BracketsScan(n: nat, m: nat)
    requires m <= n
    ensures ScanText(Brackets(n, m)) == Scanner(n - m, n, false, false)
  {
    hide ScanText;
    if m > 0 {
      BracketsScan(n, m - 1);
      ScanSnoc(Brackets(n, m - 1), CLOSE);
      assert Brackets(n, m) == Brackets(n, m - 1) + [CLOSE];
    } else if n > 0 {
      BracketsScan(n - 1, 0);
      ScanSnoc(Brackets(n - 1, 0), OPEN);
      assert Brackets(n, 0) == Brackets(n - 1, 0) + [OPEN];
    } else {
      ScanNothing();
      assert Brackets(0, 0) == [];
    }
  }

  lemma ScanNothing()
    ensures ScanText([]) == Scanner(0, 0, false, false)
  {
  }

  function NestedArrays(n: nat): (r: Bytes)
    ensures |r| == 2 * n
  {
    Brackets(n, n)
  }

  lemma NestedArraysNest(n: nat)
    ensures Nesting(NestedArrays(n)) == n
  {
    BracketsScan(n, n);
  }
}
