/** Layout pieces shared by the formatters. */
module Layout {
  import opened Text

  /** The horizontal rule that frames the long documents: 59 box-drawing characters. */
  const Rule: string := "═══════════════════════════════════════════════════════════"

  /** A piece of text whose character at `k` is `c`. */
  predicate CharAt(s: string, k: nat, c: char)
  {
    k < |s| && s[k] == c
  }

  /** The text a sequence of lines renders to starts with its first line. */
  lemma ConcatFront(lines: seq<string>)
    requires lines != []
    ensures Concat(lines) == lines[0] + Concat(lines[1..])
  {
    ConcatAppend([lines[0]], lines[1..]);
    assert [lines[0]] + lines[1..] == lines;
    assert Concat([lines[0]]) == Concat([]) + lines[0];
  }

  /** A concatenation shows, at an index inside its first line, that line's character. */
  lemma ConcatFrontChar(lines: seq<string>, k: nat)
    requires lines != [] && k < |lines[0]|
    ensures CharAt(Concat(lines), k, lines[0][k])
  {
    ConcatFront(lines);
  }
}
