/** The string operations of Python that the document pipeline relies on. */
module Text {

  /** The code points for which Python's `str.isspace()` holds. */
  predicate IsSpace(c: char)
  {
    c == ' ' || ('\t' <= c <= '\r') || ('\U{1c}' <= c <= '\U{1f}') || c == '\U{85}' || c == '\U{a0}'
    || c == '\U{1680}' || ('\U{2000}' <= c <= '\U{200a}') || c == '\U{2028}' || c == '\U{2029}'
    || c == '\U{202f}' || c == '\U{205f}' || c == '\U{3000}'
  }

  /** A visible ASCII character or a Latin letter with a diacritic: never whitespace. */
  predicate VisibleLatin(c: char)
  {
    ('!' <= c <= '~') || ('\U{c0}' <= c <= '\U{17f}')
  }

  lemma VisibleLatinNotSpace(c: char)
    requires VisibleLatin(c)
    ensures !IsSpace(c)
  {
  }

  /** A string with no whitespace at either end. */
  predicate Trimmed(s: string)
  {
    s == [] || (!IsSpace(s[0]) && !IsSpace(s[|s| - 1]))
  }

  function TrimStart(s: string): (r: string)
    ensures r == [] || !IsSpace(r[0])
    ensures |r| <= |s|
  {
    if s != [] && IsSpace(s[0]) then TrimStart(s[1..]) else s
  }

  function TrimEnd(s: string): (r: string)
    ensures r == [] || !IsSpace(r[|r| - 1])
    ensures |r| <= |s|
  {
    if s != [] && IsSpace(s[|s| - 1]) then TrimEnd(s[..|s| - 1]) else s
  }

  /** What `TrimStart` keeps is a suffix of its input. */
  lemma {:induction false} TrimStartSuffix(s: string)
    ensures TrimStart(s) == s[|s| - |TrimStart(s)|..]
    decreases |s|
  {
    if s != [] && IsSpace(s[0]) {
      TrimStartSuffix(s[1..]);
    }
  }

  /** What `TrimEnd` keeps is a prefix of its input. */
  lemma {:induction false} TrimEndPrefix(s: string)
    ensures TrimEnd(s) == s[..|TrimEnd(s)|]
    decreases |s|
  {
    if s != [] && IsSpace(s[|s| - 1]) {
      TrimEndPrefix(s[..|s| - 1]);
    }
  }

  /** Python's `s.strip()`. */
  function Strip(s: string): string
  {
    TrimEnd(TrimStart(s))
  }

  /** What `strip` leaves has no whitespace at either end. */
  lemma StripIsTrimmed(s: string)
    ensures Trimmed(Strip(s))
  {
    var t := TrimStart(s);
    var r := TrimEnd(t);
    TrimEndPrefix(t);
    if r != [] {
      assert r[0] == t[0];
    }
  }

  /** `strip` leaves a string without surrounding whitespace unchanged. */
  lemma StripOfTrimmed(s: string)
    requires Trimmed(s)
    ensures Strip(s) == s
  {
  }

  /** Stripping twice is stripping once. */
  lemma StripIdempotent(s: string)
    ensures Strip(Strip(s)) == Strip(s)
  {
    StripIsTrimmed(s);
    StripOfTrimmed(Strip(s));
  }

  /** The left strip removes whitespace only. */
  lemma {:induction false} TrimStartDropsSpace(s: string)
    ensures forall k | 0 <= k < |s| - |TrimStart(s)| :: IsSpace(s[k])
    decreases |s|
  {
    if s != [] && IsSpace(s[0]) {
      TrimStartDropsSpace(s[1..]);
      assert forall k | 1 <= k < |s| :: s[k] == s[1..][k - 1];
    }
  }

  /** The right strip removes whitespace only. */
  lemma {:induction false} TrimEndDropsSpace(s: string)
    ensures forall k | |TrimEnd(s)| <= k < |s| :: IsSpace(s[k])
    decreases |s|
  {
    if s != [] && IsSpace(s[|s| - 1]) {
      TrimEndDropsSpace(s[..|s| - 1]);
      assert forall k | 0 <= k < |s| - 1 :: s[k] == s[..|s| - 1][k];
    }
  }

  /**
   * `strip` removes whitespace at the two ends and nothing else: what remains
   * is the piece of the input between a whitespace-only front and a
   * whitespace-only back.
   */
  lemma StripDropsOnlySpace(s: string)
    ensures exists i, j | 0 <= i <= j <= |s| ::
              Strip(s) == s[i..j] && (forall k | 0 <= k < i :: IsSpace(s[k])) && (forall k | j <= k < |s| :: IsSpace(s[k]))
  {
    var t := TrimStart(s);
    var i := |s| - |t|;
    TrimStartSuffix(s);
    TrimStartDropsSpace(s);
    TrimEndPrefix(t);
    TrimEndDropsSpace(t);
    var j := i + |TrimEnd(t)|;
    assert Strip(s) == s[i..j];
    assert forall k | j <= k < |s| :: s[k] == t[k - i];
  }

  /**
   * A text made of leading whitespace, then a piece whose two ends are not
   * whitespace, then anything, still opens with that piece once stripped.
   */
  lemma StripKeepsHead(lead: string, h: string, rest: string)
    requires forall k | 0 <= k < |lead| :: IsSpace(lead[k])
    requires h != [] && !IsSpace(h[0]) && !IsSpace(h[|h| - 1])
    ensures StartsWith(Strip(lead + h + rest), h)
  {
    var s := lead + h + rest;
    var t := TrimStart(s);
    TrimStartSuffix(s);
    TrimStartDropsSpace(s);
    assert s[|lead|] == h[0];
    assert forall k | 0 <= k < |lead| :: s[k] == lead[k];
    assert t == h + rest;
    TrimEndPrefix(t);
    TrimEndDropsSpace(t);
    assert t[|h| - 1] == h[|h| - 1];
    assert |TrimEnd(t)| >= |h|;
    assert TrimEnd(t)[..|h|] == t[..|h|] == h;
  }

  function LowerChar(c: char): char
  {
    if 'A' <= c <= 'Z' then (c as int + 32) as char else c
  }

  function UpperChar(c: char): char
  {
    if 'a' <= c <= 'z' then (c as int - 32) as char else c
  }

  /** `s.lower()`, restricted to ASCII letters. */
  function Lower(s: string): (r: string)
    ensures |r| == |s| && forall k | 0 <= k < |s| :: r[k] == LowerChar(s[k])
  {
    seq(|s|, k requires 0 <= k < |s| => LowerChar(s[k]))
  }

  /** `s.upper()`, restricted to ASCII letters. */
  function Upper(s: string): (r: string)
    ensures |r| == |s| && forall k | 0 <= k < |s| :: r[k] == UpperChar(s[k])
  {
    seq(|s|, k requires 0 <= k < |s| => UpperChar(s[k]))
  }

  /** `s.replace(" ", "_")`: every space becomes an underscore, nothing else moves. */
  function ReplaceSpaces(s: string): (r: string)
    ensures |r| == |s|
    ensures forall k | 0 <= k < |s| :: r[k] == (if s[k] == ' ' then '_' else s[k])
    ensures ' ' !in r
  {
    seq(|s|, k requires 0 <= k < |s| => if s[k] == ' ' then '_' else s[k])
  }

  /** `sep.join(parts)`. */
  function Join(sep: string, parts: seq<string>): string
  {
    if |parts| == 0 then ""
    else if |parts| == 1 then parts[0]
    else parts[0] + sep + Join(sep, parts[1..])
  }

  /** The strings of `parts` one after another (a sequence of `text +=` steps). */
  function Concat(parts: seq<string>): string
  {
    if parts == [] then "" else Concat(parts[..|parts| - 1]) + parts[|parts| - 1]
  }

  lemma {:induction false} ConcatAppend(a: seq<string>, b: seq<string>)
    ensures Concat(a + b) == Concat(a) + Concat(b)
    decreases |b|
  {
    if b == [] {
      assert a + b == a;
    } else {
      var last := b[|b| - 1];
      assert (a + b)[..|a + b| - 1] == a + b[..|b| - 1];
      ConcatAppend(a, b[..|b| - 1]);
    }
  }

  /** Regrouping a three-part concatenation; called where the parts are too large to unfold. */
  lemma AppendAssoc<T>(a: seq<T>, b: seq<T>, c: seq<T>)
    ensures (a + b) + c == a + (b + c)
  {
  }

  /** Regrouping six pieces appended one after another to a text. */
  lemma AppendAssoc6(x: string, a: string, b: string, c: string, d: string, e: string, f: string)
    ensures x + a + b + c + d + e + f == x + (a + b + c + d + e + f)
  {
    AppendAssoc(x, a, b);
    AppendAssoc(x, a + b, c);
    AppendAssoc(x, a + b + c, d);
    AppendAssoc(x, a + b + c + d, e);
    AppendAssoc(x, a + b + c + d + e, f);
  }

  /** A prefix one longer is the prefix extended by the next element. */
  lemma PrefixSnoc<T>(xs: seq<T>, i: nat)
    requires i < |xs|
    ensures xs[..i + 1] == xs[..i] + [xs[i]]
  {
  }

  /** Two appends of one element each are one append of both. */
  lemma SnocTwice<T>(xs: seq<T>, a: T, b: T)
    ensures xs + [a] + [b] == xs + [a, b]
  {
  }

  lemma ConcatSnoc(a: seq<string>, x: string)
    ensures Concat(a + [x]) == Concat(a) + x
  {
    assert (a + [x])[..|a + [x]| - 1] == a;
  }

  /** Python's slice `xs[:n]`. */
  function Take<T>(xs: seq<T>, n: nat): (r: seq<T>)
    ensures |r| <= n && |r| <= |xs|
    ensures |xs| <= n ==> r == xs
    ensures |xs| > n ==> |r| == n
    ensures r == xs[..|r|]
  {
    if |xs| <= n then xs else xs[..n]
  }

  /**
   * `s[:n] + "..."` when `len(s) > n`, else `s`: a free-text field cut to a
   * character budget, with an ellipsis marking the cut.
   */
  function Truncate(s: string, n: nat): (r: string)
    ensures |s| <= n ==> r == s
    ensures |s| > n ==> |r| == n + 3 && r[..n] == s[..n] && r[n..] == "..."
  {
    if |s| > n then s[..n] + "..." else s
  }

  /** Nothing longer than the budget plus the marker survives, and the kept part is the start of the field. */
  lemma TruncateBounded(s: string, n: nat)
    ensures |Truncate(s, n)| <= n + 3
    ensures var k := if |s| <= n then |s| else n; Truncate(s, n)[..k] == s[..k]
  {
  }

  function Spaces(n: nat): (r: string)
    ensures |r| == n && forall k | 0 <= k < n :: r[k] == ' '
  {
    seq(n, k => ' ')
  }

  /** Python's left-aligned field `f"{s:<w}"` for a string `s`. */
  function PadRight(s: string, w: nat): (r: string)
    ensures |r| == if |s| < w then w else |s|
    ensures r[..|s|] == s
    ensures forall k | |s| <= k < |r| :: r[k] == ' '
  {
    if |s| < w then s + Spaces(w - |s|) else s
  }

  /** `t` occurs in `s` starting at position `k`. */
  predicate OccursAt(s: string, t: string, k: int)
  {
    0 <= k <= |s| - |t| && s[k..k + |t|] == t
  }

  /** `t in s` for strings: `t` occurs in `s` as a contiguous piece. */
  predicate Contains(s: string, t: string)
  {
    exists k | 0 <= k <= |s| - |t| :: OccursAt(s, t, k)
  }

  lemma ContainsPiece(a: string, t: string, b: string)
    ensures Contains(a + t + b, t)
  {
    var s := a + t + b;
    assert s[|a|..|a| + |t|] == t;
    assert OccursAt(s, t, |a|);
  }

  /** A piece of a text is still a piece once more text follows. */
  lemma ContainsExtend(s: string, t: string, u: string)
    requires Contains(s, t)
    ensures Contains(s + u, t)
  {
    var k :| 0 <= k <= |s| - |t| && OccursAt(s, t, k);
    assert (s + u)[k..k + |t|] == s[k..k + |t|];
    assert OccursAt(s + u, t, k);
  }

  /** `s.startswith(x)`. */
  predicate StartsWith(s: string, x: string)
  {
    |x| <= |s| && s[..|x|] == x
  }

  /** Appending nothing leaves a text as it is. */
  lemma AppendEmpty(s: string)
    ensures s + "" == s
  {
  }

  /** A text keeps its opening when more text follows. */
  lemma StartsWithExtend(s: string, x: string, u: string)
    requires StartsWith(s, x)
    ensures StartsWith(s + u, x)
  {
    assert (s + u)[..|x|] == s[..|x|];
  }

  /** The last character of a concatenation comes from its last non-empty part. */
  lemma LastOfAppend(x: string, y: string)
    requires x + y != []
    ensures (x + y)[|x + y| - 1] == if y == [] then x[|x| - 1] else y[|y| - 1]
  {
    if y == [] {
      assert x + y == x;
    }
  }

  /** A piece just appended sits at the old end of the text. */
  lemma OccursAtEnd(x: string, t: string)
    ensures OccursAt(x + t, t, |x|)
  {
    assert (x + t)[|x|..|x| + |t|] == t;
  }

  /** A piece keeps its position when more text follows. */
  lemma OccursAtExtend(s: string, t: string, k: int, u: string)
    requires OccursAt(s, t, k)
    ensures OccursAt(s + u, t, k)
  {
    assert (s + u)[k..k + |t|] == s[k..k + |t|];
  }
}
