/** The JavaScript string built-ins the client and the relays rely on, stated over
    `seq<char>`: `trim`, `indexOf`/`includes`, `split`, `join`, `slice`, a
    case-insensitive ASCII search (the `i` flag of a regex literal), and the
    rendering of integers in base 10 and base 36. */
module JsString {

  /** The characters `String.prototype.trim` removes and the regex class `\s`
      matches: ECMAScript's WhiteSpace (tab, VT, FF, space, NBSP, ZWNBSP and the
      Zs category) and LineTerminator (LF, CR, LS, PS). */
  predicate IsSpace(c: char) {
    c == '\t' || c == '\n' || c == '\U{B}' || c == '\U{C}' || c == '\r' || c == ' '
    || c == '\U{A0}' || c == '\U{1680}' || ('\U{2000}' <= c <= '\U{200A}')
    || c == '\U{2028}' || c == '\U{2029}' || c == '\U{202F}' || c == '\U{205F}'
    || c == '\U{3000}' || c == '\U{FEFF}'
  }

  predicate IsBlank(s: string) {
    forall i :: 0 <= i < |s| ==> IsSpace(s[i])
  }

  /** `s.trimStart()`. Its properties are stated by `TrimStartIs` rather
      than as a postcondition, which would be unfolded wherever a trim occurs. */
  function TrimStart(s: string): string {
    if |s| > 0 && IsSpace(s[0]) then TrimStart(s[1..]) else s
  }

  /** `s.trimEnd()`, with its properties in `TrimEndIs`. */
  function TrimEnd(s: string): string {
    if |s| > 0 && IsSpace(s[|s| - 1]) then TrimEnd(s[..|s| - 1]) else s
  }

  /** `trimStart` keeps a suffix that does not start with white space. */
  lemma {:induction false} TrimStartIs(s: string)
    ensures |TrimStart(s)| <= |s| && TrimStart(s) == s[|s| - |TrimStart(s)|..]
    ensures TrimStart(s) == [] || !IsSpace(TrimStart(s)[0])
    decreases |s|
  {
    if |s| > 0 && IsSpace(s[0]) {
      TrimStartIs(s[1..]);
    }
  }

  /** `trimEnd` keeps a prefix that does not end with white space. */
  lemma {:induction false} TrimEndIs(s: string)
    ensures |TrimEnd(s)| <= |s| && TrimEnd(s) == s[..|TrimEnd(s)|]
    ensures TrimEnd(s) == [] || !IsSpace(TrimEnd(s)[|TrimEnd(s)| - 1])
    decreases |s|
  {
    if |s| > 0 && IsSpace(s[|s| - 1]) {
      TrimEndIs(s[..|s| - 1]);
    }
  }

  /** `s.trim()` */
  function Trim(s: string): string {
    TrimEnd(TrimStart(s))
  }

  /** A trimmed string neither starts nor ends with white space. */
  lemma TrimEnds(s: string)
    ensures Trim(s) == [] || (!IsSpace(Trim(s)[0]) && !IsSpace(Trim(s)[|Trim(s)| - 1]))
  {
    var t := TrimStart(s);
    TrimStartIs(s);
    TrimEndIs(t);
    assert Trim(s) != [] ==> Trim(s)[0] == t[0];
  }

  /** `trimStart` removes only white space. */
  lemma {:induction false} TrimStartRemovesSpace(s: string)
    ensures forall i :: 0 <= i < |s| - |TrimStart(s)| ==> IsSpace(s[i])
    decreases |s|
  {
    if |s| > 0 && IsSpace(s[0]) {
      TrimStartRemovesSpace(s[1..]);
      forall i | 1 <= i < |s| - |TrimStart(s)| ensures IsSpace(s[i]) {
        assert s[i] == s[1..][i - 1];
      }
    }
  }

  /** `trimEnd` removes only white space. */
  lemma {:induction false} TrimEndRemovesSpace(s: string)
    ensures forall i :: |TrimEnd(s)| <= i < |s| ==> IsSpace(s[i])
    decreases |s|
  {
    if |s| > 0 && IsSpace(s[|s| - 1]) {
      TrimEndRemovesSpace(s[..|s| - 1]);
      forall i | |TrimEnd(s)| <= i < |s| - 1 ensures IsSpace(s[i]) {
        assert s[i] == s[..|s| - 1][i];
      }
    }
  }

  /** Trimming leaves nothing exactly when the string is all white space. */
  lemma TrimEmptyIffBlank(s: string)
    ensures Trim(s) == [] <==> IsBlank(s)
  {
    var t := TrimStart(s);
    TrimStartIs(s);
    TrimEndIs(t);
    TrimStartRemovesSpace(s);
    TrimEndRemovesSpace(t);
    if TrimEnd(t) != [] {
      assert !IsSpace(t[0]);
      assert s[|s| - |t|] == t[0];
    }
  }

  /** A string with no blank ends is its own trim. */
  lemma TrimUnchanged(s: string)
    requires s == [] || (!IsSpace(s[0]) && !IsSpace(s[|s| - 1]))
    ensures Trim(s) == s
  {
  }

  /** Pattern `pat` occurs in `s` at index `i`. */
  predicate OccursAt(s: string, pat: string, i: int) {
    0 <= i && i + |pat| <= |s| && s[i..i + |pat|] == pat
  }

  function IndexFrom(s: string, pat: string, from: nat): (r: int)
    ensures r == -1 || (from <= r && OccursAt(s, pat, r))
    ensures forall j :: from <= j && (r == -1 || j < r) ==> !OccursAt(s, pat, j)
    decreases |s| - from
  {
    if from + |pat| > |s| then -1
    else if s[from..from + |pat|] == pat then from
    else IndexFrom(s, pat, from + 1)
  }

  /** `s.indexOf(pat)`: the first index at which `pat` occurs, or -1. */
  function IndexOf(s: string, pat: string): (r: int)
    ensures r == -1 || OccursAt(s, pat, r)
    ensures forall j :: 0 <= j && (r == -1 || j < r) ==> !OccursAt(s, pat, j)
  {
    IndexFrom(s, pat, 0)
  }

  /** `s.includes(pat)` */
  function Includes(s: string, pat: string): (b: bool)
    ensures b <==> exists i :: OccursAt(s, pat, i)
  {
    IndexOf(s, pat) >= 0
  }

  /** An occurrence of `p` inside an occurrence of `t` is an occurrence in `s`. */
  lemma OccursWithin(s: string, t: string, p: string, i: int, k: int)
    requires OccursAt(s, t, i) && OccursAt(t, p, k)
    ensures OccursAt(s, p, i + k)
  {
    forall m | 0 <= m < |p| ensures s[i + k + m] == p[m] {
      assert s[i + k + m] == s[i..i + |t|][k + m] == t[k + m];
      assert t[k + m] == t[k..k + |p|][m];
    }
    assert s[i + k..i + k + |p|] == p;
  }

  /** The lower-case form of an ASCII letter; every other character unchanged.
      Case folding of a regex with the `i` flag (and without `u`) never maps a
      non-ASCII character onto an ASCII one, so for an ASCII pattern this is
      the whole of its case-insensitivity. */
  function AsciiLower(c: char): char {
    if 'A' <= c <= 'Z' then (c as int + 32) as char else c
  }

  predicate OccursFoldedAt(s: string, lowerPat: string, i: int) {
    0 <= i && i + |lowerPat| <= |s|
    && forall k :: 0 <= k < |lowerPat| ==> AsciiLower(s[i + k]) == lowerPat[k]
  }

  function FoldedFrom(s: string, lowerPat: string, from: nat): (b: bool)
    ensures b <==> exists j :: from <= j && OccursFoldedAt(s, lowerPat, j)
    decreases |s| - from
  {
    if from + |lowerPat| > |s| then false
    else if OccursFoldedAt(s, lowerPat, from) then true
    else FoldedFrom(s, lowerPat, from + 1)
  }

  /** `/lowerPat/i.test(s)` for a pattern of lower-case ASCII letters. */
  function IncludesFolded(s: string, lowerPat: string): (b: bool)
    ensures b <==> exists j :: OccursFoldedAt(s, lowerPat, j)
  {
    FoldedFrom(s, lowerPat, 0)
  }

  predicate NoneOf(s: string, isSep: char -> bool) {
    forall i :: 0 <= i < |s| ==> !isSep(s[i])
  }

  /** `s.split(re)` for a regex `re` that matches exactly one character of a
      class: the pieces between separators, empty ones included. */
  function Split(s: string, isSep: char -> bool): (r: seq<string>)
    ensures |r| >= 1
    ensures forall k :: 0 <= k < |r| ==> NoneOf(r[k], isSep)
  {
    if s == [] then [""]
    else
      var rest := Split(s[1..], isSep);
      if isSep(s[0]) then [""] + rest
      else [[s[0]] + rest[0]] + rest[1..]
  }

  /** `parts.join(sep)` */
  function Join(parts: seq<string>, sep: string): string {
    if |parts| == 0 then ""
    else if |parts| == 1 then parts[0]
    else parts[0] + sep + Join(parts[1..], sep)
  }

  /** `xs.map((x) => x.trim())` */
  function TrimEach(xs: seq<string>): (r: seq<string>)
    ensures |r| == |xs|
    ensures forall i :: 0 <= i < |xs| ==> r[i] == Trim(xs[i])
  {
    if xs == [] then [] else [Trim(xs[0])] + TrimEach(xs[1..])
  }

  /** `xs.filter(Boolean)` on strings: the non-empty ones, in order. */
  function NonEmpty(xs: seq<string>): (r: seq<string>)
    ensures |r| <= |xs|
    ensures forall i :: 0 <= i < |r| ==> r[i] != "" && r[i] in xs
  {
    if xs == [] then []
    else if xs[0] == "" then NonEmpty(xs[1..])
    else [xs[0]] + NonEmpty(xs[1..])
  }

  lemma NonEmptyAppend(a: seq<string>, b: seq<string>)
    ensures NonEmpty(a + b) == NonEmpty(a) + NonEmpty(b)
  {
    if a == [] {
      assert a + b == b;
    } else {
      var ab := a + b;
      assert ab != [] && ab[0] == a[0] && ab[1..] == a[1..] + b;
      NonEmptyAppend(a[1..], b);
      if a[0] == "" {
        assert NonEmpty(ab) == NonEmpty(a[1..] + b);
      } else {
        assert NonEmpty(ab) == [a[0]] + NonEmpty(a[1..] + b);
      }
    }
  }

  /** `parts.join('')` peels off its first part. */
  lemma JoinEmptyCons(parts: seq<string>)
    requires parts != []
    ensures Join(parts, "") == parts[0] + Join(parts[1..], "")
  {
    if |parts| == 1 {
      assert parts[1..] == [];
    }
  }

  /** Joining the pieces of a split with nothing in between gives the text
      with its separators removed. */
  lemma {:induction false} JoinSplit(s: string, isSep: char -> bool)
    ensures Join(Split(s, isSep), "") == RemoveAll(s, isSep)
    decreases |s|
  {
    if s != [] {
      var rest := Split(s[1..], isSep);
      JoinSplit(s[1..], isSep);
      JoinEmptyCons(rest);
      if isSep(s[0]) {
        JoinEmptyCons([""] + rest);
        assert ([""] + rest)[1..] == rest;
      } else {
        var parts := [[s[0]] + rest[0]] + rest[1..];
        JoinEmptyCons(parts);
        assert parts[1..] == rest[1..];
      }
    }
  }

  /** Dropping empty strings does not change a join with nothing in between. */
  lemma {:induction false} JoinNonEmpty(xs: seq<string>)
    ensures Join(NonEmpty(xs), "") == Join(xs, "")
    decreases |xs|
  {
    if xs != [] {
      JoinNonEmpty(xs[1..]);
      JoinEmptyCons(xs);
      if xs[0] != "" {
        JoinEmptyCons([xs[0]] + NonEmpty(xs[1..]));
        assert ([xs[0]] + NonEmpty(xs[1..]))[1..] == NonEmpty(xs[1..]);
      }
    }
  }

  /** `s.slice(start, end)` for non-negative bounds: both are clamped to the length. */
  function Slice(s: string, start: nat, end: nat): (r: string)
    ensures |r| <= |s|
    ensures start <= end <= |s| ==> r == s[start..end]
  {
    var a := if start < |s| then start else |s|;
    var b := if end < |s| then end else |s|;
    if a < b then s[a..b] else ""
  }

  /** `s.replace(/[...]/g, '')`: every character of the class removed. */
  function RemoveAll(s: string, drop: char -> bool): (r: string)
    ensures NoneOf(r, drop)
  {
    if s == [] then ""
    else if drop(s[0]) then RemoveAll(s[1..], drop)
    else [s[0]] + RemoveAll(s[1..], drop)
  }

  function Digit(d: nat): char
    requires d < 36
  {
    if d < 10 then ('0' as int + d) as char else ('a' as int + d - 10) as char
  }

  /** `n.toString(radix)` for a non-negative integer. */
  function NatToRadix(n: nat, radix: nat): (r: string)
    requires 2 <= radix <= 36
    ensures |r| >= 1
    decreases n
  {
    if n < radix then [Digit(n)] else NatToRadix(n / radix, radix) + [Digit(n % radix)]
  }

  /** `String(n)` for an integer. */
  function IntToString(n: int): (r: string)
    ensures |r| >= 1
  {
    if n < 0 then "-" + NatToRadix(-n, 10) else NatToRadix(n, 10)
  }
}
