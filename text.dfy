/** String helpers standing for the JavaScript string operations the core uses:
    `toLowerCase` (ASCII letters only), `trim`, `includes`, the regex word
    boundary `\b`, `Array.prototype.join` and the decimal form of an integer. */
module Text {

  /** ASCII lower-casing of one character. */
  function LowerChar(c: char): char {
    if 'A' <= c <= 'Z' then (c as int + 32) as char else c
  }

  /** ASCII upper-casing of one character. */
  function UpperChar(c: char): char {
    if 'a' <= c <= 'z' then (c as int - 32) as char else c
  }

  /** `s.toLowerCase()` restricted to ASCII letters. */
  function Lower(s: string): (r: string)
    ensures |r| == |s|
    ensures forall i :: 0 <= i < |s| ==> r[i] == LowerChar(s[i])
  {
    if s == [] then [] else [LowerChar(s[0])] + Lower(s[1..])
  }

  /** The characters `String.prototype.trim` removes: ECMAScript WhiteSpace and
      LineTerminator code points. */
  predicate IsSpace(c: char) {
    || c == '\t' || c == '\n' || c == '\U{B}' || c == '\U{C}' || c == '\r' || c == ' '
    || c == '\U{A0}' || c == '\U{1680}' || ('\U{2000}' <= c <= '\U{200A}')
    || c == '\U{2028}' || c == '\U{2029}' || c == '\U{202F}' || c == '\U{205F}'
    || c == '\U{3000}' || c == '\U{FEFF}'
  }

  function TrimStart(s: string): (r: string)
    ensures |r| <= |s| && r == s[|s| - |r|..]
    ensures r == [] || !IsSpace(r[0])
    ensures forall i :: 0 <= i < |s| - |r| ==> IsSpace(s[i])
  {
    if s != [] && IsSpace(s[0]) then TrimStart(s[1..]) else s
  }

  function TrimEnd(s: string): (r: string)
    ensures |r| <= |s| && r == s[..|r|]
    ensures r == [] || !IsSpace(r[|r| - 1])
    ensures forall i :: |r| <= i < |s| ==> IsSpace(s[i])
  {
    if s != [] && IsSpace(s[|s| - 1]) then TrimEnd(s[..|s| - 1]) else s
  }

  /** `s.trim()`: the longest infix with no leading or trailing white space. */
  function Trim(s: string): (r: string)
    ensures r == [] || (!IsSpace(r[0]) && !IsSpace(r[|r| - 1]))
    ensures r == [] <==> forall i :: 0 <= i < |s| ==> IsSpace(s[i])
  {
    TrimEnd(TrimStart(s))
  }

  /** A trimmed text is left as it is by trimming again. */
  lemma TrimIdempotent(s: string)
    ensures Trim(Trim(s)) == Trim(s)
  {
    var t := Trim(s);
    assert TrimStart(t) == t;
    assert TrimEnd(t) == t;
  }

  /** Lower-casing keeps white space where it is, so a trimmed text stays
      trimmed, and lower-casing twice is lower-casing once. */
  lemma LowerOfTrimmed(s: string)
    ensures Trim(Lower(Trim(s))) == Lower(Trim(s))
    ensures Lower(Lower(Trim(s))) == Lower(Trim(s))
  {
    var t := Trim(s);
    var l := Lower(t);
    if l != [] {
      assert !IsSpace(l[0]) && !IsSpace(l[|l| - 1]);
    }
    assert TrimStart(l) == l;
    assert TrimEnd(l) == l;
    assert Lower(l) == l;
  }

  /** Every character of `s` is kept by trimming when `s` has one
      non-space character at position `k`: the trimmed text is not empty. */
  lemma TrimKeepsNonSpace(s: string, k: nat)
    requires k < |s| && !IsSpace(s[k])
    ensures Trim(s) != []
  {
  }

  /** A non-space character of `s` is kept by trimming. */
  lemma TrimKeepsChar(s: string, k: nat)
    requires k < |s| && !IsSpace(s[k])
    ensures exists j :: 0 <= j < |Trim(s)| && Trim(s)[j] == s[k]
  {
    var t := TrimStart(s);
    var off := |s| - |t|;
    assert t == s[off..];
    assert k >= off;
    assert t[k - off] == s[k];
    var u := TrimEnd(t);
    assert u == t[..|u|];
    assert k - off < |u|;
    assert u[k - off] == s[k];
    assert Trim(s) == u;
    assert 0 <= k - off < |Trim(s)| && Trim(s)[k - off] == s[k];
  }

  /** `sub` occurs in `s` starting at position `i`. */
  predicate OccursAt(s: string, sub: string, i: int) {
    0 <= i && i + |sub| <= |s| && s[i..i + |sub|] == sub
  }

  /** `s.includes(sub)`. */
  predicate Contains(s: string, sub: string) {
    exists i | 0 <= i <= |s| :: OccursAt(s, sub, i)
  }

  /** A substring of a substring is a substring: `includes` is transitive. */
  lemma ContainsTransitive(s: string, mid: string, sub: string)
    requires Contains(s, mid) && Contains(mid, sub)
    ensures Contains(s, sub)
  {
    var i :| 0 <= i <= |s| && OccursAt(s, mid, i);
    var j :| 0 <= j <= |mid| && OccursAt(mid, sub, j);
    assert OccursAt(s, sub, i + j) by {
      forall t | 0 <= t < |sub| ensures s[i + j + t] == sub[t] {
        assert s[i + j + t] == mid[j + t];
      }
    }
  }

  /** A non-empty word never occurs in the empty text. */
  lemma NothingInEmpty(sub: string)
    requires sub != []
    ensures !Contains([], sub)
  {
  }

  /** `s` occurs in `s`. */
  lemma ContainsSelf(s: string)
    ensures Contains(s, s)
  {
    assert OccursAt(s, s, 0);
  }

  /** The characters matched by the regex class `\w`. */
  predicate IsWordChar(c: char) {
    ('a' <= c <= 'z') || ('A' <= c <= 'Z') || ('0' <= c <= '9') || c == '_'
  }

  /** `w` occurs at position `i` of `t` and is delimited by `\b` on both sides.
      For a word `w` that starts and ends with a word character (all the words
      of the core do), this is exactly what `/\bw\b/` tests at `i`. */
  predicate WholeWordAt(t: string, w: string, i: int) {
    && 0 <= i && i + |w| <= |t|
    && t[i..i + |w|] == w
    && (i == 0 || !IsWordChar(t[i - 1]))
    && (i + |w| == |t| || !IsWordChar(t[i + |w|]))
  }

  /** `/\bw\b/.test(t)`. */
  predicate HasWholeWord(t: string, w: string) {
    exists i :: 0 <= i <= |t| && WholeWordAt(t, w, i)
  }

  /** A whole-word occurrence is in particular a substring occurrence. */
  lemma WholeWordIsSubstring(t: string, w: string)
    requires HasWholeWord(t, w)
    ensures Contains(t, w)
  {
    var i :| 0 <= i <= |t| && WholeWordAt(t, w, i);
    assert OccursAt(t, w, i);
  }

  /** `parts.join(sep)`. */
  function Join(parts: seq<string>, sep: string): (r: string)
    ensures parts == [] ==> r == ""
    ensures |parts| == 1 ==> r == parts[0]
  {
    if parts == [] then ""
    else if |parts| == 1 then parts[0]
    else parts[0] + sep + Join(parts[1..], sep)
  }

  /** Joining two non-empty lists puts exactly one separator between them. */
  lemma {:induction false} JoinAppend(a: seq<string>, b: seq<string>, sep: string)
    requires a != [] && b != []
    ensures Join(a + b, sep) == Join(a, sep) + sep + Join(b, sep)
  {
    if |a| == 1 {
      assert (a + b)[1..] == b;
    } else {
      assert (a + b)[1..] == a[1..] + b;
      JoinAppend(a[1..], b, sep);
    }
  }

  /** Every part appears in the joined text. */
  lemma {:induction false} JoinContainsPart(parts: seq<string>, sep: string, i: nat)
    requires i < |parts|
    ensures Contains(Join(parts, sep), parts[i])
  {
    var text := Join(parts, sep);
    if |parts| == 1 {
      assert OccursAt(text, parts[0], 0);
    } else {
      var rest := Join(parts[1..], sep);
      assert text == parts[0] + sep + rest;
      if i == 0 {
        assert OccursAt(text, parts[0], 0);
      } else {
        JoinContainsPart(parts[1..], sep, i - 1);
        assert OccursAt(text, rest, |parts[0] + sep|);
        ContainsTransitive(text, rest, parts[i]);
      }
    }
  }

  function DigitChar(d: nat): char
    requires d < 10
  {
    ('0' as int + d) as char
  }

  function NatToText(n: nat): (r: string)
    ensures r != []
    ensures forall i :: 0 <= i < |r| ==> '0' <= r[i] <= '9'
  {
    if n < 10 then [DigitChar(n)] else NatToText(n / 10) + [DigitChar(n % 10)]
  }

  /** `String(n)` for an integer `n`. */
  function IntToText(n: int): (r: string)
    ensures r != []
  {
    if n < 0 then "-" + NatToText(-n) else NatToText(n)
  }
}
