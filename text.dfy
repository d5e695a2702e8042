/** JavaScript's `String.prototype.trim` and `toLowerCase` on strings, and the
    email normalisation `(email || "").trim().toLowerCase()` built from them. */
module Text {

  /** The WhiteSpace and LineTerminator code points of ECMAScript, which `trim` removes. */
  predicate IsWhite(c: char) {
    || c == ' ' || c == '\t' || c == '\n' || c == '\U{000B}' || c == '\U{000C}' || c == '\r'
    || c == '\U{00A0}' || c == '\U{1680}' || ('\U{2000}' <= c <= '\U{200A}')
    || c == '\U{2028}' || c == '\U{2029}' || c == '\U{202F}' || c == '\U{205F}'
    || c == '\U{3000}' || c == '\U{FEFF}'
  }

  /** `trimStart`: drops the leading white space. */
  function TrimStart(s: string): string {
    if s != [] && IsWhite(s[0]) then TrimStart(s[1..]) else s
  }

  /** `trimEnd`: drops the trailing white space. */
  function TrimEnd(s: string): string {
    if s != [] && IsWhite(s[|s| - 1]) then TrimEnd(s[..|s| - 1]) else s
  }

  /** What `TrimStart` leaves is a suffix of `s` that does not start with white space,
      and everything it dropped was white space. */
  lemma {:induction false} TrimStartSpec(s: string)
    ensures |TrimStart(s)| <= |s| && TrimStart(s) == s[|s| - |TrimStart(s)|..]
    ensures forall i :: 0 <= i < |s| - |TrimStart(s)| ==> IsWhite(s[i])
    ensures TrimStart(s) != [] ==> !IsWhite(TrimStart(s)[0])
  {
    if s != [] && IsWhite(s[0]) {
      var t := s[1..];
      TrimStartSpec(t);
      var r := TrimStart(s);
      assert r == TrimStart(t);
      forall i | 0 <= i < |s| - |r| ensures IsWhite(s[i]) {
        if i > 0 {
          assert s[i] == t[i - 1];
        }
      }
      assert t[|t| - |r|..] == s[|s| - |r|..];
    }
  }

  /** What `TrimEnd` leaves is a prefix of `s` that does not end with white space, and
      everything it dropped was white space. */
  lemma {:induction false} TrimEndSpec(s: string)
    ensures |TrimEnd(s)| <= |s| && TrimEnd(s) == s[..|TrimEnd(s)|]
    ensures forall i :: |TrimEnd(s)| <= i < |s| ==> IsWhite(s[i])
    ensures TrimEnd(s) != [] ==> !IsWhite(TrimEnd(s)[|TrimEnd(s)| - 1])
  {
    if s != [] && IsWhite(s[|s| - 1]) {
      var t := s[..|s| - 1];
      TrimEndSpec(t);
      var r := TrimEnd(s);
      assert r == TrimEnd(t);
      forall i | |r| <= i < |s| ensures IsWhite(s[i]) {
        if i < |s| - 1 {
          assert s[i] == t[i];
        }
      }
      assert t[..|r|] == s[..|r|];
    }
  }

  /** `s[a..b]` is `s` with its surrounding white space removed: only white space lies
      outside it, and it neither starts nor ends with white space. */
  ghost predicate TrimmedSlice(s: string, a: int, b: int) {
    && 0 <= a <= b <= |s|
    && (forall i :: 0 <= i < a ==> IsWhite(s[i]))
    && (forall i :: b <= i < |s| ==> IsWhite(s[i]))
    && (a < b ==> !IsWhite(s[a]) && !IsWhite(s[b - 1]))
  }

  /** `s.trim()`. */
  function Trim(s: string): string {
    TrimEnd(TrimStart(s))
  }

  /** `trim` yields the slice of `s` outside which there is only white space and which
      neither starts nor ends with white space. */
  lemma TrimSpec(s: string)
    ensures exists a, b :: TrimmedSlice(s, a, b) && Trim(s) == s[a..b]
  {
    var t := TrimStart(s);
    var r := TrimEnd(t);
    TrimStartSpec(s);
    TrimEndSpec(t);
    var a := |s| - |t|;
    forall i | a + |r| <= i < |s| ensures IsWhite(s[i]) {
      assert s[i] == t[i - a];
    }
    assert r == s[a..a + |r|];
    assert TrimmedSlice(s, a, a + |r|);
  }

  /** The trimmed slice is unique, so `TrimSpec` determines the result of `Trim`. */
  lemma TrimmedSliceUnique(s: string, a: int, b: int, c: int, d: int)
    requires TrimmedSlice(s, a, b) && TrimmedSlice(s, c, d)
    ensures s[a..b] == s[c..d]
  {
  }

  /** `toLowerCase` on one code point: the ASCII capitals A-Z become a-z. */
  function LowerChar(c: char): char {
    if 'A' <= c <= 'Z' then (c as int + 32) as char else c
  }

  /** `s.toLowerCase()`, code point by code point. */
  function ToLower(s: string): string {
    if s == [] then [] else [LowerChar(s[0])] + ToLower(s[1..])
  }

  /** Lower-casing keeps the length and lower-cases each code point in place. */
  lemma {:induction false} ToLowerSpec(s: string)
    ensures |ToLower(s)| == |s|
    ensures forall i :: 0 <= i < |s| ==> ToLower(s)[i] == LowerChar(s[i])
  {
    if s != [] {
      ToLowerSpec(s[1..]);
      forall i | 0 <= i < |s| ensures ToLower(s)[i] == LowerChar(s[i]) {
        if i > 0 {
          assert s[i] == s[1..][i - 1];
        }
      }
    }
  }

  /** The normalised email the sign-in page and both servers compute:
      trimmed, then lower-cased. */
  function Norm(s: string): string {
    ToLower(Trim(s))
  }

  /** Lower-casing changes letters into letters, so it neither creates nor removes white space. */
  lemma LowerCharKeepsWhite(c: char)
    ensures IsWhite(LowerChar(c)) == IsWhite(c)
    ensures LowerChar(LowerChar(c)) == LowerChar(c)
  {
  }

  /** A string with no white space at either end is its own trim. */
  lemma TrimOfTrimmed(s: string)
    requires s != [] ==> !IsWhite(s[0]) && !IsWhite(s[|s| - 1])
    ensures Trim(s) == s
  {
    assert TrimStart(s) == s;
    assert TrimEnd(s) == s;
  }

  /** Normalising twice equals normalising once. */
  lemma NormIdempotent(s: string)
    ensures Norm(Norm(s)) == Norm(s)
  {
    var l := Norm(s);
    NormShape(s);
    TrimOfTrimmed(l);
    ToLowerSpec(l);
    forall i | 0 <= i < |l| ensures ToLower(l)[i] == l[i] {
    }
    assert ToLower(l) == l;
  }

  /** The normalised email is empty exactly when the input is empty or all white space. */
  lemma NormEmptyIffBlank(s: string)
    ensures Norm(s) == [] <==> forall i :: 0 <= i < |s| ==> IsWhite(s[i])
  {
    TrimSpec(s);
    var t := Trim(s);
    ToLowerSpec(t);
    var a, b :| TrimmedSlice(s, a, b) && t == s[a..b];
    if !forall i :: 0 <= i < |s| ==> IsWhite(s[i]) {
      var k :| 0 <= k < |s| && !IsWhite(s[k]);
      assert a <= k < b;
      assert |Norm(s)| == b - a;
    }
  }

  /** A normalised email has no capital A-Z and no white space at either end. */
  lemma NormShape(s: string)
    ensures forall i :: 0 <= i < |Norm(s)| ==> !('A' <= Norm(s)[i] <= 'Z')
    ensures Norm(s) != [] ==> !IsWhite(Norm(s)[0]) && !IsWhite(Norm(s)[|Norm(s)| - 1])
  {
    TrimSpec(s);
    var t := Trim(s);
    ToLowerSpec(t);
    var a, b :| TrimmedSlice(s, a, b) && t == s[a..b];
    if t != [] {
      LowerCharKeepsWhite(t[0]);
      LowerCharKeepsWhite(t[|t| - 1]);
    }
  }

  /** The shape of a normalised email: no capital A-Z, no white space at either end. */
  predicate IsNormal(s: string) {
    && (forall i :: 0 <= i < |s| ==> !('A' <= s[i] <= 'Z'))
    && (s != [] ==> !IsWhite(s[0]) && !IsWhite(s[|s| - 1]))
  }

  /** Normalisation leaves a string unchanged exactly when it already has that shape,
      so an address typed in normal form is the one the provider stores. */
  lemma NormFixesNormal(s: string)
    ensures Norm(s) == s <==> IsNormal(s)
  {
    NormShape(s);
    if IsNormal(s) {
      TrimOfTrimmed(s);
      ToLowerSpec(s);
      assert ToLower(s) == s;
    }
  }

  /** `h` holds `content` at offset `i`, right after `open` and right before `close`. */
  predicate Encloses(h: string, i: int, open: string, content: string, close: string) {
    && |open| <= i
    && i + |content| + |close| <= |h|
    && h[i - |open|..i] == open
    && h[i..i + |content|] == content
    && h[i + |content|..i + |content| + |close|] == close
  }

  /** Whatever surrounds `open + content + close`, the content is enclosed at the offset
      where it was placed. */
  lemma EnclosesIn(pre: string, open: string, content: string, close: string, post: string)
    ensures Encloses(pre + open + content + close + post, |pre| + |open|, open, content, close)
  {
    var h := pre + open + content + close + post;
    var i := |pre| + |open|;
    assert h[i - |open|..i] == open;
    assert h[i..i + |content|] == content;
    assert h[i + |content|..i + |content| + |close|] == close;
  }

  /** In `pre + open1 + x + close1 + mid + open2 + x + close2`, `x` is enclosed twice,
      the first copy ending before the second begins. */
  lemma EnclosedTwice(pre: string, open1: string, x: string, close1: string, mid: string,
                      open2: string, close2: string)
    ensures var h := pre + open1 + x + close1 + mid + open2 + x + close2;
      exists p, q :: p + |x| <= q && Encloses(h, p, open1, x, close1) && Encloses(h, q, open2, x, close2)
  {
    var h := pre + open1 + x + close1 + mid + open2 + x + close2;
    var tail := mid + open2 + x + close2;
    assert h == pre + open1 + x + close1 + tail;
    EnclosesIn(pre, open1, x, close1, tail);
    var pre2 := pre + open1 + x + close1 + mid;
    assert h == pre2 + open2 + x + close2 + [];
    EnclosesIn(pre2, open2, x, close2, []);
    var p, q := |pre| + |open1|, |pre2| + |open2|;
    assert Encloses(h, p, open1, x, close1) && Encloses(h, q, open2, x, close2);
  }
}
