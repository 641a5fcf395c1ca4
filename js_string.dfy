/** The two string operations of JavaScript that the room id and the draft pass through:
    String.prototype.trim and String.prototype.toLowerCase. */
module JsString {

  /** The WhiteSpace and LineTerminator code points of ECMAScript, which `trim` removes. */
  predicate IsWhitespace(c: char)
  {
    c == '\t' || c == '\n' || c == '\U{B}' || c == '\U{C}' || c == '\r' || c == ' '
    || c == '\U{A0}' || c == '\U{1680}' || ('\U{2000}' <= c <= '\U{200A}')
    || c == '\U{2028}' || c == '\U{2029}' || c == '\U{202F}' || c == '\U{205F}'
    || c == '\U{3000}' || c == '\U{FEFF}'
  }

  /** A string that JavaScript treats as falsy once trimmed. */
  ghost predicate IsBlank(s: string)
  {
    forall i :: 0 <= i < |s| ==> IsWhitespace(s[i])
  }

  /** Neither end of `s` is whitespace. */
  ghost predicate IsTrimmed(s: string)
  {
    s == [] || (!IsWhitespace(s[0]) && !IsWhitespace(s[|s| - 1]))
  }

  /** The first index at or after `i` that is not whitespace, or |s| if there is none: where
      the result of `trim` starts when scanning from `i`. */
  function SkipLeading(s: string, i: nat): (k: nat)
    requires i <= |s|
    ensures i <= k <= |s|
    ensures forall j :: i <= j < k ==> IsWhitespace(s[j])
    ensures k < |s| ==> !IsWhitespace(s[k])
    decreases |s| - i
  {
    if i < |s| && IsWhitespace(s[i]) then SkipLeading(s, i + 1) else i
  }

  /** Scanning back from `j` no further than `lo`, the index just after the last character
      that is not whitespace, or `lo` if there is none: where the result of `trim` ends. */
  function SkipTrailing(s: string, lo: nat, j: nat): (e: nat)
    requires lo <= j <= |s|
    ensures lo <= e <= j
    ensures forall x :: e <= x < j ==> IsWhitespace(s[x])
    ensures e > lo ==> !IsWhitespace(s[e - 1])
    decreases j - lo
  {
    if lo < j && IsWhitespace(s[j - 1]) then SkipTrailing(s, lo, j - 1) else j
  }

  /** Where the result of `trim` starts in `s`. */
  function TrimStartIndex(s: string): (k: nat)
    ensures k <= |s|
  {
    SkipLeading(s, 0)
  }

  /** Where the result of `trim` ends in `s`. */
  function TrimEndIndex(s: string): (e: nat)
    ensures TrimStartIndex(s) <= e <= |s|
  {
    SkipTrailing(s, TrimStartIndex(s), |s|)
  }

  /** String.prototype.trim. */
  function Trim(s: string): (r: string)
    ensures |r| <= |s|
    ensures IsTrimmed(r)
    ensures r == [] <==> IsBlank(s)
  {
    var k := TrimStartIndex(s);
    var e := TrimEndIndex(s);
    if k == e then
      assert forall i :: 0 <= i < |s| ==> IsWhitespace(s[i]);
      s[k..e]
    else
      assert s[k..e][0] == s[k] && s[k..e][e - k - 1] == s[e - 1];
      NotBlankAt(s, k);
      s[k..e]
  }

  /** One character that is not whitespace makes a string not blank. */
  lemma NotBlankAt(s: string, i: nat)
    requires i < |s| && !IsWhitespace(s[i])
    ensures !IsBlank(s)
  {
  }

  /** `trim` removes a whitespace prefix and a whitespace suffix and nothing else: the result
      is the infix of `s` that starts after its leading whitespace. */
  lemma {:induction false} TrimRemovesOnlyWhitespace(s: string)
    ensures var k := TrimStartIndex(s);
      k + |Trim(s)| <= |s| && Trim(s) == s[k..k + |Trim(s)|]
      && IsBlank(s[..k]) && IsBlank(s[k + |Trim(s)|..])
  {
    var k := TrimStartIndex(s);
    var e := TrimEndIndex(s);
    assert Trim(s) == s[k..e];
    forall i | 0 <= i < k ensures IsWhitespace(s[..k][i]) {
      assert s[..k][i] == s[i];
    }
    forall i | 0 <= i < |s| - e ensures IsWhitespace(s[e..][i]) {
      assert s[e..][i] == s[e + i];
    }
  }

  /** Trimming a string with no whitespace at either end leaves it as it is. */
  lemma {:induction false} TrimOfTrimmed(s: string)
    requires IsTrimmed(s)
    ensures Trim(s) == s
  {
    assert TrimStartIndex(s) == 0;
    assert TrimEndIndex(s) == |s|;
  }

  /** Trimming a trimmed string followed by one whitespace character gives the string back. */
  lemma {:induction false} TrimDropsTrailingWhitespace(s: string, c: char)
    requires IsTrimmed(s) && s != [] && IsWhitespace(c)
    ensures Trim(s + [c]) == s
  {
    var sc := s + [c];
    assert TrimStartIndex(sc) == 0;
    assert SkipTrailing(sc, 0, |sc|) == SkipTrailing(sc, 0, |s|) == |s|;
    assert sc[0..|s|] == s;
  }

  /** `trim` is idempotent. */
  lemma TrimIdempotent(s: string)
    ensures Trim(Trim(s)) == Trim(s)
  {
    TrimOfTrimmed(Trim(s));
  }

  /** The upper-case letters of Basic Latin and Latin-1 Supplement. */
  predicate IsUpper(c: char)
  {
    ('A' <= c <= 'Z') || ('\U{C0}' <= c <= '\U{DE}' && c != '\U{D7}')
  }

  /** toLowerCase on one character: each letter of IsUpper maps to the letter 32 code points on. */
  function LowerChar(c: char): (l: char)
    ensures !IsUpper(l)
    ensures IsWhitespace(l) <==> IsWhitespace(c)
    ensures !IsUpper(c) ==> l == c
    ensures IsUpper(c) ==> l as int == c as int + 32
  {
    if IsUpper(c) then (c as int + 32) as char else c
  }

  /** String.prototype.toLowerCase, character by character. */
  function ToLower(s: string): (r: string)
    ensures |r| == |s|
    ensures forall i :: 0 <= i < |s| ==> r[i] == LowerChar(s[i])
  {
    if s == [] then [] else [LowerChar(s[0])] + ToLower(s[1..])
  }

  /** Lower-casing twice is lower-casing once. */
  lemma LowerIdempotent(s: string)
    ensures ToLower(ToLower(s)) == ToLower(s)
  {
    var once := ToLower(s);
    assert forall i :: 0 <= i < |s| ==> ToLower(once)[i] == LowerChar(LowerChar(s[i])) == once[i];
  }

  /** Lower-casing neither adds nor removes whitespace at the ends. */
  lemma LowerKeepsTrimmed(s: string)
    requires IsTrimmed(s)
    ensures IsTrimmed(ToLower(s))
  {
    if s != [] {
      assert ToLower(s)[0] == LowerChar(s[0]);
      assert ToLower(s)[|s| - 1] == LowerChar(s[|s| - 1]);
    }
  }
}
