/** The JavaScript string operations the services and components rely on:
    `String.prototype.trim`, `toLowerCase`, `length` and the avatar URL template. */
module Text {

  /** JavaScript's WhiteSpace and LineTerminator code points: exactly what `trim` strips. */
  const JsWhitespace: set<char> :=
    {'\t', '\n', '\U{0B}', '\U{0C}', '\r', ' ', '\U{A0}', '\U{1680}',
     '\U{2000}', '\U{2001}', '\U{2002}', '\U{2003}', '\U{2004}', '\U{2005}', '\U{2006}',
     '\U{2007}', '\U{2008}', '\U{2009}', '\U{200A}', '\U{2028}', '\U{2029}', '\U{202F}',
     '\U{205F}', '\U{3000}', '\U{FEFF}'}

  predicate IsJsWhitespace(c: char)
  {
    c in JsWhitespace
  }

  /** The number of white-space characters `s` starts with. */
  function LeadingWhitespace(s: string): (k: nat)
    ensures k <= |s|
    ensures forall i :: 0 <= i < k ==> IsJsWhitespace(s[i])
    ensures k < |s| ==> !IsJsWhitespace(s[k])
  {
    if s != [] && IsJsWhitespace(s[0]) then 1 + LeadingWhitespace(s[1..]) else 0
  }

  /** The number of white-space characters `s` ends with. */
  function TrailingWhitespace(s: string): (k: nat)
    ensures k <= |s|
    ensures forall i :: |s| - k <= i < |s| ==> IsJsWhitespace(s[i])
    ensures k < |s| ==> !IsJsWhitespace(s[|s| - 1 - k])
  {
    if s != [] && IsJsWhitespace(s[|s| - 1]) then 1 + TrailingWhitespace(s[..|s| - 1]) else 0
  }

  /** `s.trim()`: the slice of `s` left once the white space at both ends is cut off;
      it neither starts nor ends with white space, and everything cut off is white space. */
  function Trim(s: string): (r: string)
    ensures LeadingWhitespace(s) + |r| <= |s|
    ensures r == s[LeadingWhitespace(s)..LeadingWhitespace(s) + |r|]
    ensures forall i :: 0 <= i < |s| && !(LeadingWhitespace(s) <= i < LeadingWhitespace(s) + |r|)
                        ==> IsJsWhitespace(s[i])
    ensures r == [] || (!IsJsWhitespace(r[0]) && !IsJsWhitespace(r[|r| - 1]))
  {
    var a := LeadingWhitespace(s);
    if a == |s| then [] else s[a..|s| - TrailingWhitespace(s)]
  }

  /** A string is blank (falsy once trimmed) exactly when it is all white space. */
  lemma TrimEmptyIffBlank(s: string)
    ensures Trim(s) == [] <==> forall i :: 0 <= i < |s| ==> IsJsWhitespace(s[i])
  {
  }

  /** Trimming twice is trimming once. */
  lemma TrimIdempotent(s: string)
    ensures Trim(Trim(s)) == Trim(s)
  {
    var r := Trim(s);
    assert LeadingWhitespace(r) == 0;
    assert TrailingWhitespace(r) == 0;
  }

  /** `toLowerCase` on one character; only the ASCII letters are mapped. */
  function LowerChar(c: char): (d: char)
  {
    if 'A' <= c <= 'Z' then (c as int + 32) as char else c
  }

  /** `s.toLowerCase()`, restricted to ASCII letters. */
  function ToLower(s: string): (r: string)
    ensures |r| == |s|
    ensures forall i :: 0 <= i < |s| ==> r[i] == LowerChar(s[i])
    ensures forall i :: 0 <= i < |r| ==> !('A' <= r[i] <= 'Z')
  {
    seq(|s|, i requires 0 <= i < |s| => LowerChar(s[i]))
  }

  /** The e-mail key the services store and compare: `email.trim().toLowerCase()`. */
  function NormalizeEmail(e: string): (r: string)
    ensures |r| <= |e|
    ensures r == [] || (!IsJsWhitespace(r[0]) && !IsJsWhitespace(r[|r| - 1]))
    ensures forall i :: 0 <= i < |r| ==> !('A' <= r[i] <= 'Z')
  {
    LowerWhitespaceInvariant(Trim(e));
    ToLower(Trim(e))
  }

  /** Lower-casing neither creates nor removes white space at the ends. */
  lemma LowerWhitespaceInvariant(s: string)
    ensures forall i :: 0 <= i < |s| ==> (IsJsWhitespace(ToLower(s)[i]) <==> IsJsWhitespace(s[i]))
  {
  }

  /** A normalized e-mail normalizes to itself, so a stored key can be used to log in again. */
  lemma NormalizeEmailIdempotent(e: string)
    ensures NormalizeEmail(NormalizeEmail(e)) == NormalizeEmail(e)
  {
    var n := NormalizeEmail(e);
    assert LeadingWhitespace(n) == 0;
    assert TrailingWhitespace(n) == 0;
    assert Trim(n) == n;
    var m := ToLower(n);
    forall i | 0 <= i < |n| ensures m[i] == n[i] {
      assert m[i] == LowerChar(n[i]);
    }
  }

  /** The UTF-16 code units one character takes: two for a code point above U+FFFF
      (a surrogate pair), one otherwise. */
  function CodeUnits(c: char): nat
  {
    if c as int > 0xFFFF then 2 else 1
  }

  /** The number of UTF-16 code units of `s`: what JavaScript's `length` counts. It equals
      the number of characters exactly when every character lies in the Basic Multilingual
      Plane; `Utf16LengthAppend` with the one-character case fixes its value on every string. */
  function Utf16Length(s: string): (n: nat)
    ensures |s| <= n <= 2 * |s|
    ensures |s| == 1 ==> n == CodeUnits(s[0])
    ensures n == |s| <==> forall i :: 0 <= i < |s| ==> s[i] as int <= 0xFFFF
  {
    if s == [] then 0 else CodeUnits(s[0]) + Utf16Length(s[1..])
  }

  /** `(a + b).length == a.length + b.length`. */
  lemma {:induction false} Utf16LengthAppend(a: string, b: string)
    ensures Utf16Length(a + b) == Utf16Length(a) + Utf16Length(b)
  {
    if a == [] {
      assert a + b == b;
    } else {
      assert (a + b)[0] == a[0] && (a + b)[1..] == a[1..] + b;
      Utf16LengthAppend(a[1..], b);
    }
  }

  /** The robohash avatar URL that the sign-up paths build from an e-mail (or a name). */
  function AvatarUrl(key: string): (url: string)
  {
    "https://robohash.org/" + key + ".png?size=150x150&set=set4"
  }

  /** Different keys give different avatar URLs, and the key can be read back from the URL. */
  lemma AvatarUrlInjective(a: string, b: string)
    requires AvatarUrl(a) == AvatarUrl(b)
    ensures a == b
  {
    var p := "https://robohash.org/";
    var ua, ub := AvatarUrl(a), AvatarUrl(b);
    assert |a| == |b|;
    assert ua[|p|..|p| + |a|] == a;
    assert ub[|p|..|p| + |b|] == b;
  }

  predicate IsAsciiAlphanumeric(c: char)
  {
    ('a' <= c <= 'z') || ('A' <= c <= 'Z') || ('0' <= c <= '9')
  }

  /** `s.replace(/[^a-zA-Z0-9]/g, '')`: drops every character that is not an ASCII letter or digit. */
  function KeepAlphanumeric(s: string): (r: string)
    ensures |r| <= |s|
    ensures forall i :: 0 <= i < |r| ==> IsAsciiAlphanumeric(r[i])
    ensures forall c :: c in s && IsAsciiAlphanumeric(c) ==> c in r
    ensures |s| == 1 ==> r == (if IsAsciiAlphanumeric(s[0]) then s else [])
    ensures (forall i :: 0 <= i < |s| ==> IsAsciiAlphanumeric(s[i])) ==> r == s
  {
    if s == [] then []
    else (if IsAsciiAlphanumeric(s[0]) then [s[0]] else []) + KeepAlphanumeric(s[1..])
  }

  /** The replacement works character by character: `(a + b)` cleans to the cleaned `a`
      followed by the cleaned `b`, so the letters and digits are kept in order and with their
      repetitions. */
  lemma {:induction false} KeepAlphanumericAppend(a: string, b: string)
    ensures KeepAlphanumeric(a + b) == KeepAlphanumeric(a) + KeepAlphanumeric(b)
  {
    if a == [] {
      assert a + b == b;
    } else {
      assert (a + b)[0] == a[0] && (a + b)[1..] == a[1..] + b;
      KeepAlphanumericAppend(a[1..], b);
    }
  }
}
