/** The session token of services/api.ts. The source writes `btoa(JSON.stringify({ userId }))`
    and reads it back with `JSON.parse(atob(token))`; the model keeps the contract the router
    depends on (decoding an issued token gives back its claims, and an issued token holds no
    space) with a text encoding of its own: "n" for a token without user id, otherwise "u"
    followed by six lower-case hexadecimal digits per character of the id. */
module Token {
  import opened Wrappers

  /** The decoded payload `{ userId }`; an absent `userId` is `None`. */
  datatype Claims = Claims(userId: Option<string>)

  /** A lower-case hexadecimal digit. */
  predicate IsHexDigit(c: char)
  {
    '0' <= c <= '9' || 'a' <= c <= 'f'
  }

  /** The digit for `d`, as in "0123456789abcdef"[d]. */
  function HexDigit(d: nat): (c: char)
    requires d < 16
    ensures IsHexDigit(c)
  {
    if d < 10 then ('0' as int + d) as char else ('a' as int + d - 10) as char
  }

  /** The width, in hexadecimal digits, of one encoded character (code points stay below 16^6). */
  const CharWidth := 6

  function Pow16(k: nat): (p: nat)
    ensures p >= 1
  {
    if k == 0 then 1 else 16 * Pow16(k - 1)
  }

  function HexValue(c: char): Option<nat>
  {
    if '0' <= c <= '9' then Some(c as int - '0' as int)
    else if 'a' <= c <= 'f' then Some(c as int - 'a' as int + 10)
    else None
  }

  /** `n` written with exactly `width` hexadecimal digits, most significant first. */
  function Hex(n: nat, width: nat): (r: string)
    ensures |r| == width
    ensures forall i :: 0 <= i < |r| ==> IsHexDigit(r[i])
  {
    if width == 0 then [] else Hex(n / 16, width - 1) + [HexDigit(n % 16)]
  }

  /** The value of a string of hexadecimal digits, `None` if some character is not one. */
  function Unhex(s: string): Option<nat>
  {
    if s == [] then Some(0)
    else match (Unhex(s[..|s| - 1]), HexValue(s[|s| - 1]))
      case (Some(a), Some(d)) => Some(16 * a + d)
      case _ => None
  }

  lemma HexDigitValue(d: nat)
    requires d < 16
    ensures HexValue(HexDigit(d)) == Some(d)
  {
  }

  lemma DivideBy16(n: nat, p: nat)
    requires n < 16 * p
    ensures n == 16 * (n / 16) + n % 16 && n / 16 < p && n % 16 < 16
  {
  }

  /** Reading one more digit multiplies the value read so far by 16 and adds the digit. */
  lemma UnhexSnoc(s: string, d: nat)
    requires d < 16 && Unhex(s).Some?
    ensures Unhex(s + [HexDigit(d)]) == Some(16 * Unhex(s).value + d)
  {
    var t := s + [HexDigit(d)];
    assert t[..|t| - 1] == s;
    HexDigitValue(d);
  }

  lemma {:induction false} UnhexHex(n: nat, width: nat)
    requires n < Pow16(width)
    ensures Unhex(Hex(n, width)) == Some(n)
  {
    if width > 0 {
      var q, d := n / 16, n % 16;
      DivideBy16(n, Pow16(width - 1));
      UnhexHex(q, width - 1);
      UnhexSnoc(Hex(q, width - 1), d);
    }
  }

  predicate IsScalarValue(n: nat)
  {
    n < 0xD800 || (0xE000 <= n < 0x11_0000)
  }

  function EncodeChars(s: string): (r: string)
    ensures |r| == CharWidth * |s|
    ensures forall i :: 0 <= i < |r| ==> IsHexDigit(r[i])
  {
    if s == [] then [] else Hex(s[0] as int, CharWidth) + EncodeChars(s[1..])
  }

  function DecodeChars(t: string): Option<string>
    decreases |t|
  {
    if t == [] then Some([])
    else if |t| < CharWidth then None
    else match (Unhex(t[..CharWidth]), DecodeChars(t[CharWidth..]))
      case (Some(n), Some(rest)) => if IsScalarValue(n) then Some([n as char] + rest) else None
      case _ => None
  }

  lemma {:induction false} DecodeEncodeChars(s: string)
    ensures DecodeChars(EncodeChars(s)) == Some(s)
  {
    if s != [] {
      var t := EncodeChars(s);
      assert t[..CharWidth] == Hex(s[0] as int, CharWidth);
      assert t[CharWidth..] == EncodeChars(s[1..]);
      assert Pow16(CharWidth) == 0x100_0000;
      UnhexHex(s[0] as int, CharWidth);
      DecodeEncodeChars(s[1..]);
      assert [s[0]] + s[1..] == s;
    }
  }

  /** `btoa(JSON.stringify({ userId }))` in the model's encoding. */
  function EncodeToken(c: Claims): string
  {
    match c.userId
    case None => "n"
    case Some(id) => "u" + EncodeChars(id)
  }

  /** `JSON.parse(atob(token))`: `None` where the source throws ('Invalid token'). */
  function DecodeToken(t: string): Option<Claims>
  {
    if t == "n" then Some(Claims(None))
    else if |t| >= 1 && t[0] == 'u' then
      match DecodeChars(t[1..])
      case Some(id) => Some(Claims(Some(id)))
      case None => None
    else None
  }

  /** Decoding an issued token gives back exactly the claims it was issued for. */
  lemma TokenRoundTrip(c: Claims)
    ensures DecodeToken(EncodeToken(c)) == Some(c)
  {
    if c.userId.Some? {
      var t := EncodeToken(c);
      assert t[1..] == EncodeChars(c.userId.value);
      DecodeEncodeChars(c.userId.value);
    }
  }

  /** An issued token is never empty and holds no space, so it survives `Bearer ${token}`
      and `split(' ')[1]`. */
  lemma TokenHasNoSpace(c: Claims)
    ensures EncodeToken(c) != [] && ' ' !in EncodeToken(c)
  {
    var t := EncodeToken(c);
    if c.userId.Some? {
      assert t == "u" + EncodeChars(c.userId.value);
      assert forall i :: 1 <= i < |t| ==> IsHexDigit(t[i]);
    }
  }
}
