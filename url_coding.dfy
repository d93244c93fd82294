/**
  Form encoding of query-string values, as PHP's `urlencode` writes them and
  as PHP decodes them into `$_GET` (`urldecode`). Each character stands for
  one byte.
 */
module UrlCoding {
  import opened Common

  /** Upper-case hexadecimal digit of a nibble. */
  function HexDigit(n: nat): (c: char)
    requires n < 16
  {
    if n < 10 then (48 + n) as char else (55 + n) as char
  }

  /** The value of a hexadecimal digit of either case, if it is one. */
  function HexValue(c: char): (r: Option<nat>)
    ensures r.Some? ==> r.value < 16
  {
    if '0' <= c <= '9' then Some(c as nat - 48)
    else if 'A' <= c <= 'F' then Some(c as nat - 55)
    else if 'a' <= c <= 'f' then Some(c as nat - 87)
    else None
  }

  lemma HexRoundTrip(n: nat)
    requires n < 16
    ensures HexValue(HexDigit(n)) == Some(n)
  {
  }

  /** Characters `urlencode` writes as they are. */
  predicate Unreserved(c: char) {
    ('a' <= c <= 'z') || ('A' <= c <= 'Z') || ('0' <= c <= '9') || c == '-' || c == '_' || c == '.'
  }

  /**
    One character of `urlencode`: unreserved characters stay, a space
    becomes `+`, every other byte becomes `%XX` in upper-case hexadecimal.
   */
  function EncodeChar(c: char): string {
    if Unreserved(c) then [c]
    else if c == ' ' then "+"
    else if c as int < 256 then ['%', HexDigit(c as nat / 16), HexDigit(c as nat % 16)]
    else [c]
  }

  function UrlEncode(s: string): string {
    if s == [] then [] else EncodeChar(s[0]) + UrlEncode(s[1..])
  }

  /** `urldecode`: `+` is a space, `%XX` a byte; anything else stays. */
  function UrlDecode(s: string): string {
    if s == [] then []
    else if s[0] == '+' then " " + UrlDecode(s[1..])
    else if s[0] == '%' && |s| >= 3 && HexValue(s[1]).Some? && HexValue(s[2]).Some? then
      [(HexValue(s[1]).value * 16 + HexValue(s[2]).value) as char] + UrlDecode(s[3..])
    else [s[0]] + UrlDecode(s[1..])
  }

  lemma DecodeEncodedChar(c: char, rest: string)
    ensures UrlDecode(EncodeChar(c) + rest) == [c] + UrlDecode(rest)
  {
    var e := EncodeChar(c) + rest;
    if Unreserved(c) || c == ' ' || c as int >= 256 {
      assert e[1..] == rest;
    } else {
      var hi, lo := c as nat / 16, c as nat % 16;
      HexRoundTrip(hi);
      HexRoundTrip(lo);
      assert e[1] == HexDigit(hi) && e[2] == HexDigit(lo);
      assert e[3..] == rest;
      assert hi * 16 + lo == c as nat;
    }
  }

  /** Decoding undoes encoding, so a route survives the trip through a URL. */
  lemma {:induction false} UrlDecodeEncode(s: string)
    ensures UrlDecode(UrlEncode(s)) == s
  {
    if s != [] {
      DecodeEncodedChar(s[0], UrlEncode(s[1..]));
      UrlDecodeEncode(s[1..]);
    }
  }

  /**
    An encoded value never holds the characters that end a query-string
    value (`&`, `#`) or start a new one (`=`); so in a URL it runs up to the
    next parameter or the end.
   */
  lemma {:induction false} UrlEncodeNoDelimiters(s: string)
    ensures '&' !in UrlEncode(s) && '#' !in UrlEncode(s) && '=' !in UrlEncode(s)
  {
    if s != [] {
      UrlEncodeNoDelimiters(s[1..]);
      var c := s[0];
      if !Unreserved(c) && c != ' ' && c as int < 256 {
        var e := EncodeChar(c);
        assert e == ['%', HexDigit(c as nat / 16), HexDigit(c as nat % 16)];
      }
    }
  }
}
