/** `base64_encode` (section 4 of RFC 4648, with padding) over PHP byte strings,
    a decoder for it, and the reading of a Basic credential
    (section 2 of RFC 7617) that the client's `Authorization` header carries. */
module Base64 {
  import opened Php

  /** A PHP string: every character stands for one byte. */
  type ByteString = s: string | forall i | 0 <= i < |s| :: s[i] as int < 256

  type Sextet = x: int | 0 <= x < 64

  /** The base64 alphabet: `A`-`Z`, `a`-`z`, `0`-`9`, `+`, `/`. */
  function Symbol(x: Sextet): char {
    if x < 26 then ('A' as int + x) as char
    else if x < 52 then ('a' as int + x - 26) as char
    else if x < 62 then ('0' as int + x - 52) as char
    else if x == 62 then '+'
    else '/'
  }

  function SymbolIndex(c: char): (r: Option<Sextet>)
    ensures r.Some? ==> Symbol(r.value) == c
  {
    if 'A' <= c <= 'Z' then Some(c as int - 'A' as int)
    else if 'a' <= c <= 'z' then Some(c as int - 'a' as int + 26)
    else if '0' <= c <= '9' then Some(c as int - '0' as int + 52)
    else if c == '+' then Some(62)
    else if c == '/' then Some(63)
    else None
  }

  lemma SymbolRoundTrip(x: Sextet)
    ensures SymbolIndex(Symbol(x)) == Some(x)
  {
  }

  /** `base64_encode(s)`: every three bytes become four symbols; a final one or
      two bytes become two or three symbols padded with `=`. */
  function Encode(s: ByteString): string
    decreases |s|
  {
    if |s| == 0 then ""
    else if |s| == 1 then
      var b0 := s[0] as int;
      [Symbol(b0 / 4), Symbol(b0 % 4 * 16), '=', '=']
    else if |s| == 2 then
      var b0, b1 := s[0] as int, s[1] as int;
      [Symbol(b0 / 4), Symbol(b0 % 4 * 16 + b1 / 16), Symbol(b1 % 16 * 4), '=']
    else
      var b0, b1, b2 := s[0] as int, s[1] as int, s[2] as int;
      [Symbol(b0 / 4), Symbol(b0 % 4 * 16 + b1 / 16), Symbol(b1 % 16 * 4 + b2 / 64), Symbol(b2 % 64)]
        + Encode(s[3..])
  }

  /** Every started group of three bytes takes four characters. */
  lemma {:induction false} EncodeLength(s: ByteString)
    ensures |Encode(s)| == (|s| + 2) / 3 * 4
    decreases |s|
  {
    if |s| >= 3 {
      var rest: ByteString := s[3..];
      EncodeLength(rest);
      assert (|s| + 2) / 3 == (|rest| + 2) / 3 + 1;
    }
  }

  /** The test vectors of section 10 of RFC 4648: no padding for whole
      groups, one `=` for two trailing bytes, two for one. */
  lemma EncodeTestVectors()
    ensures Encode("") == ""
    ensures Encode("f") == "Zg=="
    ensures Encode("fo") == "Zm8="
    ensures Encode("foo") == "Zm9v"
    ensures Encode("foob") == "Zm9vYg=="
    ensures Encode("foobar") == "Zm9vYmFy"
  {
    assert "foob"[3..] == "b";
    assert "foobar"[3..] == "bar";
    assert "bar"[3..] == "";
  }

  /** The character that stands for byte `b`. */
  function ByteChar(b: int): (c: char)
    requires 0 <= b < 256
    ensures c as int == b
  {
    b as char
  }

  /** One group of four base64 characters: three bytes, or, in the last
      group, one or two bytes followed by `=` padding. */
  function DecodeQuad(c0: char, c1: char, c2: char, c3: char, last: bool): Option<string> {
    var i0, i1, i2, i3 := SymbolIndex(c0), SymbolIndex(c1), SymbolIndex(c2), SymbolIndex(c3);
    if i0.None? || i1.None? then None
    else
      var x0, x1 := i0.value as int, i1.value as int;
      var d0 := ByteChar(x0 * 4 + x1 / 16);
      if last && c2 == '=' && c3 == '=' then Some([d0])
      else if i2.None? then None
      else
        var x2 := i2.value as int;
        var d1 := ByteChar(x1 % 16 * 16 + x2 / 4);
        if last && c3 == '=' then Some([d0, d1])
        else if i3.None? then None
        else Some([d0, d1, ByteChar(x2 % 4 * 64 + i3.value as int)])
  }

  /** Decoding of padded base64 text, group by group; `None` for text that is
      not base64. */
  function Decode(t: string): (r: Option<string>)
    decreases |t|
  {
    if |t| == 0 then Some("")
    else if |t| < 4 then None
    else
      var group := DecodeQuad(t[0], t[1], t[2], t[3], |t| == 4);
      var rest := Decode(t[4..]);
      if group.None? || rest.None? then None else Some(group.value + rest.value)
  }

  /** The bit regrouping of a three-byte group is undone by the decoder's. */
  lemma RegroupBytes(b0: int, b1: int, b2: int)
    requires 0 <= b0 < 256 && 0 <= b1 < 256 && 0 <= b2 < 256
    ensures (b0 / 4) * 4 + (b0 % 4 * 16 + b1 / 16) / 16 == b0
    ensures (b0 % 4 * 16 + b1 / 16) % 16 * 16 + (b1 % 16 * 4 + b2 / 64) / 4 == b1
    ensures (b1 % 16 * 4 + b2 / 64) % 4 * 64 + b2 % 64 == b2
    ensures (b0 % 4 * 16 + b1 / 16) % 16 * 16 + (b1 % 16 * 4) / 4 == b1
  {
  }

  /** No symbol of the alphabet is the padding character. */
  lemma SymbolNotPad(x: Sextet)
    ensures Symbol(x) != '='
  {
    SymbolRoundTrip(x);
  }

  /** A group of four symbols decodes to the three bytes it encodes. */
  lemma QuadThree(b0: int, b1: int, b2: int, last: bool)
    requires 0 <= b0 < 256 && 0 <= b1 < 256 && 0 <= b2 < 256
    ensures DecodeQuad(Symbol(b0 / 4), Symbol(b0 % 4 * 16 + b1 / 16), Symbol(b1 % 16 * 4 + b2 / 64), Symbol(b2 % 64), last)
      == Some([b0 as char, b1 as char, b2 as char])
  {
    SymbolRoundTrip(b0 / 4);
    SymbolRoundTrip(b0 % 4 * 16 + b1 / 16);
    SymbolRoundTrip(b1 % 16 * 4 + b2 / 64);
    SymbolRoundTrip(b2 % 64);
    SymbolNotPad(b1 % 16 * 4 + b2 / 64);
    SymbolNotPad(b2 % 64);
    RegroupBytes(b0, b1, b2);
  }

  /** A last group with one `=` decodes to the two bytes it encodes. */
  lemma QuadTwo(b0: int, b1: int)
    requires 0 <= b0 < 256 && 0 <= b1 < 256
    ensures DecodeQuad(Symbol(b0 / 4), Symbol(b0 % 4 * 16 + b1 / 16), Symbol(b1 % 16 * 4), '=', true)
      == Some([b0 as char, b1 as char])
  {
    SymbolRoundTrip(b0 / 4);
    SymbolRoundTrip(b0 % 4 * 16 + b1 / 16);
    SymbolRoundTrip(b1 % 16 * 4);
    SymbolNotPad(b1 % 16 * 4);
    RegroupBytes(b0, b1, 0);
  }

  /** A last group with `==` decodes to the one byte it encodes. */
  lemma QuadOne(b0: int)
    requires 0 <= b0 < 256
    ensures DecodeQuad(Symbol(b0 / 4), Symbol(b0 % 4 * 16), '=', '=', true) == Some([b0 as char])
  {
    SymbolRoundTrip(b0 / 4);
    SymbolRoundTrip(b0 % 4 * 16);
    RegroupBytes(b0, 0, 0);
  }

  /** Text of four characters or more decodes as its first group followed by
      the rest. */
  lemma DecodeStep(t: string)
    requires |t| >= 4
    ensures Decode(t) == var g, r := DecodeQuad(t[0], t[1], t[2], t[3], |t| == 4), Decode(t[4..]);
      if g.None? || r.None? then None else Some(g.value + r.value)
  {
  }

  lemma DecodeOneByte(s: ByteString)
    requires |s| == 1
    ensures Decode(Encode(s)) == Some(s)
  {
    var b0 := s[0] as int;
    var t := Encode(s);
    assert t == [Symbol(b0 / 4), Symbol(b0 % 4 * 16), '=', '='];
    QuadOne(b0);
    DecodeStep(t);
    assert [b0 as char] + "" == s;
  }

  lemma DecodeTwoBytes(s: ByteString)
    requires |s| == 2
    ensures Decode(Encode(s)) == Some(s)
  {
    var b0, b1 := s[0] as int, s[1] as int;
    var t := Encode(s);
    assert t == [Symbol(b0 / 4), Symbol(b0 % 4 * 16 + b1 / 16), Symbol(b1 % 16 * 4), '='];
    QuadTwo(b0, b1);
    DecodeStep(t);
    assert [b0 as char, b1 as char] + "" == s;
  }

  /** A full group of four symbols followed by decodable text decodes to the
      group's three bytes followed by that text's bytes. */
  lemma DecodeGroupThen(b0: int, b1: int, b2: int, tail: string)
    requires 0 <= b0 < 256 && 0 <= b1 < 256 && 0 <= b2 < 256
    requires Decode(tail).Some?
    ensures Decode([Symbol(b0 / 4), Symbol(b0 % 4 * 16 + b1 / 16), Symbol(b1 % 16 * 4 + b2 / 64), Symbol(b2 % 64)] + tail)
      == Some([b0 as char, b1 as char, b2 as char] + Decode(tail).value)
  {
    var t := [Symbol(b0 / 4), Symbol(b0 % 4 * 16 + b1 / 16), Symbol(b1 % 16 * 4 + b2 / 64), Symbol(b2 % 64)] + tail;
    assert t[4..] == tail;
    QuadThree(b0, b1, b2, |t| == 4);
    DecodeStep(t);
  }

  lemma FirstThree<T>(s: seq<T>)
    requires |s| >= 3
    ensures [s[0], s[1], s[2]] + s[3..] == s
  {
  }

  /** A leading group of three bytes decodes back when the rest does. */
  lemma DecodeLeadingGroup(s: ByteString, rest: ByteString)
    requires |s| >= 3 && rest == s[3..]
    requires Decode(Encode(rest)) == Some(rest)
    ensures Decode(Encode(s)) == Some(s)
  {
    var b0, b1, b2 := s[0] as int, s[1] as int, s[2] as int;
    var tail := Encode(rest);
    assert Encode(s) == [Symbol(b0 / 4), Symbol(b0 % 4 * 16 + b1 / 16), Symbol(b1 % 16 * 4 + b2 / 64), Symbol(b2 % 64)] + tail;
    DecodeGroupThen(b0, b1, b2, tail);
    assert b0 as char == s[0] && b1 as char == s[1] && b2 as char == s[2];
    FirstThree(s);
  }

  /** Decoding gives back exactly the bytes that were encoded. */
  lemma {:induction false} DecodeEncode(s: ByteString)
    ensures Decode(Encode(s)) == Some(s)
    decreases |s|
  {
    if |s| == 1 {
      DecodeOneByte(s);
    } else if |s| == 2 {
      DecodeTwoBytes(s);
    } else if |s| >= 3 {
      var rest: ByteString := s[3..];
      DecodeEncode(rest);
      DecodeLeadingGroup(s, rest);
    }
  }

  /** The user-pass of section 2 of RFC 7617, split at its first colon. */
  function SplitUserPass(s: string): (r: Option<(string, string)>)
    ensures r.Some? ==> r.value.0 + ":" + r.value.1 == s && ':' !in r.value.0
  {
    if s == [] then None
    else if s[0] == ':' then Some(([], s[1..]))
    else match SplitUserPass(s[1..])
      case Some((user, pass)) => Some(([s[0]] + user, pass))
      case None => None
  }

  /** A user-id without a colon is recovered from `user-id ":" password`. */
  lemma {:induction false} SplitJoined(user: string, pass: string)
    requires ':' !in user
    ensures SplitUserPass(user + ":" + pass) == Some((user, pass))
  {
    if user == [] {
      assert user + ":" + pass == [':'] + pass;
      assert ([':'] + pass)[1..] == pass;
    } else {
      assert user[0] in user;
      assert forall c | c in user[1..] :: c in user;
      assert (user + ":" + pass)[0] == user[0];
      assert (user + ":" + pass)[1..] == user[1..] + ":" + pass;
      SplitJoined(user[1..], pass);
      assert [user[0]] + user[1..] == user;
    }
  }

  /** The credentials a `Basic` authorization header value carries. */
  function ParseBasicAuthorization(header: string): Option<(string, string)> {
    if |header| >= 6 && header[..6] == "Basic " then
      match Decode(header[6..])
      case Some(userPass) => SplitUserPass(userPass)
      case None => None
    else None
  }

  /** A Basic header built from a user-id and a password gives both back. */
  lemma BasicAuthorizationRoundTrip(user: ByteString, pass: ByteString)
    requires ':' !in user
    ensures ParseBasicAuthorization("Basic " + Encode(user + ":" + pass)) == Some((user, pass))
  {
    var joined: ByteString := user + ":" + pass;
    var header := "Basic " + Encode(joined);
    assert header[..6] == "Basic " && header[6..] == Encode(joined);
    DecodeEncode(joined);
    SplitJoined(user, pass);
  }
}
