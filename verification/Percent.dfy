/** UTF-8 and the percent-encoding of form fields (section 2.1 of RFC 3986), as
    the library behind session_peer_core/replies.py applies them. */
module Percent {
  import opened Text

  type Byte = b: int | 0 <= b < 256

  /* ----- UTF-8 ----- */

  function EncodeChar(c: char): (bs: seq<Byte>)
    ensures |bs| == Utf8Width(c)
  {
    var v := c as int;
    if v < 0x80 then [v]
    else if v < 0x800 then [0xC0 + v / 64, 0x80 + v % 64]
    else if v < 0x10000 then [0xE0 + v / 4096, 0x80 + v / 64 % 64, 0x80 + v % 64]
    else [0xF0 + v / 262144, 0x80 + v / 4096 % 64, 0x80 + v / 64 % 64, 0x80 + v % 64]
  }

  function Encode(s: string): seq<Byte> {
    if s == "" then [] else EncodeChar(s[0]) + Encode(s[1..])
  }

  // How many bytes a lead byte announces; 0 when it cannot lead.
  function Announced(b: Byte): nat {
    if b < 0x80 then 1 else if 0xC2 <= b < 0xE0 then 2 else if 0xE0 <= b < 0xF0 then 3 else if 0xF0 <= b < 0xF5 then 4 else 0
  }

  predicate Continues(b: Byte) { 0x80 <= b < 0xC0 }

  predicate SecondOk(lead: Byte, b: Byte) {
    && Continues(b)
    && (lead == 0xE0 ==> 0xA0 <= b) && (lead == 0xED ==> b < 0xA0)
    && (lead == 0xF0 ==> 0x90 <= b) && (lead == 0xF4 ==> b < 0x90)
  }

  function Low(b: Byte): int { b as int - 0x80 }

  const REPLACEMENT := 0xFFFD as char

  // One decoded character and the bytes it takes. The valid start of a broken
  // sequence becomes one replacement character.
  function DecodeOne(bs: seq<Byte>): (r: (char, nat))
    requires bs != []
    ensures 0 < r.1 <= |bs|
  {
    var lead, n := bs[0], Announced(bs[0]);
    if n == 1 then (lead as char, 1)
    else if n == 0 || |bs| < 2 || !SecondOk(lead, bs[1]) then (REPLACEMENT, 1)
    else if n == 2 then (((lead as int - 0xC0) * 64 + Low(bs[1])) as char, 2)
    else if |bs| < 3 || !Continues(bs[2]) then (REPLACEMENT, 2)
    else if n == 3 then (((lead as int - 0xE0) * 4096 + Low(bs[1]) * 64 + Low(bs[2])) as char, 3)
    else if |bs| < 4 || !Continues(bs[3]) then (REPLACEMENT, 3)
    else (((lead as int - 0xF0) * 262144 + Low(bs[1]) * 4096 + Low(bs[2]) * 64 + Low(bs[3])) as char, 4)
  }

  function Decode(bs: seq<Byte>): string
    decreases |bs|
  {
    if bs == [] then "" else [DecodeOne(bs).0] + Decode(bs[DecodeOne(bs).1..])
  }

  lemma TwoBytes(v: int)
    requires 0x80 <= v < 0x800
    ensures 0xC2 <= 0xC0 + v / 64 < 0xE0 && 0x80 <= 0x80 + v % 64 < 0xC0
    ensures v / 64 * 64 + v % 64 == v
  {
  }

  lemma ThreeBytes(v: int)
    requires 0x800 <= v < 0x10000 && !(0xD800 <= v < 0xE000)
    ensures 0xE0 <= 0xE0 + v / 4096 < 0xF0 && SecondOk(0xE0 + v / 4096, 0x80 + v / 64 % 64)
    ensures v / 4096 * 4096 + v / 64 % 64 * 64 + v % 64 == v
  {
    assert v / 64 / 64 == v / 4096;
  }

  lemma FourBytes(v: int)
    requires 0x10000 <= v < 0x11_0000
    ensures 0xF0 <= 0xF0 + v / 262144 < 0xF5 && SecondOk(0xF0 + v / 262144, 0x80 + v / 4096 % 64)
    ensures v / 262144 * 262144 + v / 4096 % 64 * 4096 + v / 64 % 64 * 64 + v % 64 == v
  {
    assert v / 64 / 64 == v / 4096 && v / 4096 / 64 == v / 262144;
  }

  lemma CharDecodes(c: char, rest: seq<Byte>)
    ensures DecodeOne(EncodeChar(c) + rest) == (c, |EncodeChar(c)|)
  {
    var v := c as int;
    var bs := EncodeChar(c) + rest;
    assert forall i :: 0 <= i < |EncodeChar(c)| ==> bs[i] == EncodeChar(c)[i];
    if 0x80 <= v < 0x800 {
      TwoBytes(v);
    } else if 0x800 <= v < 0x10000 {
      ThreeBytes(v);
      hide SecondOk;
    } else if 0x10000 <= v {
      FourBytes(v);
      hide SecondOk;
    }
  }

  lemma {:induction false} Utf8RoundTrip(s: string)
    ensures Decode(Encode(s)) == s
  {
    if s != "" {
      var rest := Encode(s[1..]);
      CharDecodes(s[0], rest);
      assert (EncodeChar(s[0]) + rest)[|EncodeChar(s[0])|..] == rest;
      Utf8RoundTrip(s[1..]);
    }
  }

  /* ----- percent-encoding ----- */

  predicate Digit(c: char) { '0' <= c <= '9' }

  predicate Hex(c: char) { Digit(c) || 'a' <= c <= 'f' || 'A' <= c <= 'F' }

  function HexOf(c: char): (n: nat)
    requires Hex(c)
    ensures n < 16
  {
    if Digit(c) then c as int - '0' as int
    else if c <= 'F' then c as int - 'A' as int + 10 else c as int - 'a' as int + 10
  }

  function UpperHex(n: nat): (c: char)
    requires n < 16
    ensures Hex(c) && HexOf(c) == n
  {
    if n < 10 then ('0' as int + n) as char else ('A' as int + n - 10) as char
  }

  // The characters that are never quoted.
  predicate Unreserved(c: char) {
    'A' <= c <= 'Z' || 'a' <= c <= 'z' || Digit(c) || c == '_' || c == '.' || c == '-' || c == '~'
  }

  function QuoteByte(b: Byte): (s: string)
    ensures s != ""
  {
    if b == 32 then "+"
    else if b < 128 && Unreserved(b as char) then [b as char]
    else ['%', UpperHex(b / 16), UpperHex(b % 16)]
  }

  function QuoteBytes(bs: seq<Byte>): string {
    if bs == [] then "" else QuoteByte(bs[0]) + QuoteBytes(bs[1..])
  }

  function QuotePlus(s: string): string {
    QuoteBytes(Encode(s))
  }

  function Spaces(s: string): (r: string)
    ensures |r| == |s|
  {
    seq(|s|, i requires 0 <= i < |s| => if s[i] == '+' then ' ' else s[i])
  }

  predicate Ascii(s: string) {
    forall i :: 0 <= i < |s| ==> (s[i] as int) < 128
  }

  function UnquoteBytes(s: string): seq<Byte>
    requires Ascii(s)
  {
    if s == "" then []
    else if s[0] == '%' && |s| >= 3 && Hex(s[1]) && Hex(s[2]) then
      [16 * HexOf(s[1]) + HexOf(s[2])] + UnquoteBytes(s[3..])
    else [s[0] as int] + UnquoteBytes(s[1..])
  }

  function AsciiRun(s: string): (n: nat)
    ensures n <= |s| && Ascii(s[..n])
    ensures Ascii(s) ==> n == |s|
  {
    if s == "" || s[0] as int >= 128 then 0 else 1 + AsciiRun(s[1..])
  }

  // Every run of ASCII is unquoted and decoded; other characters stand.
  function Unquote(s: string): string
    decreases |s|
  {
    if s == "" then ""
    else if s[0] as int >= 128 then [s[0]] + Unquote(s[1..])
    else
      var n := AsciiRun(s);
      Decode(UnquoteBytes(s[..n])) + Unquote(s[n..])
  }

  function FieldText(s: string): string {
    Unquote(Spaces(s))
  }

  // No percent sign without two hexadecimal digits after it.
  predicate PercentOk(s: string) {
    forall i :: 0 <= i < |s| && s[i] == '%' ==> i + 2 < |s| && Hex(s[i + 1]) && Hex(s[i + 2])
  }

  // What quoted text is made of.
  predicate QuotedChar(c: char) {
    Unreserved(c) || c == '%' || c == '+'
  }

  predicate QuotedText(s: string) {
    PercentOk(s) && forall i :: 0 <= i < |s| ==> QuotedChar(s[i])
  }

  lemma {:induction false} QuotedIsText(bs: seq<Byte>)
    ensures QuotedText(QuoteBytes(bs))
  {
    if bs != [] {
      QuotedIsText(bs[1..]);
      var head, rest := QuoteByte(bs[0]), QuoteBytes(bs[1..]);
      var s := head + rest;
      assert forall i :: 0 <= i < |rest| ==> s[i + |head|] == rest[i];
      forall i | 0 <= i < |s| && s[i] == '%' ensures i + 2 < |s| && Hex(s[i + 1]) && Hex(s[i + 2]) {
        if i >= |head| { assert rest[i - |head|] == '%'; }
      }
    }
  }

  lemma ByteUnquotes(b: Byte, rest: string)
    requires Ascii(rest)
    ensures Ascii(Spaces(QuoteByte(b)) + rest)
    ensures UnquoteBytes(Spaces(QuoteByte(b)) + rest) == [b] + UnquoteBytes(rest)
  {
    var head := Spaces(QuoteByte(b));
    var s := head + rest;
    assert s[|head|..] == rest;
    if b == 32 {
      assert head == " ";
    } else if b < 128 && Unreserved(b as char) {
      assert head == [b as char];
    } else {
      assert head == QuoteByte(b);
      assert 16 * (b / 16) + b % 16 == b;
    }
  }

  lemma SpacesJoin(a: string, b: string)
    ensures Spaces(a + b) == Spaces(a) + Spaces(b)
  {
  }

  lemma {:induction false} BytesUnquote(bs: seq<Byte>)
    ensures Ascii(Spaces(QuoteBytes(bs))) && UnquoteBytes(Spaces(QuoteBytes(bs))) == bs
  {
    if bs != [] {
      BytesUnquote(bs[1..]);
      ByteUnquotes(bs[0], Spaces(QuoteBytes(bs[1..])));
      SpacesJoin(QuoteByte(bs[0]), QuoteBytes(bs[1..]));
      hide Spaces, QuoteByte, UnquoteBytes;
    }
  }

  // Every text is read back from its quoted form.
  lemma QuoteRoundTrip(s: string)
    ensures FieldText(QuotePlus(s)) == s
  {
    var q := Spaces(QuotePlus(s));
    BytesUnquote(Encode(s));
    Utf8RoundTrip(s);
    if q != "" {
      assert q[0] as int < 128 && q[..|q|] == q && q[|q|..] == "";
      assert Unquote(q) == Decode(UnquoteBytes(q)) + "";
    }
  }
}
