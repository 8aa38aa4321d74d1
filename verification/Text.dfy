/** String formats and result types shared by the models of the private state files. */
module Text {
  datatype Option<+T> = None | Some(value: T)
  datatype Result<+T, +E> = Ok(value: T) | Err(error: E)

  predicate LowerHex(c: char) {
    '0' <= c <= '9' || 'a' <= c <= 'f'
  }

  predicate LowerHexText(s: string) {
    forall i :: 0 <= i < |s| ==> LowerHex(s[i])
  }

  // A canonical lower-case UUID of version 4.
  predicate IsUuid4(s: string) {
    && |s| == 36
    && s[8] == '-' && s[13] == '-' && s[18] == '-' && s[23] == '-'
    && s[14] == '4' && s[19] in "89ab"
    && LowerHexText(s[..8]) && LowerHexText(s[9..13]) && LowerHexText(s[15..18])
    && LowerHexText(s[20..23]) && LowerHexText(s[24..])
  }

  // A SHA-256 digest printed in lower-case hexadecimal.
  predicate IsDigest(s: string) {
    |s| == 64 && LowerHexText(s)
  }

  // C0 and C1 control characters and DEL.
  predicate Control(c: char) {
    c as int < 32 || 127 <= c as int <= 159
  }

  function Utf8Width(c: char): (n: nat)
    ensures 1 <= n <= 4
  {
    var v := c as int;
    if v < 0x80 then 1 else if v < 0x800 then 2 else if v < 0x10000 then 3 else 4
  }

  function Utf8Length(s: string): (n: nat)
    ensures |s| <= n
  {
    if s == [] then 0 else Utf8Width(s[0]) + Utf8Length(s[1..])
  }

  // A bounded, printable identifier. Dafny characters are Unicode scalar
  // values, so surrogates cannot occur.
  predicate IsIdentifier(s: string, limit: nat) {
    && s != ""
    && (forall i :: 0 <= i < |s| ==> !Control(s[i]))
    && Utf8Length(s) <= limit
  }
}
