/** The length of compact JSON text, as the Python encoder writes it. */
module Json {
  import opened Text

  /* ----- numbers ----- */

  function Digits(n: nat): nat {
    if n < 10 then 1 else 1 + Digits(n / 10)
  }

  function JsonInt(n: int): nat {
    if n < 0 then 1 + Digits(-n) else Digits(n)
  }

  function Pow10(k: nat): nat {
    if k == 0 then 1 else 10 * Pow10(k - 1)
  }

  lemma {:induction false} DigitsBound(n: nat, k: nat)
    requires 1 <= k && n < Pow10(k)
    ensures Digits(n) <= k
  {
    if n >= 10 {
      assert Pow10(1) == 10;
      DigitsBound(n / 10, k - 1);
    }
  }

  lemma {:induction false} DigitsAtLeast(n: nat, k: nat)
    requires Pow10(k) <= n
    ensures Digits(n) > k
  {
    if k > 0 {
      DigitsAtLeast(n / 10, k - 1);
    }
  }

  /* ----- text written as UTF-8 ----- */

  predicate ShortEscaped(c: char) {
    c == '"' || c == '\\' || c == '\n' || c == '\r' || c == '\t' || c as int == 8 || c as int == 12
  }

  function JsonChar(c: char): (n: nat)
    ensures 1 <= n <= 6
  {
    if ShortEscaped(c) then 2 else if c as int < 32 then 6 else Utf8Width(c)
  }

  function JsonChars(s: string): nat {
    if s == [] then 0 else JsonChar(s[0]) + JsonChars(s[1..])
  }

  function JsonText(s: string): nat { 2 + JsonChars(s) }

  lemma JsonCharsBounds(s: string)
    ensures JsonChars(s) <= 6 * |s|
    ensures (forall i :: 0 <= i < |s| ==> !Control(s[i])) ==> JsonChars(s) <= 2 * Utf8Length(s)
  {
    if s != [] {
      JsonCharsBounds(s[1..]);
    }
  }

  // Printable ASCII without quotes and backslashes is written as it is.
  predicate PlainChar(c: char) {
    32 <= c as int < 127 && c != '"' && c != '\\'
  }

  predicate PlainText(s: string) {
    forall i :: 0 <= i < |s| ==> PlainChar(s[i])
  }

  lemma {:induction false} PlainJson(s: string)
    requires PlainText(s)
    ensures JsonChars(s) == |s| && AsciiChars(s) == |s|
  {
    if s != [] {
      PlainJson(s[1..]);
    }
  }

  /* ----- text written in ASCII only ----- */

  // Everything but printable ASCII is written as one or two escapes of six.
  function AsciiChar(c: char): (n: nat)
    ensures 1 <= n <= 12
  {
    if ShortEscaped(c) then 2
    else if c as int < 32 || c as int >= 127 then (if c as int < 0x10000 then 6 else 12)
    else 1
  }

  function AsciiChars(s: string): (n: nat)
    ensures |s| <= n
  {
    if s == [] then 0 else AsciiChar(s[0]) + AsciiChars(s[1..])
  }

  function AsciiText(s: string): nat { 2 + AsciiChars(s) }

  lemma {:induction false} WideChars(s: string)
    requires forall i :: 0 <= i < |s| ==> 127 <= s[i] as int < 0x10000
    ensures AsciiChars(s) == 6 * |s|
  {
    if s != [] {
      WideChars(s[1..]);
    }
  }
}
