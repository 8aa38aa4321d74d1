/** Exactly which spelled keys the scanner decodes to their TOML names: an
    eight-digit escape that is decoded twice, or not at all, is never made up for. */
module CodexEscapes {
  import opened Text
  import opened CodexConfig
  import opened CodexKeys

  predicate AllOk(es: seq<KeyElem>) {
    forall i :: 0 <= i < |es| ==> ElemOk(es[i])
  }

  function Named(es: seq<KeyElem>): string
    requires AllOk(es)
  {
    if es == [] then "" else [NameChar(es[0])] + Named(es[1..])
  }

  lemma {:induction false} NamedIsName(es: seq<KeyElem>)
    requires AllOk(es)
    ensures Named(es) == Name(QuotedKey(es))
  {
    if es != [] {
      NamedIsName(es[1..]);
    }
  }

  /* ----- what the JSON decoder is given ----- */

  function Last(e: KeyElem): char {
    PrintElem(e)[|PrintElem(e)| - 1]
  }

  // An element behind a given character, after the first replacement.
  function Given(e: KeyElem, previous: char): (s: string)
    requires ElemOk(e)
    ensures s != ""
  {
    if e.Long? && previous != '\\' then [NameChar(e)] else PrintElem(e)
  }

  function GivenAll(es: seq<KeyElem>, previous: char): (s: string)
    requires AllOk(es)
    ensures s != ""
  {
    if es == [] then "\"" else Given(es[0], previous) + GivenAll(es[1..], Last(es[0]))
  }

  lemma LongKept(digits: string, rest: string)
    requires |digits| == 8 && AllHex(digits)
    ensures LongEscapes(("\\U" + digits) + rest, '\\') == Chars("\\U" + digits, LongEscapes(rest, digits[7]))
  {
    var s := ("\\U" + digits) + rest;
    assert s[0] == '\\' && s[1..] == (['U'] + digits) + rest;
    PlainTextKept(['U'] + digits, rest, '\\');
    hide LongEscapes, Chars;
    CharsTwice("\\", ['U'] + digits, LongEscapes(rest, digits[7]));
    assert "\\" + (['U'] + digits) == "\\U" + digits;
  }

  lemma {:induction false} EscapesReplaced(es: seq<KeyElem>, previous: char)
    requires AllOk(es)
    ensures LongEscapes(PrintElems(es) + "\"", previous) == Ok(GivenAll(es, previous))
  {
    if es == [] {
      assert PrintElems(es) + "\"" == "\"";
      PlainTextKept("\"", "", previous);
      assert "\"" + "" == "\"";
    } else {
      var e, rest := es[0], PrintElems(es[1..]) + "\"";
      assert ElemOk(e);
      assert PrintElems(es) + "\"" == PrintElem(e) + rest;
      EscapesReplaced(es[1..], Last(e));
      if e.Long? && previous == '\\' {
        LongKept(e.digits, rest);
      } else {
        hide LongEscapes;
        ElemConverted(e, rest, previous);
      }
    }
  }

  /* ----- single steps of the JSON decoder ----- */

  predicate Plain(c: char) {
    c != '"' && c != '\\' && c as int >= 32
  }

  lemma {:induction false} PlainDecoded(p: string, rest: string)
    requires forall i :: 0 <= i < |p| ==> Plain(p[i])
    ensures JsonBody(p + rest) == Chars(p, JsonBody(rest))
  {
    if p == "" {
      assert p + rest == rest;
      assert JsonBody(rest).Ok? ==> "" + JsonBody(rest).value == JsonBody(rest).value;
    } else {
      assert (p + rest)[1..] == p[1..] + rest;
      PlainDecoded(p[1..], rest);
      CharsTwice([p[0]], p[1..], JsonBody(rest));
      assert [p[0]] + p[1..] == p;
    }
  }

  lemma EscapeDecoded(c: char, rest: string)
    requires c != 'u'
    ensures JsonBody(['\\', c] + rest) ==
      match ShortEscape(c) case None => Err(InvalidKey) case Some(n) => Chars([n], JsonBody(rest))
  {
    assert (['\\', c] + rest)[2..] == rest;
  }

  // Decoded one for one.
  predicate Faithful(e: KeyElem, previous: char)
    requires ElemOk(e)
  {
    e.Long? ==> previous != '\\' && NameChar(e) != '"' && NameChar(e) != '\\'
  }

  predicate Backslash(e: KeyElem, previous: char)
    requires ElemOk(e)
  {
    e.Long? && previous != '\\' && NameChar(e) == '\\'
  }

  lemma FaithfulDecoded(e: KeyElem, previous: char, rest: string)
    requires ElemOk(e) && Faithful(e, previous)
    ensures JsonBody(Given(e, previous) + rest).Err?
         || JsonBody(Given(e, previous) + rest) == Chars([NameChar(e)], JsonBody(rest))
  {
    var s := Given(e, previous) + rest;
    match e
    case Raw(c) => assert s[1..] == rest;
    case Escaped(c) => assert s[2..] == rest;
    case Short(digits) => assert s[2..6] == digits && s[6..] == rest;
    case Long(_) => assert s[1..] == rest;
  }

  // A kept eight-digit escape is no JSON escape; a bare quote ends the string.
  lemma UnfaithfulRefused(e: KeyElem, previous: char, rest: string)
    requires ElemOk(e) && !Faithful(e, previous) && !Backslash(e, previous) && rest != ""
    ensures JsonBody(Given(e, previous) + rest).Err?
  {
    var s := Given(e, previous) + rest;
    if previous == '\\' {
      assert s[0] == '\\' && s[1] == 'U';
    }
  }

  /* ----- shifted text ----- */

  lemma Behind(p: string, d: string, v: string, t: string)
    requires p + d == v + t && |p| <= |v|
    ensures v[..|p|] == p && d == v[|p|..] + t
  {
    assert (p + d)[..|p|] == p && (p + d)[|p|..] == d;
    assert (v + t)[..|p|] == v[..|p|] && (v + t)[|p|..] == v[|p|..] + t;
  }

  lemma At(p: string, d: string, v: string, t: string)
    requires p + d == v + t && |v| < |p| && t != ""
    ensures t[0] == p[|v|]
  {
    assert (p + d)[|v|] == p[|v|] && (v + t)[|v|] == t[0];
  }

  lemma FirstOf(es: seq<KeyElem>, previous: char)
    requires AllOk(es) && es != []
    ensures ElemOk(es[0]) && AllOk(es[1..])
    ensures Named(es) == [NameChar(es[0])] + Named(es[1..])
    ensures GivenAll(es, previous) == Given(es[0], previous) + GivenAll(es[1..], Last(es[0]))
  {
  }

  // The decoder is at a boundary and the next element is faithful.
  lemma FaithfulStep(es: seq<KeyElem>, previous: char, d: string) returns (d': string)
    requires AllOk(es) && es != [] && Faithful(es[0], previous)
    requires JsonBody(GivenAll(es, previous)) == Ok(d)
    ensures JsonBody(GivenAll(es[1..], Last(es[0]))) == Ok(d') && d == [NameChar(es[0])] + d'
  {
    assert ElemOk(es[0]);
    hide JsonBody, Given, PrintElem, NameChar, ElemOk, Faithful;
    FaithfulDecoded(es[0], previous, GivenAll(es[1..], Last(es[0])));
    d' := JsonBody(GivenAll(es[1..], Last(es[0]))).value;
  }

  lemma Rotate(w: string, c: char, d: string, n: char, t: string)
    requires w != "" && w + ([c] + d) == [n] + t
    ensures w[0] == n && (w[1..] + [c]) + d == t
  {
    var all := w + ([c] + d);
    assert all[0] == w[0] && all[1..] == (w[1..] + [c]) + d;
    assert ([n] + t)[0] == n && ([n] + t)[1..] == t;
  }

  lemma DigitIsFaithful(e: KeyElem, previous: char)
    requires ElemOk(e) && HexDigit(NameChar(e)) && previous != '\\'
    ensures Faithful(e, previous) && Last(e) != '\\'
  {
    LastOfElem(e);
  }

  // Once the decoder has put out digits that the name does not have, it stays
  // ahead: the name would have to go on with the very same digits.
  lemma {:induction false} Lead(es: seq<KeyElem>, previous: char, w: string, d: string)
    requires AllOk(es) && previous != '\\' && w != "" && AllHex(w)
    requires JsonBody(GivenAll(es, previous)) == Ok(d)
    ensures w + d != Named(es)
    decreases |es|
  {
    if es != [] && w + d == Named(es) {
      FirstOf(es, previous);
      hide JsonBody, GivenAll, Named, PrintElem, NameChar, ElemOk, Faithful, HexDigit;
      assert (w + d)[0] == w[0] && Named(es)[0] == NameChar(es[0]);
      DigitIsFaithful(es[0], previous);
      var d' := FaithfulStep(es, previous, d);
      Rotate(w, NameChar(es[0]), d', NameChar(es[0]), Named(es[1..]));
      Lead(es[1..], Last(es[0]), w[1..] + [NameChar(es[0])], d');
    }
  }

  /* ----- a decoder that has fallen behind stays behind ----- */

  lemma Pushed(v: string, n: char, t: string, d: string)
    requires v != "" && v + ([n] + t) == [n] + d
    ensures d == (v[1..] + [n]) + t
  {
    assert (v + ([n] + t))[1..] == (v[1..] + [n]) + t && ([n] + d)[1..] == d;
  }

  // v is what the name has and the decoder has not put out yet.
  lemma {:induction false} Lag(es: seq<KeyElem>, previous: char, v: string)
    requires AllOk(es) && v != ""
    ensures JsonBody(GivenAll(es, previous)) != Ok(v + Named(es))
    decreases |es|, 2
  {
    if es == [] {
      assert |v + Named(es)| > 0;
    } else if JsonBody(GivenAll(es, previous)) == Ok(v + Named(es)) {
      var e, later := es[0], GivenAll(es[1..], Last(es[0]));
      FirstOf(es, previous);
      if Faithful(e, previous) {
        hide JsonBody, GivenAll, Named, PrintElem, NameChar, ElemOk, Faithful;
        var d := FaithfulStep(es, previous, v + Named(es));
        Pushed(v, NameChar(e), Named(es[1..]), d);
        Lag(es[1..], Last(e), v[1..] + [NameChar(e)]);
      } else if Backslash(e, previous) {
        assert Given(e, previous) == "\\" && [NameChar(e)] == "\\";
        hide JsonBody, GivenAll, Named;
        Dangling(es[1..], Last(e), v);
      } else {
        hide JsonBody;
        UnfaithfulRefused(e, previous, later);
      }
    }
  }

  // The decoder has put out p for a backslash and the names m: it is behind,
  // or p has a backslash where the name has it.
  lemma {:induction false} Overtaken(es: seq<KeyElem>, previous: char, p: string, d: string, v: string, m: string)
    requires AllOk(es) && JsonBody(GivenAll(es, previous)) == Ok(d)
    requires p + d == v + ("\\" + (m + Named(es)))
    ensures |v| < |p| && p[|v|] == '\\'
    decreases |es|, 3
  {
    hide JsonBody, GivenAll, Named;
    if |p| <= |v| {
      Behind(p, d, v, "\\" + (m + Named(es)));
      assert v[|p|..] + ("\\" + (m + Named(es))) == (v[|p|..] + "\\" + m) + Named(es);
      Lag(es, previous, v[|p|..] + "\\" + m);
    } else {
      At(p, d, v, "\\" + (m + Named(es)));
    }
  }

  lemma DropBoth(a: string, b: string, c: string)
    requires a + b == a + c
    ensures b == c
  {
    assert (a + b)[|a|..] == b && (a + c)[|a|..] == c;
  }

  /* ----- a backslash in front of the rest is read together with what follows ----- */

  // Digits of an escape that the backslash takes apart are plain characters.
  lemma DigitsBehind(mark: char, digits: string, rest: string)
    requires (mark == 'u' || mark == 'U') && AllHex(digits)
    ensures JsonBody("\\" + ((['\\', mark] + digits) + rest)) == Chars("\\" + ([mark] + digits), JsonBody(rest))
  {
    var p := [mark] + digits;
    assert "\\" + ((['\\', mark] + digits) + rest) == ['\\', '\\'] + (p + rest);
    EscapeDecoded('\\', p + rest);
    PlainDecoded(p, rest);
    hide JsonBody;
    CharsTwice("\\", p, JsonBody(rest));
  }

  lemma EscapeBehind(c: char, rest: string)
    requires EscapeLetter(c) && rest != ""
    ensures JsonBody("\\" + (['\\', c] + rest)) ==
      if c == '"' then Err(InvalidKey)
      else if c == '\\' then Chars("\\", JsonBody("\\" + rest))
      else Chars(['\\', c], JsonBody(rest))
  {
    assert "\\" + (['\\', c] + rest) == ['\\', '\\'] + ([c] + rest);
    EscapeDecoded('\\', [c] + rest);
    if c == '"' {
      assert ([c] + rest)[0] == '"' && |[c] + rest| > 1;
    } else if c != '\\' {
      PlainDecoded([c], rest);
      CharsTwice("\\", [c], JsonBody(rest));
      assert "\\" + [c] == ['\\', c];
    }
  }

  lemma {:induction false} Dangling(es: seq<KeyElem>, previous: char, v: string)
    requires AllOk(es)
    ensures JsonBody("\\" + GivenAll(es, previous)) != Ok(v + ("\\" + Named(es)))
    decreases |es|, 1
  {
    hide JsonBody, Named, HexValue;
    if es == [] {
      assert "\\" + GivenAll(es, previous) == ['\\', '"'] + "";
      EscapeDecoded('"', "");
      EmptyRefused();
    } else {
      assert ElemOk(es[0]);
      hide GivenAll;
      LastOfElem(es[0]);
      if es[0].Escaped? {
        DanglingEscaped(es, previous, v);
      } else if es[0].Short? {
        DanglingDigits(es, previous, v, 'u', es[0].digits);
      } else if es[0].Long? && previous == '\\' {
        DanglingDigits(es, previous, v, 'U', es[0].digits);
      } else if NameChar(es[0]) == 'u' {
        DanglingHex(es, previous, v);
      } else {
        DanglingChar(es, previous, v);
      }
    }
  }

  lemma EmptyRefused()
    ensures JsonBody("").Err?
  {
  }

  lemma CharBehind(x: char, rest: string)
    requires x != 'u'
    ensures JsonBody("\\" + ([x] + rest)).Err?
      || exists n :: (n == '\\' ==> x == '\\') && JsonBody("\\" + ([x] + rest)) == Chars([n], JsonBody(rest))
  {
    assert "\\" + ([x] + rest) == ['\\', x] + rest;
    EscapeDecoded(x, rest);
  }

  lemma {:induction false} DanglingChar(es: seq<KeyElem>, previous: char, v: string)
    requires AllOk(es) && es != [] && (es[0].Raw? || (es[0].Long? && previous != '\\')) && NameChar(es[0]) != 'u'
    ensures JsonBody("\\" + GivenAll(es, previous)) != Ok(v + ("\\" + Named(es)))
    decreases |es|, 0
  {
    hide JsonBody, GivenAll, Named, HexValue;
    FirstOf(es, previous);
    var e, later, x := es[0], GivenAll(es[1..], Last(es[0])), NameChar(es[0]);
    assert Given(e, previous) == [x];
    CharBehind(x, later);
    if JsonBody("\\" + GivenAll(es, previous)) == Ok(v + ("\\" + Named(es))) {
      hide NameChar, Given;
      var n :| (n == '\\' ==> x == '\\') && JsonBody("\\" + ([x] + later)) == Chars([n], JsonBody(later));
      var d := JsonBody(later).value;
      Overtaken(es[1..], Last(e), [n], d, v, [x]);
      assert v == "" && v + ("\\" + ([x] + Named(es[1..]))) == "\\" + ("\\" + Named(es[1..]));
      DropBoth("\\", d, "\\" + Named(es[1..]));
      Lag(es[1..], Last(e), "\\");
    }
  }

  lemma {:induction false} DanglingDigits(es: seq<KeyElem>, previous: char, v: string, mark: char, digits: string)
    requires AllOk(es) && es != [] && Given(es[0], previous) == ['\\', mark] + digits
    requires (mark == 'u' || mark == 'U') && digits != "" && AllHex(digits) && Last(es[0]) != '\\'
    ensures JsonBody("\\" + GivenAll(es, previous)) != Ok(v + ("\\" + Named(es)))
    decreases |es|, 0
  {
    hide JsonBody, GivenAll, Named, NameChar, PrintElem, Given, HexDigit;
    FirstOf(es, previous);
    var e, later, t := es[0], GivenAll(es[1..], Last(es[0])), Named(es[1..]);
    var n, p := NameChar(e), [mark] + digits;
    DigitsBehind(mark, digits, later);
    if JsonBody("\\" + GivenAll(es, previous)) == Ok(v + ("\\" + Named(es))) {
      var d := JsonBody(later).value;
      Overtaken(es[1..], Last(e), "\\" + p, d, v, [n]);
      assert v == "" by {
        PlainDigits(mark, digits);
      }
      assert v + ("\\" + ([n] + t)) == "\\" + ([n] + t);
      assert ("\\" + p) + d == "\\" + (p + d);
      DropBoth("\\", p + d, [n] + t);
      assert (p + d)[1..] == digits + d && ([n] + t)[1..] == t;
      Lead(es[1..], Last(e), digits, d);
    }
  }

  lemma PlainDigits(mark: char, digits: string)
    requires (mark == 'u' || mark == 'U') && AllHex(digits)
    ensures forall i :: 0 <= i < |[mark] + digits| ==> ([mark] + digits)[i] != '\\'
  {
  }

  lemma {:induction false} DanglingEscaped(es: seq<KeyElem>, previous: char, v: string)
    requires AllOk(es) && es != [] && es[0].Escaped?
    ensures JsonBody("\\" + GivenAll(es, previous)) != Ok(v + ("\\" + Named(es)))
    decreases |es|, 0
  {
    hide JsonBody, GivenAll, Named;
    FirstOf(es, previous);
    var c, later, t := es[0].c, GivenAll(es[1..], Last(es[0])), Named(es[1..]);
    var n := NameChar(es[0]);
    assert Last(es[0]) == c && (c != '\\' && c != '"' ==> n != c) && (c == '\\' ==> n == c);
    assert Given(es[0], previous) == ['\\', c];
    EscapeBehind(c, later);
    hide NameChar, Given, PrintElem, ShortEscape, EscapeLetter;
    if JsonBody("\\" + GivenAll(es, previous)) == Ok(v + ("\\" + Named(es))) {
      if c == '\\' {
        DanglingTwice(es[1..], v, JsonBody("\\" + later).value);
      } else {
        var d := JsonBody(later).value;
        Overtaken(es[1..], c, ['\\', c], d, v, [n]);
        assert v == "" && v + ("\\" + ([n] + t)) == "\\" + ([n] + t) && ['\\', c] + d == "\\" + ([c] + d);
        DropBoth("\\", [c] + d, [n] + t);
        HeadsDiffer(c, d, n, t);
      }
    }
  }

  lemma HeadsDiffer(a: char, s: string, b: char, t: string)
    requires a != b
    ensures [a] + s != [b] + t
  {
    assert ([a] + s)[0] == a && ([b] + t)[0] == b;
  }

  // Behind an escaped backslash the second backslash dangles in turn.
  lemma {:induction false} DanglingTwice(es: seq<KeyElem>, v: string, d: string)
    requires AllOk(es) && JsonBody("\\" + GivenAll(es, '\\')) == Ok(d)
    ensures "\\" + d != v + ("\\" + (['\\'] + Named(es)))
    decreases |es|, 4
  {
    hide JsonBody, GivenAll, Named;
    var t := "\\" + Named(es);
    if "\\" + d == v + ("\\" + (['\\'] + Named(es))) {
      if v == "" {
        assert v + ("\\" + t) == "\\" + t;
        DropBoth("\\", d, t);
        assert "" + t == t;
        Dangling(es, '\\', "");
      } else {
        Behind("\\", d, v, "\\" + t);
        assert v[1..] + ("\\" + t) == (v[1..] + "\\") + t;
        Dangling(es, '\\', v[1..] + "\\");
      }
    }
  }

  /* ----- a backslash in front of the letter u ----- */

  lemma DigitGiven(e: KeyElem, previous: char, rest: string)
    requires ElemOk(e) && previous != '\\' && HexDigit((Given(e, previous) + rest)[0])
    ensures Given(e, previous) == [NameChar(e)] && Last(e) != '\\'
  {
    DigitIsFaithful(e, previous);
  }

  lemma DigitsNeedElements(es: seq<KeyElem>, previous: char, h: string, rest: string)
    requires AllOk(es) && GivenAll(es, previous) == h + rest && AllHex(h) && h != ""
    ensures es != [] && GivenAll(es, previous)[0] == h[0] && HexDigit(h[0])
    ensures GivenAll(es, previous)[1..] == h[1..] + rest && AllHex(h[1..])
  {
    assert (h + rest)[0] == h[0] && (h + rest)[1..] == h[1..] + rest;
    hide Given;
  }

  // Hexadecimal digits at the front come from one element each.
  lemma {:induction false} HexTaken(es: seq<KeyElem>, previous: char, h: string, rest: string) returns (last: char)
    requires AllOk(es) && previous != '\\' && GivenAll(es, previous) == h + rest && AllHex(h)
    ensures |h| <= |es| && last != '\\' && AllOk(es[|h|..])
    ensures rest == GivenAll(es[|h|..], last) && Named(es) == h + Named(es[|h|..])
    decreases |h|
  {
    hide GivenAll, Named, Given, NameChar, HexDigit, PrintElem, ElemOk;
    if h == "" {
      last := previous;
      assert es[0..] == es && h + rest == rest && h + Named(es) == Named(es);
    } else {
      DigitsNeedElements(es, previous, h, rest);
      FirstOf(es, previous);
      var x, later := NameChar(es[0]), GivenAll(es[1..], Last(es[0]));
      DigitGiven(es[0], previous, later);
      assert ([x] + later)[0] == x && ([x] + later)[1..] == later;
      last := HexTaken(es[1..], Last(es[0]), h[1..], rest);
      assert es[1..][|h| - 1..] == es[|h|..];
      assert [x] + (h[1..] + Named(es[|h|..])) == h + Named(es[|h|..]);
    }
  }

  // What a letter u behind a backslash can mean to the decoder.
  datatype Unicode = One(h: string, rest: string) | Pair(h: string, l: string, rest: string)

  lemma UnicodeBehind(text: string) returns (r: Unicode, c: char)
    requires JsonBody("\\" + ("u" + text)).Ok?
    ensures |r.h| == 4 && AllHex(r.h)
    ensures JsonBody("\\" + ("u" + text)) == Chars([c], JsonBody(r.rest))
    ensures r.One? ==> text == r.h + r.rest
    ensures r.Pair? ==>
      text == r.h + ("\\u" + (r.l + r.rest)) && |r.l| == 4 && AllHex(r.l) && !Scalar(HexValue(r.l)) && c != '\\'
  {
    var s := "\\" + ("u" + text);
    assert s[1] == 'u' && s[2..] == text;
    assert s[2..6] == text[..4] && s[6..] == text[4..];
    var h, n := text[..4], HexValue(text[..4]);
    if Scalar(n) {
      r, c := One(h, text[4..]), n as char;
      assert text == h + text[4..];
    } else {
      assert s[8..12] == text[6..10] && s[12..] == text[10..];
      r, c := Pair(h, text[6..10], text[10..]), (0x10000 + (n - 0xD800) * 1024 + (HexValue(text[6..10]) - 0xDC00)) as char;
      assert text[4] == '\\' && text[5] == 'u';
      assert text == h + ("\\u" + (text[6..10] + text[10..]));
    }
  }

  lemma {:induction false} DanglingHex(es: seq<KeyElem>, previous: char, v: string)
    requires AllOk(es) && es != [] && (es[0].Raw? || (es[0].Long? && previous != '\\')) && NameChar(es[0]) == 'u'
    ensures JsonBody("\\" + GivenAll(es, previous)) != Ok(v + ("\\" + Named(es)))
    decreases |es|, 0
  {
    hide JsonBody, GivenAll, Named, HexValue;
    FirstOf(es, previous);
    LastOfElem(es[0]);
    var before, later := Last(es[0]), GivenAll(es[1..], Last(es[0]));
    assert before != '\\' && Given(es[0], previous) == "u" && [NameChar(es[0])] == "u";
    hide NameChar, PrintElem, Given, AllHex;
    if JsonBody("\\" + GivenAll(es, previous)) == Ok(v + ("\\" + Named(es))) {
      var r, c := UnicodeBehind(later);
      match r
      case One(h, rest) => HexScalar(es[1..], before, v, h, rest, c, JsonBody(rest).value);
      case Pair(h, l, rest) => HexPair(es[1..], before, v, h, l, rest, c, JsonBody(rest).value);
    }
  }

  lemma {:induction false} HexScalar(es: seq<KeyElem>, previous: char, v: string, h: string, rest: string, c: char, d: string)
    requires AllOk(es) && previous != '\\' && GivenAll(es, previous) == h + rest && |h| == 4 && AllHex(h)
    requires JsonBody(rest) == Ok(d)
    ensures [c] + d != v + ("\\" + ("u" + Named(es)))
    decreases |es|, 4
  {
    hide JsonBody, GivenAll, Named, AllHex;
    var last := HexTaken(es, previous, h, rest);
    var left, m := es[4..], "u" + h;
    var t := m + Named(left);
    assert "u" + (h + Named(left)) == t;
    if [c] + d == v + ("\\" + t) {
      Overtaken(left, last, [c], d, v, m);
      assert v == "" && v + ("\\" + t) == "\\" + t;
      DropBoth("\\", d, t);
      Lag(left, last, m);
    }
  }

  lemma {:induction false} HexPair(
      es: seq<KeyElem>, previous: char, v: string, h: string, l: string, rest: string, c: char, d: string)
    requires AllOk(es) && previous != '\\' && GivenAll(es, previous) == h + ("\\u" + (l + rest))
    requires |h| == |l| == 4 && AllHex(h) && AllHex(l) && !Scalar(HexValue(l)) && c != '\\'
    requires JsonBody(rest) == Ok(d)
    ensures [c] + d != v + ("\\" + ("u" + Named(es)))
    decreases |es|, 4
  {
    hide JsonBody, GivenAll, Named, AllHex, HexValue, Scalar;
    var last := HexTaken(es, previous, h, "\\u" + (l + rest));
    var half := es[4..];
    SurrogateTaken(half, last, l, rest);
    LetterTaken(half[1..], Last(half[0]), l + rest);
    var digits, before := half[1..][1..], Last(half[1..][0]);
    var last2 := HexTaken(digits, before, l, rest);
    var left, m := digits[4..], "u" + h + "\\u" + l;
    assert "u" + (h + ("\\" + ("u" + (l + Named(left))))) == m + Named(left);
    if [c] + d == v + ("\\" + (m + Named(left))) {
      Overtaken(left, last2, [c], d, v, m);
    }
  }

  // Half a surrogate pair can only start with a backslash that was replaced.
  lemma SurrogateTaken(es: seq<KeyElem>, previous: char, l: string, rest: string)
    requires AllOk(es) && previous != '\\' && GivenAll(es, previous) == "\\u" + (l + rest)
    requires |l| == 4 && AllHex(l) && !Scalar(HexValue(l))
    ensures es != [] && AllOk(es[1..]) && Last(es[0]) != '\\'
    ensures GivenAll(es[1..], Last(es[0])) == "u" + (l + rest) && Named(es) == "\\" + Named(es[1..])
  {
    var text := GivenAll(es, previous);
    assert text[0] == '\\' && text[1] == 'u' && text[2..6] == l && text[1..] == "u" + (l + rest);
    assert es != [];
    FirstOf(es, previous);
    hide GivenAll, Named, HexValue;
    var e, later := es[0], GivenAll(es[1..], Last(es[0]));
    BackslashFirst(e, previous, l, later);
    assert ("\\" + later)[1..] == later;
  }

  lemma BackslashFirst(e: KeyElem, previous: char, l: string, later: string)
    requires ElemOk(e) && previous != '\\' && |Given(e, previous) + later| >= 6
    requires var text := Given(e, previous) + later; text[0] == '\\' && text[1] == 'u' && text[2..6] == l
    requires |l| == 4 && AllHex(l) && !Scalar(HexValue(l))
    ensures Given(e, previous) == "\\" && NameChar(e) == '\\' && Last(e) != '\\'
  {
    LastOfElem(e);
    hide HexValue;
    var digits := if e.Short? then e.digits else l;
    assert (("\\u" + digits) + later)[2..6] == digits;
  }

  lemma LetterTaken(es: seq<KeyElem>, previous: char, rest: string)
    requires AllOk(es) && previous != '\\' && GivenAll(es, previous) == "u" + rest
    ensures es != [] && AllOk(es[1..]) && Last(es[0]) != '\\'
    ensures GivenAll(es[1..], Last(es[0])) == rest && Named(es) == "u" + Named(es[1..])
  {
    assert GivenAll(es, previous)[0] == 'u' && ("u" + rest)[1..] == rest;
    assert es != [];
    FirstOf(es, previous);
    hide GivenAll, Named, HexValue;
    LastOfElem(es[0]);
    var e, later := es[0], GivenAll(es[1..], Last(es[0]));
    assert Given(e, previous) == "u" && [NameChar(e)] == "u";
    assert ("u" + later)[1..] == later;
  }

  /* ----- exactly the readable keys ----- */

  function Before(es: seq<KeyElem>, i: nat, previous: char): char
    requires i < |es|
  {
    if i == 0 then previous else Last(es[i - 1])
  }

  lemma {:induction false} ExactMeansFaithful(es: seq<KeyElem>, previous: char)
    requires AllOk(es) && JsonBody(GivenAll(es, previous)) == Ok(Named(es))
    ensures forall i :: 0 <= i < |es| ==> Faithful(es[i], Before(es, i, previous))
  {
    if es != [] {
      FirstOf(es, previous);
      var e, later := es[0], GivenAll(es[1..], Last(es[0]));
      hide JsonBody, GivenAll, Named;
      if Backslash(e, previous) {
        assert Given(e, previous) == "\\" && [NameChar(e)] == "\\";
        assert "" + ("\\" + Named(es[1..])) == "\\" + Named(es[1..]);
        Dangling(es[1..], Last(e), "");
      } else if !Faithful(e, previous) {
        UnfaithfulRefused(e, previous, later);
      } else {
        hide Faithful, NameChar, ElemOk, PrintElem;
        var d := FaithfulStep(es, previous, Named(es));
        DropBoth([NameChar(e)], Named(es[1..]), d);
        ExactMeansFaithful(es[1..], Last(e));
        forall i | 0 < i < |es| ensures Faithful(es[i], Before(es, i, previous)) {
          assert es[i] == es[1..][i - 1] && Before(es, i, previous) == Before(es[1..], i - 1, Last(e));
        }
      }
    }
  }

  lemma FaithfulIsSafe(es: seq<KeyElem>, i: nat)
    requires AllOk(es) && i < |es| && Faithful(es[i], Before(es, i, '"'))
    ensures LongSafe(es, i)
  {
    hide NameChar;
  }

  lemma BasicDecoded(elems: seq<KeyElem>)
    requires AllOk(elems)
    ensures BasicKey("\"" + PrintElems(elems) + "\"") == JsonBody(GivenAll(elems, '"'))
  {
    var text, tail, given := "\"" + PrintElems(elems) + "\"", PrintElems(elems) + "\"", GivenAll(elems, '"');
    assert text == "\"" + tail;
    PlainTextKept("\"", tail, ' ');
    hide LongEscapes, JsonBody, PrintElems, GivenAll;
    EscapesReplaced(elems, '"');
    assert ("\"" + given)[1..] == given;
  }

  lemma QuotedReadOnlyIf(elems: seq<KeyElem>)
    requires AllOk(elems) && BasicKey("\"" + PrintElems(elems) + "\"") == Ok(Name(QuotedKey(elems)))
    ensures forall i :: 0 <= i < |elems| ==> LongSafe(elems, i)
  {
    hide BasicKey, JsonBody, PrintElems, GivenAll, LongSafe, Faithful, Named, Name, ElemOk;
    BasicDecoded(elems);
    NamedIsName(elems);
    ExactMeansFaithful(elems, '"');
    forall i | 0 <= i < |elems| ensures LongSafe(elems, i) {
      FaithfulIsSafe(elems, i);
    }
  }

  lemma NoBadCharacters(token: Token, name: string)
    requires Segment(token) == Ok(name)
    ensures NameReadable(name)
    ensures token.Str? && token.text != "" && token.text[0] == '"' ==> BasicKey(token.text) == Ok(name)
  {
    hide BasicKey, HasBadChar;
    assert !HasBadChar(name);
    NoneIsBad(name);
  }

  lemma NoneIsBad(name: string)
    requires !HasBadChar(name)
    ensures NameReadable(name)
  {
  }

  // A key part is decoded to the name TOML gives it if and only if it is
  // readable: nothing the decoder does to an unsafe escape comes out right.
  lemma PartReadIff(part: KeyPart)
    requires PartOk(part)
    ensures Segment(PartToken(part)) == Ok(Name(part)) <==> Readable(part)
  {
    hide Segment, BasicKey, PrintElems, LongSafe;
    if Readable(part) {
      PartRead(part);
    }
    if Segment(PartToken(part)) == Ok(Name(part)) {
      NoBadCharacters(PartToken(part), Name(part));
      if part.QuotedKey? {
        assert ("\"" + PrintElems(part.elems) + "\"")[0] == '"';
        QuotedReadOnlyIf(part.elems);
      }
    }
  }
}
