/** Keys as TOML spells them, and when the scanner decodes them to the names
    TOML gives them (section Keys and section String of TOML v1.0.0). */
module CodexKeys {
  import opened Text
  import opened CodexConfig
  import opened CodexLayout
  import opened CodexDocument
  import opened CodexAccepted

  datatype KeyElem = Raw(c: char) | Escaped(c: char) | Short(digits: string) | Long(digits: string)

  datatype KeyPart = BareKey(text: string) | LiteralKey(text: string) | QuotedKey(elems: seq<KeyElem>)

  predicate EscapeLetter(c: char) {
    c == '"' || c == '\\' || c == 'b' || c == 't' || c == 'n' || c == 'f' || c == 'r'
  }

  predicate ElemOk(e: KeyElem) {
    match e
    case Raw(c) => c != '"' && c != '\\' && c != '\n' && c != '\r'
    case Escaped(c) => EscapeLetter(c)
    case Short(digits) => |digits| == 4 && AllHex(digits) && Scalar(HexValue(digits))
    case Long(digits) => |digits| == 8 && AllHex(digits) && Scalar(HexValue(digits))
  }

  predicate PartOk(part: KeyPart) {
    match part
    case BareKey(text) => text != "" && forall i :: 0 <= i < |text| ==> KeyChar(text[i])
    case LiteralKey(text) => forall i :: 0 <= i < |text| ==> text[i] != '\'' && text[i] != '\n' && text[i] != '\r'
    case QuotedKey(elems) => forall i :: 0 <= i < |elems| ==> ElemOk(elems[i])
  }

  // The character an element stands for.
  function NameChar(e: KeyElem): char
    requires ElemOk(e)
  {
    match e
    case Raw(c) => c
    case Escaped(c) => ShortEscape(c).value
    case Short(digits) => HexValue(digits) as char
    case Long(digits) => HexValue(digits) as char
  }

  function Name(part: KeyPart): string
    requires PartOk(part)
  {
    match part
    case BareKey(text) => text
    case LiteralKey(text) => text
    case QuotedKey(elems) => seq(|elems|, i requires 0 <= i < |elems| => NameChar(elems[i]))
  }

  function PrintElem(e: KeyElem): (s: string)
    ensures s != ""
  {
    match e
    case Raw(c) => [c]
    case Escaped(c) => ['\\', c]
    case Short(digits) => "\\u" + digits
    case Long(digits) => "\\U" + digits
  }

  function PrintElems(es: seq<KeyElem>): string {
    if es == [] then "" else PrintElem(es[0]) + PrintElems(es[1..])
  }

  function PartToken(part: KeyPart): Token {
    match part
    case BareKey(text) => Bare(text)
    case LiteralKey(text) => Str("'" + text + "'")
    case QuotedKey(elems) => Str("\"" + PrintElems(elems) + "\"")
  }

  function KeyOf(parts: seq<KeyPart>): seq<Token> {
    if parts == [] then []
    else if |parts| == 1 then [PartToken(parts[0])]
    else [PartToken(parts[0]), Punct('.')] + KeyOf(parts[1..])
  }

  // Eight-digit escapes are replaced before the rest is decoded, so one that
  // stands for a quote or a backslash is decoded twice, and one right behind
  // an escaped backslash is not replaced at all.
  predicate LongSafe(elems: seq<KeyElem>, i: nat)
    requires i < |elems| && ElemOk(elems[i])
  {
    elems[i].Long? ==>
      && NameChar(elems[i]) != '"' && NameChar(elems[i]) != '\\'
      && (i > 0 ==> elems[i - 1] != Escaped('\\'))
  }

  predicate Readable(part: KeyPart) {
    && PartOk(part)
    && (forall i :: 0 <= i < |Name(part)| ==> !BadChar(Name(part)[i]))
    && (part.QuotedKey? ==> forall i :: 0 <= i < |part.elems| ==> LongSafe(part.elems, i))
  }

  /* ----- replacing the eight-digit escapes ----- */

  // What an element looks like to the JSON decoder.
  function Converted(e: KeyElem): string
    requires ElemOk(e)
  {
    if e.Long? then [NameChar(e)] else PrintElem(e)
  }

  function ConvertedAll(es: seq<KeyElem>): string
    requires forall i :: 0 <= i < |es| ==> ElemOk(es[i])
  {
    if es == [] then "" else Converted(es[0]) + ConvertedAll(es[1..])
  }

  lemma {:induction false} PlainTextKept(p: string, rest: string, previous: char)
    requires p != "" && forall i :: 0 <= i < |p| ==> p[i] != '\\'
    ensures LongEscapes(p + rest, previous) == Chars(p, LongEscapes(rest, p[|p| - 1]))
  {
    assert (p + rest)[1..] == p[1..] + rest;
    if |p| > 1 {
      PlainTextKept(p[1..], rest, p[0]);
      CharsTwice([p[0]], p[1..], LongEscapes(rest, p[|p| - 1]));
      assert [p[0]] + p[1..] == p;
    } else {
      assert p[1..] + rest == rest && p == [p[0]];
    }
  }

  lemma CharsTwice(a: string, b: string, r: Result<string, ConfigError>)
    ensures Chars(a, Chars(b, r)) == Chars(a + b, r)
  {
    if r.Ok? {
      assert a + (b + r.value) == a + b + r.value;
    }
  }

  lemma BackslashKept(c: char, rest: string, previous: char)
    requires c != 'U'
    ensures LongEscapes(['\\', c] + rest, previous) == Chars("\\", LongEscapes([c] + rest, '\\'))
  {
    assert (['\\', c] + rest)[1..] == [c] + rest;
  }

  lemma EscapedConverted(c: char, rest: string, previous: char)
    requires EscapeLetter(c)
    ensures LongEscapes(['\\', c] + rest, previous) == Chars(['\\', c], LongEscapes(rest, c))
  {
    BackslashKept(c, rest, previous);
    assert LongEscapes([c] + rest, '\\') == Chars([c], LongEscapes(rest, c)) by {
      assert ([c] + rest)[1..] == rest;
    }
    hide LongEscapes, Chars;
    CharsTwice("\\", [c], LongEscapes(rest, c));
    assert "\\" + [c] == ['\\', c];
  }

  lemma ShortConverted(digits: string, rest: string, previous: char)
    requires |digits| == 4 && AllHex(digits)
    ensures LongEscapes(("\\u" + digits) + rest, previous) == Chars("\\u" + digits, LongEscapes(rest, digits[3]))
  {
    BackslashKept('u', digits + rest, previous);
    PlainTextKept(['u'] + digits, rest, '\\');
    hide LongEscapes, Chars;
    assert ("\\u" + digits) + rest == ['\\', 'u'] + (digits + rest);
    assert ['u'] + (digits + rest) == (['u'] + digits) + rest;
    CharsTwice("\\", ['u'] + digits, LongEscapes(rest, digits[3]));
    assert "\\" + (['u'] + digits) == "\\u" + digits;
  }

  lemma LongConverted(digits: string, rest: string, previous: char)
    requires |digits| == 8 && AllHex(digits) && Scalar(HexValue(digits)) && previous != '\\'
    ensures LongEscapes(("\\U" + digits) + rest, previous) == Chars([HexValue(digits) as char], LongEscapes(rest, digits[7]))
  {
    var s := ("\\U" + digits) + rest;
    assert s[0] == '\\' && s[1] == 'U' && s[9] == digits[7];
    assert s[2..10] == digits && s[10..] == rest;
    hide HexValue, AllHex, Chars;
  }

  lemma ElemConverted(e: KeyElem, rest: string, previous: char)
    requires ElemOk(e) && (e.Long? ==> previous != '\\')
    ensures LongEscapes(PrintElem(e) + rest, previous) ==
            Chars(Converted(e), LongEscapes(rest, PrintElem(e)[|PrintElem(e)| - 1]))
  {
    hide LongEscapes, Chars, HexValue;
    match e
    case Raw(c) => PlainTextKept([c], rest, previous);
    case Escaped(c) => EscapedConverted(c, rest, previous);
    case Short(digits) => ShortConverted(digits, rest, previous);
    case Long(digits) => LongConverted(digits, rest, previous);
  }

  lemma LaterElemsSafe(es: seq<KeyElem>)
    requires es != [] && forall i :: 0 <= i < |es| ==> ElemOk(es[i]) && LongSafe(es, i)
    ensures forall i :: 0 <= i < |es| - 1 ==> ElemOk(es[1..][i]) && LongSafe(es[1..], i)
    ensures |es| > 1 && es[1].Long? ==> es[0] != Escaped('\\')
  {
    forall i | 0 <= i < |es| - 1 ensures ElemOk(es[1..][i]) && LongSafe(es[1..], i) {
      assert LongSafe(es, i + 1);
    }
    assert |es| > 1 ==> LongSafe(es, 1);
  }

  lemma LastOfElem(e: KeyElem)
    requires ElemOk(e)
    ensures PrintElem(e)[|PrintElem(e)| - 1] == '\\' ==> e == Escaped('\\')
  {
    if e.Short? || e.Long? { assert HexDigit(e.digits[|e.digits| - 1]); }
  }

  lemma {:induction false} ElemsConverted(es: seq<KeyElem>, previous: char)
    requires forall i :: 0 <= i < |es| ==> ElemOk(es[i]) && LongSafe(es, i)
    requires previous == '\\' ==> es == [] || !es[0].Long?
    ensures LongEscapes(PrintElems(es) + "\"", previous) == Ok(ConvertedAll(es) + "\"")
  {
    if es == [] {
      assert PrintElems(es) + "\"" == "\"" && ConvertedAll(es) + "\"" == "\"";
      PlainTextKept("\"", "", previous);
      assert "\"" + "" == "\"";
    } else {
      LaterElemsSafe(es);
      LastOfElem(es[0]);
      assert ElemOk(es[0]);
      var rest := PrintElems(es[1..]) + "\"";
      assert PrintElems(es) + "\"" == PrintElem(es[0]) + rest;
      assert Converted(es[0]) + (ConvertedAll(es[1..]) + "\"") == ConvertedAll(es) + "\"";
      hide LongEscapes, LongSafe, ElemOk, PrintElem, PrintElems, Converted, ConvertedAll;
      ElemConverted(es[0], rest, previous);
      ElemsConverted(es[1..], PrintElem(es[0])[|PrintElem(es[0])| - 1]);
    }
  }

  /* ----- decoding the rest as JSON ----- */

  lemma ElemDecoded(e: KeyElem, rest: string)
    requires ElemOk(e) && !BadChar(NameChar(e))
    requires e.Long? ==> NameChar(e) != '"' && NameChar(e) != '\\'
    ensures JsonBody(Converted(e) + rest) == Chars([NameChar(e)], JsonBody(rest))
  {
    var s := Converted(e) + rest;
    match e
    case Raw(c) =>
      assert s[1..] == rest;
    case Escaped(c) =>
      assert s[2..] == rest;
    case Short(digits) =>
      assert s[2..6] == digits && s[6..] == rest;
    case Long(_) =>
      assert s[1..] == rest;
  }

  predicate ElemsReadable(es: seq<KeyElem>) {
    forall i :: 0 <= i < |es| ==> ElemOk(es[i]) && LongSafe(es, i) && !BadChar(NameChar(es[i]))
  }

  lemma LaterElemsReadable(es: seq<KeyElem>)
    requires es != [] && ElemsReadable(es)
    ensures ElemsReadable(es[1..])
    ensures Name(QuotedKey(es)) == [NameChar(es[0])] + Name(QuotedKey(es[1..]))
  {
    forall i | 0 <= i < |es| - 1
      ensures ElemOk(es[1..][i]) && LongSafe(es[1..], i) && !BadChar(NameChar(es[1..][i]))
    {
      assert LongSafe(es, i + 1);
    }
  }

  lemma {:induction false} ElemsDecoded(es: seq<KeyElem>)
    requires ElemsReadable(es)
    ensures JsonBody(ConvertedAll(es) + "\"") == Ok(Name(QuotedKey(es)))
  {
    if es == [] {
      assert ConvertedAll(es) + "\"" == "\"" && Name(QuotedKey(es)) == "";
    } else {
      var rest := ConvertedAll(es[1..]) + "\"";
      assert ConvertedAll(es) + "\"" == Converted(es[0]) + rest;
      assert LongSafe(es, 0);
      ElemDecoded(es[0], rest);
      LaterElemsReadable(es);
      ElemsDecoded(es[1..]);
    }
  }

  /* ----- whole keys ----- */

  lemma QuotedRead(elems: seq<KeyElem>)
    requires Readable(QuotedKey(elems))
    ensures BasicKey("\"" + PrintElems(elems) + "\"") == Ok(Name(QuotedKey(elems)))
  {
    var text := "\"" + PrintElems(elems) + "\"";
    var tail := PrintElems(elems) + "\"";
    assert text == "\"" + tail;
    PlainTextKept("\"", tail, ' ');
    ElemsConverted(elems, '"');
    var converted := "\"" + (ConvertedAll(elems) + "\"");
    assert LongEscapes(text, ' ') == Ok(converted);
    assert converted[1..] == ConvertedAll(elems) + "\"";
    forall i | 0 <= i < |elems| ensures !BadChar(NameChar(elems[i])) {
      assert Name(QuotedKey(elems))[i] == NameChar(elems[i]);
    }
    ElemsDecoded(elems);
  }

  predicate NameReadable(name: string) {
    forall i :: 0 <= i < |name| ==> !BadChar(name[i])
  }

  lemma LiteralRead(text: string)
    requires PartOk(LiteralKey(text)) && NameReadable(text)
    ensures Segment(Str("'" + text + "'")) == Ok(text)
  {
    var s := "'" + text + "'";
    assert s[1..|s| - 1] == text && s[0] == '\'';
    assert !Opens3(s, '\'') by {
      if text != "" { assert s[1] == text[0]; }
    }
    hide BasicKey;
  }

  lemma BareRead(text: string)
    requires PartOk(BareKey(text))
    ensures Segment(Bare(text)) == Ok(text)
  {
    assert forall i :: 0 <= i < |text| ==> KeyChar(text[i]) && !BadChar(text[i]);
  }

  // A string token in double quotes, once its text is decoded.
  lemma BasicSegment(text: string, name: string)
    requires |text| >= 2 && text[0] == '"' && !Opens3(text, '"')
    requires BasicKey(text) == Ok(name) && NameReadable(name)
    ensures Segment(Str(text)) == Ok(name)
  {
    assert forall i :: 0 <= i < |name| ==> !BadChar(name[i]);
  }

  lemma OpensOneQuote(elems: seq<KeyElem>)
    requires PartOk(QuotedKey(elems))
    ensures var s := "\"" + PrintElems(elems) + "\"";
            |s| >= 2 && s[0] == '"' && !Opens3(s, '"')
  {
    var s := "\"" + PrintElems(elems) + "\"";
    if elems != [] {
      assert ElemOk(elems[0]);
      var head := PrintElem(elems[0]);
      assert head[0] != '"';
      assert s[1] == head[0];
    }
  }

  // A readable key part is decoded to the name TOML gives it.
  lemma PartRead(part: KeyPart)
    requires Readable(part)
    ensures Segment(PartToken(part)) == Ok(Name(part))
  {
    assert NameReadable(Name(part));
    hide Segment, BasicKey, PrintElems, LongSafe;
    match part
    case BareKey(text) => BareRead(text);
    case LiteralKey(text) => LiteralRead(text);
    case QuotedKey(elems) =>
      OpensOneQuote(elems);
      QuotedRead(elems);
      BasicSegment("\"" + PrintElems(elems) + "\"", Name(part));
  }

  function NamesOf(parts: seq<KeyPart>): seq<string>
    requires forall i :: 0 <= i < |parts| ==> PartOk(parts[i])
  {
    if parts == [] then [] else [Name(parts[0])] + NamesOf(parts[1..])
  }

  lemma {:induction false} KeyRead(parts: seq<KeyPart>)
    requires parts != [] && forall i :: 0 <= i < |parts| ==> PartOk(parts[i]) && Readable(parts[i])
    ensures Key(KeyOf(parts)) == Ok(NamesOf(parts)) && KeyTokens(KeyOf(parts))
  {
    PartRead(parts[0]);
    if |parts| > 1 {
      KeyRead(parts[1..]);
      assert KeyOf(parts)[2..] == KeyOf(parts[1..]);
    } else {
      assert NamesOf(parts) == [Name(parts[0])];
    }
  }

  /* ----- documents with spelled keys ----- */

  datatype Entry =
    | NoEntry
    | Table(double: bool, path: seq<KeyPart>)
    | Setting(path: seq<KeyPart>, value: Forest)

  predicate EntryOk(e: Entry) {
    match e
    case NoEntry => true
    case Table(_, path) => path != [] && forall i :: 0 <= i < |path| ==> PartOk(path[i])
    case Setting(path, value) =>
      && path != [] && (forall i :: 0 <= i < |path| ==> PartOk(path[i]))
      && value != Empty && ForestOk(value, true)
  }

  predicate EntriesOk(es: seq<Entry>) {
    forall i :: 0 <= i < |es| ==> EntryOk(es[i])
  }

  function ItemOf(e: Entry): Item {
    match e
    case NoEntry => Blank
    case Table(double, path) => Header(double, KeyOf(path), HeaderTokens(double, KeyOf(path)))
    case Setting(path, value) => Assignment(KeyOf(path), value)
  }

  function ItemsOf(es: seq<Entry>): (items: seq<Item>)
    ensures |items| == |es| && forall i :: 0 <= i < |es| ==> items[i] == ItemOf(es[i])
  {
    seq(|es|, i requires 0 <= i < |es| => ItemOf(es[i]))
  }

  // The root key is set: a table header, or a setting before any header, whose
  // path starts with a part of that name.
  predicate SetsAt(es: seq<Entry>, i: nat, root: string)
    requires i < |es| && EntryOk(es[i])
  {
    match es[i]
    case NoEntry => false
    case Table(_, path) => Name(path[0]) == root
    case Setting(path, _) => Name(path[0]) == root && forall j :: 0 <= j < i ==> !es[j].Table?
  }

  predicate Sets(es: seq<Entry>, root: string)
    requires EntriesOk(es)
  {
    exists i :: 0 <= i < |es| && SetsAt(es, i, root)
  }

  predicate EntryReadable(e: Entry)
    requires EntryOk(e)
  {
    !e.NoEntry? ==> forall i :: 0 <= i < |e.path| ==> Readable(e.path[i])
  }

  lemma {:induction false} KeyOfPlain(parts: seq<KeyPart>)
    requires parts != []
    ensures KeyTokens(KeyOf(parts)) && KeyOf(parts)[0] == PartToken(parts[0])
  {
    if |parts| > 1 {
      KeyOfPlain(parts[1..]);
    }
  }

  lemma EntryIsItem(e: Entry)
    requires EntryOk(e)
    ensures ItemOk(ItemOf(e))
  {
    if !e.NoEntry? {
      KeyOfPlain(e.path);
      if e.Table? {
        var line := HeaderTokens(e.double, KeyOf(e.path));
        assert forall i :: 0 <= i < |line| ==> !line[i].Newline?;
        KeptKey(line, []);
        assert line + [] == line;
      }
    }
  }

  lemma EntriesAreItems(es: seq<Entry>)
    requires EntriesOk(es)
    ensures ItemsOk(ItemsOf(es))
  {
    forall i | 0 <= i < |es| ensures ItemOk(ItemsOf(es)[i]) { EntryIsItem(es[i]); }
  }

  // A decoded key starts with its first part.
  lemma FirstPart(parts: seq<KeyPart>)
    requires parts != [] && PartOk(parts[0]) && Readable(parts[0]) && Key(KeyOf(parts)).Ok?
    ensures Key(KeyOf(parts)).value[0] == Name(parts[0])
  {
    PartRead(parts[0]);
    KeyOfPlain(parts);
  }

  lemma EntryDecodes(e: Entry)
    requires EntryOk(e) && EntryReadable(e) && !e.NoEntry?
    ensures Key(KeyOf(e.path)).Ok? && Key(KeyOf(e.path)).value[0] == Name(e.path[0])
  {
    KeyRead(e.path);
  }

  lemma SetsIffDeclares(es: seq<Entry>, root: string)
    requires EntriesOk(es) && forall i :: 0 <= i < |es| ==> EntryReadable(es[i])
    ensures KeysDecode(ItemsOf(es)) && (Declares(ItemsOf(es), root) <==> Sets(es, root))
  {
    var items := ItemsOf(es);
    forall i | 0 <= i < |es|
      ensures (!es[i].NoEntry? ==> Key(items[i].key).Ok?) && (DeclaresAt(items, i, root) <==> SetsAt(es, i, root))
    {
      assert EntryOk(es[i]) && items[i] == ItemOf(es[i]);
      if !es[i].NoEntry? { EntryDecodes(es[i]); }
      hide Key, KeyOf, Name, EntryReadable, EntryOk, HeaderTokens;
      assert TopLevel(items, i) <==> forall j :: 0 <= j < i ==> !es[j].Table?;
    }
  }

  // The answer for every document printed from table headers and settings
  // with readable keys, in any layout, values and comments included.
  lemma RootKeyFound(ls: seq<Lexeme>, es: seq<Entry>, root: string)
    requires WellSpaced(ls) && EntriesOk(es) && forall i :: 0 <= i < |es| ==> EntryReadable(es[i])
    requires TokensOf(ls) + [Newline] == DocTokens(ItemsOf(es))
    ensures HasStorage(PrintAll(ls), root) == Ok(Sets(es, root))
  {
    EntriesAreItems(es);
    SetsIffDeclares(es, root);
    hide *;
    DocumentAnswered(ls, ItemsOf(es), root);
  }

  /* ----- keys the scanner does not decode to their names ----- */

  // A root key that can be spelled without escapes.
  predicate PlainRoot(root: string) {
    forall i :: 0 <= i < |root| ==> !BadChar(root[i]) && root[i] != '"' && root[i] != '\\'
  }

  lemma PlainNameReadable(part: KeyPart, root: string)
    requires PartOk(part) && PlainRoot(root) && Name(part) == root
    ensures Readable(part)
  {
    if part.QuotedKey? {
      forall i | 0 <= i < |part.elems| ensures LongSafe(part.elems, i) {
        assert root[i] == NameChar(part.elems[i]);
        assert i > 0 ==> root[i - 1] == NameChar(part.elems[i - 1]);
      }
    }
  }

  lemma {:induction false} FalseDecodes(items: seq<Item>, table: seq<string>, root: string)
    requires Answer(items, table, root) == Ok(false)
    ensures KeysDecode(items)
  {
    if items != [] {
      FalseDecodes(items[1..], Process(items[0], table, root).value.table, root);
      assert forall i :: 1 <= i < |items| ==> items[i] == items[1..][i - 1];
    }
  }

  // Where a document sets a plain root, its key, if it decodes, names it.
  lemma SetIsDeclared(es: seq<Entry>, root: string, i: nat)
    requires EntriesOk(es) && PlainRoot(root) && i < |es| && EntryOk(es[i]) && SetsAt(es, i, root)
    requires KeysDecode(ItemsOf(es))
    ensures DeclaresAt(ItemsOf(es), i, root)
  {
    PlainNameReadable(es[i].path[0], root);
    assert ItemsOf(es)[i] == ItemOf(es[i]) && Key(ItemsOf(es)[i].key).Ok?;
    FirstPart(es[i].path);
    hide Key, KeyOf, Name, Readable, PartOk, HeaderTokens;
    assert TopLevel(ItemsOf(es), i) <==> forall j :: 0 <= j < i ==> !es[j].Table?;
  }

  lemma SetIsFound(items: seq<Item>, root: string, i: nat)
    requires ItemsOk(items) && i < |items| && (KeysDecode(items) ==> DeclaresAt(items, i, root))
    ensures Answer(items, [], root) != Ok(false)
  {
    hide Answer, ItemOk, Key;
    if Answer(items, [], root) == Ok(false) {
      FalseDecodes(items, [], root);
      AnswerIs(items, [], root);
      assert false;
    }
  }

  // Whatever its other keys look like, a document that sets the root key is
  // never reported as not setting it.
  lemma NeverMissed(ls: seq<Lexeme>, es: seq<Entry>, root: string)
    requires WellSpaced(ls) && EntriesOk(es) && PlainRoot(root)
    requires TokensOf(ls) + [Newline] == DocTokens(ItemsOf(es))
    requires Sets(es, root)
    ensures HasStorage(PrintAll(ls), root) != Ok(false)
  {
    var i: nat :| i < |es| && SetsAt(es, i, root);
    var items := ItemsOf(es);
    EntriesAreItems(es);
    LayoutReads(ls);
    assert Shows(PrintAll(ls), items);
    if KeysDecode(items) {
      assert EntryOk(es[i]);
      SetIsDeclared(es, root, i);
    }
    hide *;
    ShownAnswer(PrintAll(ls), items, root);
    SetIsFound(items, root, i);
  }

  function Raws(word: string): seq<KeyElem> {
    if word == "" then [] else [Raw(word[0])] + Raws(word[1..])
  }

  lemma {:induction false} RawsPrinted(word: string)
    requires PlainRoot(word)
    ensures forall i :: 0 <= i < |Raws(word)| ==> ElemOk(Raws(word)[i])
    ensures PrintElems(Raws(word)) == word && Name(QuotedKey(Raws(word))) == word
    ensures JsonBody(word + "\"") == Ok(word)
  {
    if word == "" {
      assert word + "\"" == "\"";
    } else {
      RawsPrinted(word[1..]);
      assert (word + "\"")[1..] == word[1..] + "\"";
      assert Name(QuotedKey(Raws(word))) == [word[0]] + Name(QuotedKey(Raws(word[1..])));
    }
  }

  lemma Hex5c()
    ensures AllHex("0000005c") && HexValue("0000005c") == 0x5C
  {
    var d := "0000005c";
    assert d[..7] == "0000005" && d[..7][..6] == "000000" && "000000"[..5] == "00000" && "00000"[..4] == "0000";
    assert "0000"[..3] == "000" && "000"[..2] == "00" && "00"[..1] == "0" && "0"[..0] == "";
    assert HexValue("000") == 0 && HexValue("00000") == 0;
    assert HexValue("0000005") == 5;
  }

  lemma Hex73()
    ensures AllHex("0073") && HexValue("0073") == 0x73
  {
    assert "0073"[..3] == "007" && "007"[..2] == "00" && "00"[..1] == "0" && "0"[..0] == "";
    assert HexValue("00") == 0;
  }

  // The spelling U+005C, then u0073 and the word, between quotes.
  function DoublyEscaped(word: string): KeyPart {
    QuotedKey([Long("0000005c")] + Raws("u0073" + word))
  }

  lemma NameInFront(e: KeyElem, es: seq<KeyElem>)
    requires ElemOk(e) && PartOk(QuotedKey(es))
    ensures PartOk(QuotedKey([e] + es)) && Name(QuotedKey([e] + es)) == [NameChar(e)] + Name(QuotedKey(es))
  {
    hide ElemOk, NameChar;
    var all := [e] + es;
    assert all[0] == e;
    forall i | 0 <= i < |all| ensures ElemOk(all[i]) {
      if i > 0 { assert all[i] == es[i - 1]; }
    }
    var left, right := Name(QuotedKey(all)), [NameChar(e)] + Name(QuotedKey(es));
    forall i | 0 <= i < |all| ensures left[i] == right[i] {
      if i > 0 { assert all[i] == es[i - 1]; }
    }
    assert left == right;
  }

  lemma DoublyEscapedNamed(word: string)
    requires PlainRoot(word)
    ensures PartOk(DoublyEscaped(word)) && Name(DoublyEscaped(word)) == "\\u0073" + word
  {
    Hex5c();
    assert NameChar(Long("0000005c")) == '\\' && ElemOk(Long("0000005c"));
    assert PlainRoot("u0073" + word) by {
      assert forall i :: 0 <= i < |word| ==> ("u0073" + word)[5 + i] == word[i];
    }
    RawsPrinted("u0073" + word);
    assert "\\" + ("u0073" + word) == "\\u0073" + word;
    hide Raws, Name, HexValue, PlainRoot;
    NameInFront(Long("0000005c"), Raws("u0073" + word));
  }

  lemma DoublyEscapedSpelled(word: string)
    requires PlainRoot(word)
    ensures PartToken(DoublyEscaped(word)) ==
            Str("\"" + (PrintElem(Long("0000005c")) + ("u0073" + word + "\"")))
  {
    var elems := DoublyEscaped(word).elems;
    var tail := "u0073" + word;
    RawsPrinted(tail);
    hide Raws, PrintElem;
    assert elems[1..] == Raws(tail);
    assert PrintElems(elems) == PrintElem(Long("0000005c")) + tail;
    assert "\"" + (PrintElem(Long("0000005c")) + tail) + "\"" == "\"" + (PrintElem(Long("0000005c")) + (tail + "\""));
  }

  // Such a key, which TOML names with a backslash in front, is taken for the
  // one that starts with the letter the second decoding gives.
  lemma DoubleDecodedKey(word: string)
    requires PlainRoot(word)
    ensures PartOk(DoublyEscaped(word)) && Name(DoublyEscaped(word)) == "\\u0073" + word
    ensures Segment(PartToken(DoublyEscaped(word))) == Ok("s" + word)
  {
    DoublyEscapedNamed(word);
    DoublyEscapedSpelled(word);
    DoublyEscapedConverts(word);
    DoublyEscapedDecodes(word);
    var text := PartToken(DoublyEscaped(word)).text;
    var converted := "\"" + ("\\u0073" + (word + "\""));
    assert converted[1..] == "\\u0073" + (word + "\"");
    assert text[0] == '"' && text[1] == '\\';
    hide LongEscapes, JsonBody, Raws;
    var key := "s" + word;
    assert BasicKey(text) == Ok(key) && !Opens3(text, '"');
    assert forall i :: 0 <= i < |key| ==> !BadChar(key[i]);
    hide BasicKey;
  }

  lemma DoublyEscapedConverts(word: string)
    requires PlainRoot(word)
    ensures LongEscapes("\"" + (PrintElem(Long("0000005c")) + ("u0073" + word + "\"")), ' ')
            == Ok("\"" + ("\\u0073" + (word + "\"")))
  {
    Hex5c();
    var rest := "u0073" + word + "\"";
    var e := Long("0000005c");
    assert ElemOk(e) && Converted(e) == "\\" && PrintElem(e)[|PrintElem(e)| - 1] == 'c';
    assert LongEscapes("", rest[|rest| - 1]) == Ok("");
    assert rest + "" == rest && "\\" + rest == "\\u0073" + (word + "\"");
    hide LongEscapes, PrintElem, Converted, HexValue;
    PlainTextKept("\"", PrintElem(e) + rest, ' ');
    ElemConverted(e, rest, '"');
    PlainTextKept(rest, "", 'c');
  }

  lemma DoublyEscapedDecodes(word: string)
    requires PlainRoot(word)
    ensures JsonBody("\\u0073" + (word + "\"")) == Ok("s" + word)
  {
    Hex73();
    RawsPrinted(word);
    var body := "\\u0073" + (word + "\"");
    assert body[2..6] == "0073" && body[6..] == word + "\"";
  }
}
