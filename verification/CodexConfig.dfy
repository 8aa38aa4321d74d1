/** The lexical classifier of Codex configuration text (session_peer_core/codex.py).
    It decides whether a TOML text sets a given root key, without parsing TOML. */
module CodexConfig {
  import opened Text

  datatype ConfigError =
    | UnterminatedString | InvalidCharacter
    | UnclassifiableKey | InvalidKey
    | UnclassifiableTable | UnclassifiableAssignment
    | Unbalanced | UnterminatedValue

  datatype Token = Newline | Str(text: string) | Bare(text: string) | Punct(mark: char)

  /* ----- character classes ----- */

  predicate Blank(c: char) { c == ' ' || c == '\t' || c == '\r' }

  predicate QuoteMark(c: char) { c == '"' || c == '\'' }

  predicate Mark(c: char) {
    c == '[' || c == ']' || c == '=' || c == '.' || c == '{' || c == '}' || c == ','
  }

  predicate Delimiter(c: char) {
    Blank(c) || c == '\n' || c == '#' || QuoteMark(c) || Mark(c)
  }

  predicate BadChar(c: char) { c as int < 32 || c as int == 127 }

  predicate KeyChar(c: char) {
    'A' <= c <= 'Z' || 'a' <= c <= 'z' || '0' <= c <= '9' || c == '_' || c == '-'
  }

  /* ----- the token sequence of a text ----- */

  function CommentLength(text: string): (n: nat)
    ensures n <= |text|
    ensures n < |text| ==> text[n] == '\n'
  {
    if text == "" || text[0] == '\n' then 0 else 1 + CommentLength(text[1..])
  }

  function BareLength(text: string): (n: nat)
    ensures n <= |text|
    ensures text != "" && !Delimiter(text[0]) ==> n > 0
  {
    if text == "" || Delimiter(text[0]) then 0 else 1 + BareLength(text[1..])
  }

  predicate Opens3(text: string, q: char) {
    |text| >= 3 && text[0] == q && text[1] == q && text[2] == q
  }

  predicate Closes(text: string, q: char, triple: bool) {
    if triple then Opens3(text, q) else text != "" && text[0] == q
  }

  // A multi-line ending takes up to two more quotes into the string.
  function ExtraQuotes(text: string, q: char): (n: nat)
    ensures n <= |text| && n <= 2
  {
    if text == "" || text[0] != q then 0
    else if |text| == 1 || text[1] != q then 1
    else 2
  }

  // What is left of a string after its opening quotes: contents and closing
  // quotes together, or None when the string never ends.
  function BodyLength(text: string, q: char, triple: bool): (n: Option<nat>)
    ensures n.Some? ==> 0 < n.value <= |text|
    decreases |text|
  {
    if text == "" then None
    else if Closes(text, q, triple) then Some(if triple then 3 + ExtraQuotes(text[3..], q) else 1)
    else if !triple && (text[0] == '\r' || text[0] == '\n') then None
    else
      var step := if q == '"' && text[0] == '\\' then 2 else 1;
      if step > |text| then None
      else
        match BodyLength(text[step..], q, triple)
        case None => None
        case Some(n) => Some(step + n)
  }

  function StringLength(text: string): (n: Option<nat>)
    requires text != ""
    ensures n.Some? ==> 0 < n.value <= |text|
  {
    var opening := if Opens3(text, text[0]) then 3 else 1;
    match BodyLength(text[opening..], text[0], opening == 3)
    case None => None
    case Some(n) => Some(opening + n)
  }

  function After(tokens: seq<Token>, rest: Result<seq<Token>, ConfigError>): Result<seq<Token>, ConfigError> {
    if rest.Ok? then Ok(tokens + rest.value) else rest
  }

  datatype Lexed = Gap(width: nat) | Unit(token: Token, width: nat) | Bad(error: ConfigError)

  // The gap or token a text starts with.
  function Next(text: string): (l: Lexed)
    requires text != ""
    ensures !l.Bad? ==> 0 < l.width <= |text|
  {
    var c := text[0];
    if Blank(c) then Gap(1)
    else if c == '\n' then Unit(Newline, 1)
    else if c == '#' then Gap(1 + CommentLength(text[1..]))
    else if QuoteMark(c) then
      match StringLength(text)
      case None => Bad(UnterminatedString)
      case Some(n) => Unit(Str(text[..n]), n)
    else if Mark(c) then Unit(Punct(c), 1)
    else
      var n := BareLength(text);
      if exists i :: 0 <= i < n && BadChar(text[i]) then Bad(InvalidCharacter) else Unit(Bare(text[..n]), n)
  }

  function Tokens(text: string): Result<seq<Token>, ConfigError>
    decreases |text|
  {
    if text == "" then Ok([])
    else
      match Next(text)
      case Bad(e) => Err(e)
      case Gap(n) => Tokens(text[n..])
      case Unit(token, n) => After([token], Tokens(text[n..]))
  }

  /* ----- dotted keys ----- */

  predicate HexDigit(c: char) {
    '0' <= c <= '9' || 'a' <= c <= 'f' || 'A' <= c <= 'F'
  }

  predicate AllHex(s: string) {
    forall i :: 0 <= i < |s| ==> HexDigit(s[i])
  }

  function HexValue(s: string): (n: nat)
    requires AllHex(s)
  {
    if s == "" then 0
    else
      var c := s[|s| - 1];
      var d := if c <= '9' then c as int - '0' as int
               else if c <= 'F' then c as int - 'A' as int + 10
               else c as int - 'a' as int + 10;
      16 * HexValue(s[..|s| - 1]) + d
  }

  predicate Scalar(n: int) {
    0 <= n < 0xD800 || 0xE000 <= n < 0x11_0000
  }

  function Chars(s: string, rest: Result<string, ConfigError>): Result<string, ConfigError> {
    if rest.Ok? then Ok(s + rest.value) else rest
  }

  // Every eight-digit escape not behind a backslash is replaced by its
  // character before the text is decoded as a JSON string.
  function LongEscapes(s: string, previous: char): Result<string, ConfigError>
    decreases |s|
  {
    if s == "" then Ok("")
    else if s[0] == '\\' && previous != '\\' && |s| >= 10 && s[1] == 'U' && AllHex(s[2..10]) then
      var n := HexValue(s[2..10]);
      if Scalar(n) then Chars([n as char], LongEscapes(s[10..], s[9])) else Err(InvalidKey)
    else Chars([s[0]], LongEscapes(s[1..], s[0]))
  }

  function ShortEscape(c: char): Option<char> {
    if c == '"' || c == '\\' || c == '/' then Some(c)
    else if c == 'b' then Some(8 as char)
    else if c == 'f' then Some(12 as char)
    else if c == 'n' then Some('\n')
    else if c == 'r' then Some('\r')
    else if c == 't' then Some('\t')
    else None
  }

  // The JSON string decoder, from just after the opening quote to the end of
  // the text. A surrogate outside a pair cannot be encoded and is refused.
  function JsonBody(s: string): Result<string, ConfigError>
    decreases |s|
  {
    if s == "" then Err(InvalidKey)
    else if s[0] == '"' then if |s| == 1 then Ok("") else Err(InvalidKey)
    else if s[0] == '\\' then
      if |s| < 2 then Err(InvalidKey)
      else if s[1] == 'u' then
        if |s| < 6 || !AllHex(s[2..6]) then Err(InvalidKey)
        else
          var n := HexValue(s[2..6]);
          if Scalar(n) then Chars([n as char], JsonBody(s[6..]))
          else if 0xD800 <= n < 0xDC00 && |s| >= 12 && s[6] == '\\' && s[7] == 'u' && AllHex(s[8..12])
               && 0xDC00 <= HexValue(s[8..12]) < 0xE000 then
            var pair := 0x10000 + (n - 0xD800) * 1024 + (HexValue(s[8..12]) - 0xDC00);
            Chars([pair as char], JsonBody(s[12..]))
          else Err(InvalidKey)
      else
        match ShortEscape(s[1])
        case None => Err(InvalidKey)
        case Some(c) => Chars([c], JsonBody(s[2..]))
    else if s[0] as int < 32 then Err(InvalidKey)
    else Chars([s[0]], JsonBody(s[1..]))
  }

  function BasicKey(text: string): Result<string, ConfigError>
    requires text != "" && text[0] == '"'
  {
    match LongEscapes(text, ' ')
    case Err(e) => Err(e)
    case Ok(converted) =>
      // The opening quote is never part of an escape.
      if converted == "" then Err(InvalidKey) else JsonBody(converted[1..])
  }

  predicate HasBadChar(name: string) {
    exists i :: 0 <= i < |name| && BadChar(name[i])
  }

  // One segment of a dotted key.
  function Segment(token: Token): Result<string, ConfigError> {
    var key :=
      if token.Str? && |token.text| >= 2 && token.text[0] == '\'' && !Opens3(token.text, '\'') then
        Ok(token.text[1..|token.text| - 1])
      else if token.Str? && |token.text| >= 2 && token.text[0] == '"' && !Opens3(token.text, '"') then
        BasicKey(token.text)
      else if token.Bare? && token.text != "" && forall i :: 0 <= i < |token.text| ==> KeyChar(token.text[i]) then
        Ok(token.text)
      else Err(UnclassifiableKey);
    if key.Ok? && HasBadChar(key.value) then Err(InvalidKey) else key
  }

  // Segments at even places, dots between them.
  function Key(tokens: seq<Token>): (r: Result<seq<string>, ConfigError>)
    ensures r.Ok? ==> r.value != []
  {
    if tokens == [] then Err(UnclassifiableKey)
    else
      match Segment(tokens[0])
      case Err(e) => Err(e)
      case Ok(k) =>
        if |tokens| == 1 then Ok([k])
        else if tokens[1] != Punct('.') then Err(UnclassifiableKey)
        else
          match Key(tokens[2..])
          case Err(e) => Err(e)
          case Ok(rest) => Ok([k] + rest)
  }

  /* ----- statements ----- */

  datatype Outcome = Found | Inside(table: seq<string>)

  function Split(statement: seq<Token>): (n: nat)
    ensures n <= |statement|
    ensures n < |statement| ==> statement[n] == Punct('=')
    ensures forall i :: 0 <= i < n ==> statement[i] != Punct('=')
  {
    if statement == [] || statement[0] == Punct('=') then 0 else 1 + Split(statement[1..])
  }

  // A complete statement: a table header, or an assignment in the given table.
  function Close(statement: seq<Token>, table: seq<string>, root: string): Result<Outcome, ConfigError>
    requires statement != []
  {
    if statement[0] == Punct('[') then
      var count := if |statement| > 1 && statement[1] == Punct('[') then 2 else 1;
      var n := |statement|;
      if n < count || exists i :: n - count <= i < n && statement[i] != Punct(']') then Err(UnclassifiableTable)
      else
        match Key(if 2 * count <= n then statement[count..n - count] else [])
        case Err(e) => Err(e)
        case Ok(key) => if key[0] == root then Ok(Found) else Ok(Inside(key))
    else
      var split := Split(statement);
      if split == 0 || split >= |statement| - 1 then Err(UnclassifiableAssignment)
      else
        match Key(statement[..split])
        case Err(e) => Err(e)
        case Ok(key) => if table == [] && key[0] == root then Ok(Found) else Ok(Inside(table))
  }

  datatype State = State(table: seq<string>, statement: seq<Token>, brackets: seq<char>)

  function Partner(close: char): char {
    if close == ']' then '[' else '{'
  }

  // One token inside a statement.
  function Step(token: Token, st: State): Result<State, ConfigError> {
    if token.Newline? then Ok(st)
    else
      var grown := st.(statement := st.statement + [token]);
      if token == Punct('[') || token == Punct('{') then
        Ok(grown.(brackets := st.brackets + [token.mark]))
      else if token == Punct(']') || token == Punct('}') then
        if st.brackets == [] || st.brackets[|st.brackets| - 1] != Partner(token.mark) then Err(Unbalanced)
        else Ok(grown.(brackets := st.brackets[..|st.brackets| - 1]))
      else Ok(grown)
  }

  function Scan(tokens: seq<Token>, st: State, root: string): Result<bool, ConfigError>
    decreases |tokens|
  {
    if tokens == [] then
      if st.brackets != [] || st.statement != [] then Err(UnterminatedValue) else Ok(false)
    else if tokens[0].Newline? && st.brackets == [] then
      if st.statement == [] then Scan(tokens[1..], st, root)
      else
        match Close(st.statement, st.table, root)
        case Err(e) => Err(e)
        case Ok(Found) => Ok(true)
        case Ok(Inside(table)) => Scan(tokens[1..], State(table, [], []), root)
    else
      match Step(tokens[0], st)
      case Err(e) => Err(e)
      case Ok(next) => Scan(tokens[1..], next, root)
  }

  const START: State := State([], [], [])

  function HasStorage(text: string, root: string): Result<bool, ConfigError> {
    match Tokens(text)
    case Err(e) => Err(e)
    case Ok(tokens) => Scan(tokens + [Newline], START, root)
  }

  /* ----- the program ----- */

  predicate Tripled(text: string, index: nat, q: char) {
    index + 2 < |text| && text[index] == q && text[index + 1] == q && text[index + 2] == q
  }

  function Shift(offset: nat, n: Option<nat>): Option<nat> {
    if n.None? then None else Some(offset + n.value)
  }

  // One step of BodyLength, at a place inside a longer text.
  lemma BodyAt(text: string, index: nat, q: char, triple: bool)
    requires index < |text|
    ensures var body := BodyLength(text[index..], q, triple);
            var step := if q == '"' && text[index] == '\\' then 2 else 1;
            body == if triple && Tripled(text, index, q) then Some(3 + ExtraQuotes(text[index + 3..], q))
                    else if !triple && text[index] == q then Some(1)
                    else if !triple && (text[index] == '\r' || text[index] == '\n') then None
                    else if index + step > |text| then None
                    else Shift(step, BodyLength(text[index + step..], q, triple))
  {
    var here := text[index..];
    assert Closes(here, q, triple) <==> if triple then Tripled(text, index, q) else text[index] == q;
    if |here| >= 3 {
      assert here[3..] == text[index + 3..];
    }
    if |here| >= 2 {
      assert here[2..] == text[index + 2..];
    }
    assert here[1..] == text[index + 1..];
  }

  // The end of the string that starts at start.
  method FindStringEnd(text: string, start: nat) returns (end: Option<nat>)
    requires start < |text| && QuoteMark(text[start])
    ensures end == Shift(start, StringLength(text[start..]))
  {
    var q := text[start];
    var triple := Tripled(text, start, q);
    var opening := if triple then 3 else 1;
    assert Opens3(text[start..], q) <==> triple;
    assert text[start..][opening..] == text[start + opening..];
    end := FindBodyEnd(text, start + opening, q, triple);
  }

  method FindBodyEnd(text: string, start: nat, q: char, triple: bool) returns (end: Option<nat>)
    requires start <= |text|
    ensures end == Shift(start, BodyLength(text[start..], q, triple))
  {
    hide BodyLength, ExtraQuotes;
    var index := start;
    while index < |text|
      invariant start <= index <= |text| + 1
      invariant Shift(start, BodyLength(text[start..], q, triple)) ==
                if index > |text| then None else Shift(index, BodyLength(text[index..], q, triple))
      decreases |text| + 1 - index
    {
      BodyAt(text, index, q, triple);
      if triple && Tripled(text, index, q) {
        index := TakeExtraQuotes(text, index + 3, q);
        return Some(index);
      }
      if !triple && text[index] == q {
        return Some(index + 1);
      }
      if !triple && (text[index] == '\r' || text[index] == '\n') {
        return None;
      }
      index := index + if q == '"' && text[index] == '\\' then 2 else 1;
    }
    BodyOfNothing(q, triple);
    assert index == |text| ==> text[index..] == "";
    end := None;
  }

  lemma BodyOfNothing(q: char, triple: bool)
    ensures BodyLength("", q, triple) == None
  {
  }

  // Steps over at most two more quotes.
  method TakeExtraQuotes(text: string, start: nat, q: char) returns (end: nat)
    requires start <= |text|
    ensures end == start + ExtraQuotes(text[start..], q)
  {
    end := start;
    for k := 0 to 2
      invariant end == start + if k < ExtraQuotes(text[start..], q) then k else ExtraQuotes(text[start..], q)
    {
      if end < |text| && text[end] == q {
        end := end + 1;
      }
    }
  }

  // The end of the run of plain characters that starts at start.
  method FindBareEnd(text: string, start: nat) returns (end: Option<nat>)
    requires start < |text| && !Delimiter(text[start])
    ensures end == (var n := BareLength(text[start..]);
                    if exists i :: 0 <= i < n && BadChar(text[start..][i]) then None else Some(start + n))
  {
    var index := start;
    ghost var n := BareLength(text[start..]);
    while index < |text| && !Delimiter(text[index])
      invariant start <= index <= |text|
      invariant n == index - start + BareLength(text[index..])
      invariant forall i :: start <= i < index ==> !BadChar(text[i])
    {
      assert text[index..][1..] == text[index + 1..];
      if BadChar(text[index]) {
        assert BadChar(text[start..][index - start]);
        return None;
      }
      index := index + 1;
    }
    end := Some(index);
  }

  lemma AfterTwice(tokens: seq<Token>, token: Token, rest: Result<seq<Token>, ConfigError>)
    ensures After(tokens, After([token], rest)) == After(tokens + [token], rest)
  {
    if rest.Ok? {
      assert tokens + ([token] + rest.value) == tokens + [token] + rest.value;
    }
  }

  method FindCommentEnd(text: string, start: nat) returns (end: nat)
    requires start <= |text|
    ensures end == start + CommentLength(text[start..])
  {
    end := start;
    while end < |text| && text[end] != '\n'
      invariant start <= end <= |text|
      invariant CommentLength(text[start..]) == end - start + CommentLength(text[end..])
    {
      assert text[end..][1..] == text[end + 1..];
      end := end + 1;
    }
  }

  method ReadNext(text: string, index: nat) returns (l: Lexed)
    requires index < |text|
    ensures l == Next(text[index..])
  {
    hide CommentLength, BareLength, StringLength;
    var c := text[index];
    assert text[index..][1..] == text[index + 1..];
    if Blank(c) {
      l := Gap(1);
    } else if c == '\n' {
      l := Unit(Newline, 1);
    } else if c == '#' {
      var end := FindCommentEnd(text, index + 1);
      l := Gap(end - index);
    } else if QuoteMark(c) {
      var end := FindStringEnd(text, index);
      if end.None? {
        return Bad(UnterminatedString);
      }
      assert text[index..][..end.value - index] == text[index..end.value];
      l := Unit(Str(text[index..end.value]), end.value - index);
    } else if Mark(c) {
      l := Unit(Punct(c), 1);
    } else {
      var end := FindBareEnd(text, index);
      if end.None? {
        return Bad(InvalidCharacter);
      }
      assert text[index..][..end.value - index] == text[index..end.value];
      l := Unit(Bare(text[index..end.value]), end.value - index);
    }
  }

  method Tokenize(text: string) returns (r: Result<seq<Token>, ConfigError>)
    ensures r == Tokens(text)
  {
    hide Next;
    var tokens := [];
    var index := 0;
    assert text[0..] == text && (Tokens(text).Ok? ==> [] + Tokens(text).value == Tokens(text).value);
    while index < |text|
      invariant index <= |text|
      invariant Tokens(text) == After(tokens, Tokens(text[index..]))
      decreases |text| - index
    {
      var lexed := ReadNext(text, index);
      if lexed.Bad? {
        return Err(lexed.error);
      }
      assert text[index..][lexed.width..] == text[index + lexed.width..];
      index := index + lexed.width;
      if lexed.Unit? {
        AfterTwice(tokens, lexed.token, Tokens(text[index..]));
        tokens := tokens + [lexed.token];
      }
    }
    assert tokens + [] == tokens;
    r := Ok(tokens);
  }

  method DecodeKey(tokens: seq<Token>) returns (r: Result<seq<string>, ConfigError>)
    ensures r == Key(tokens)
  {
    var keys := [];
    var index := 0;
    assert tokens[0..] == tokens;
    assert Key(tokens).Ok? ==> [] + Key(tokens).value == Key(tokens).value;
    while index < |tokens|
      invariant index <= |tokens|
      invariant Key(tokens) == if index % 2 == 0 then Continued(keys, Key(tokens[index..]))
                               else if index == |tokens| then Ok(keys)
                               else if tokens[index] != Punct('.') then Err(UnclassifiableKey)
                               else Continued(keys, Key(tokens[index + 1..]))
    {
      if index % 2 == 1 {
        if tokens[index] != Punct('.') {
          return Err(UnclassifiableKey);
        }
      } else {
        var key := Segment(tokens[index]);
        if key.Err? {
          return Err(key.error);
        }
        if index + 2 <= |tokens| {
          assert tokens[index..][2..] == tokens[index + 2..];
          ContinuedTwice(keys, key.value, Key(tokens[index + 2..]));
        }
        keys := keys + [key.value];
      }
      index := index + 1;
    }
    if tokens == [] || |tokens| % 2 == 0 {
      return Err(UnclassifiableKey);
    }
    r := Ok(keys);
  }

  lemma ContinuedTwice(keys: seq<string>, key: string, rest: Result<seq<string>, ConfigError>)
    ensures Continued(keys, Continued([key], rest)) == Continued(keys + [key], rest)
  {
    if rest.Ok? {
      assert keys + ([key] + rest.value) == keys + [key] + rest.value;
    }
  }

  function Continued(keys: seq<string>, rest: Result<seq<string>, ConfigError>): Result<seq<string>, ConfigError> {
    if rest.Ok? then Ok(keys + rest.value) else rest
  }

  method CloseStatement(statement: seq<Token>, table: seq<string>, root: string)
    returns (r: Result<Outcome, ConfigError>)
    requires statement != []
    ensures r == Close(statement, table, root)
  {
    if statement[0] == Punct('[') {
      var count := if |statement| > 1 && statement[1] == Punct('[') then 2 else 1;
      var n := |statement|;
      if n < count || statement[n - count] != Punct(']') || statement[n - 1] != Punct(']') {
        return Err(UnclassifiableTable);
      }
      var key := DecodeKey(if 2 * count <= n then statement[count..n - count] else []);
      if key.Err? {
        return Err(key.error);
      }
      r := Ok(if key.value[0] == root then Found else Inside(key.value));
    } else {
      var split := 0;
      while split < |statement| && statement[split] != Punct('=')
        invariant split <= |statement|
        invariant Split(statement) == split + Split(statement[split..])
      {
        assert statement[split..][1..] == statement[split + 1..];
        split := split + 1;
      }
      if split == 0 || split >= |statement| - 1 {
        return Err(UnclassifiableAssignment);
      }
      var key := DecodeKey(statement[..split]);
      if key.Err? {
        return Err(key.error);
      }
      r := Ok(if table == [] && key.value[0] == root then Found else Inside(table));
    }
  }

  method ScanForStorage(text: string, root: string) returns (r: Result<bool, ConfigError>)
    ensures r == HasStorage(text, root)
  {
    var lexed := Tokenize(text);
    if lexed.Err? {
      return Err(lexed.error);
    }
    var tokens := lexed.value + [Newline];
    var table: seq<string>, statement: seq<Token>, brackets: seq<char> := [], [], [];
    assert tokens[0..] == tokens;
    for i := 0 to |tokens|
      invariant Scan(tokens, START, root) == Scan(tokens[i..], State(table, statement, brackets), root)
    {
      var token := tokens[i];
      assert tokens[i..][0] == token && tokens[i..][1..] == tokens[i + 1..];
      if token.Newline? && brackets == [] {
        if statement != [] {
          var closed := CloseStatement(statement, table, root);
          if closed.Err? {
            return Err(closed.error);
          }
          if closed.value.Found? {
            return Ok(true);
          }
          table := closed.value.table;
          statement := [];
        }
      } else {
        if token == Punct('[') || token == Punct('{') {
          brackets := brackets + [token.mark];
        } else if token == Punct(']') || token == Punct('}') {
          if brackets == [] || brackets[|brackets| - 1] != Partner(token.mark) {
            return Err(Unbalanced);
          }
          brackets := brackets[..|brackets| - 1];
        }
        if !token.Newline? {
          statement := statement + [token];
        }
      }
    }
    if brackets != [] || statement != [] {
      return Err(UnterminatedValue);
    }
    r := Ok(false);
  }
}
