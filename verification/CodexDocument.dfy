/** What the statement scanner answers, for whole documents: lists of table
    headers and assignments, laid out in any way. */
module CodexDocument {
  import opened Text
  import opened CodexConfig
  import opened CodexLayout
  import opened Sequences

  /* ----- documents ----- */

  // Nested brackets and what stands between them.
  datatype Forest = Empty | Leaf(token: Token, next: Forest) | Group(open: char, body: Forest, next: Forest)

  // A header's line is its brackets and key. The scanner also takes line ends
  // between the brackets, which TOML forbids.
  datatype Item =
    | Blank
    | Header(double: bool, key: seq<Token>, line: seq<Token>)
    | Assignment(key: seq<Token>, value: Forest)

  predicate Opening(t: Token) { t == Punct('[') || t == Punct('{') }

  predicate Closing(t: Token) { t == Punct(']') || t == Punct('}') }

  function CloserOf(open: char): char {
    if open == '[' then ']' else '}'
  }

  // Line ends stand only inside brackets.
  predicate ForestOk(f: Forest, outside: bool) {
    match f
    case Empty => true
    case Leaf(t, next) => !Opening(t) && !Closing(t) && (outside ==> !t.Newline?) && ForestOk(next, outside)
    case Group(open, body, next) => (open == '[' || open == '{') && ForestOk(body, false) && ForestOk(next, outside)
  }

  function Flat(f: Forest): seq<Token> {
    match f
    case Empty => []
    case Leaf(t, next) => [t] + Flat(next)
    case Group(open, body, next) => [Punct(open)] + Flat(body) + [Punct(CloserOf(open))] + Flat(next)
  }

  // Key spelling: strings, words and dots.
  predicate Plain(t: Token) {
    t.Str? || t.Bare? || t == Punct('.')
  }

  predicate KeyTokens(key: seq<Token>) {
    key != [] && forall i :: 0 <= i < |key| ==> Plain(key[i])
  }

  function Kept(tokens: seq<Token>): seq<Token> {
    if tokens == [] then []
    else if tokens[0].Newline? then Kept(tokens[1..])
    else [tokens[0]] + Kept(tokens[1..])
  }

  function HeaderTokens(double: bool, key: seq<Token>): seq<Token> {
    if double then [Punct('['), Punct('[')] + key + [Punct(']'), Punct(']')]
    else [Punct('[')] + key + [Punct(']')]
  }

  predicate ItemOk(item: Item) {
    match item
    case Blank => true
    case Header(double, key, line) =>
      && KeyTokens(key) && Kept(line) == HeaderTokens(double, key)
      && line != [] && !line[0].Newline? && !line[|line| - 1].Newline?
    case Assignment(key, value) => KeyTokens(key) && value != Empty && ForestOk(value, true)
  }

  predicate ItemsOk(items: seq<Item>) {
    forall i :: 0 <= i < |items| ==> ItemOk(items[i])
  }

  function ItemTokens(item: Item): seq<Token> {
    match item
    case Blank => []
    case Header(_, _, line) => line
    case Assignment(key, value) => key + ([Punct('=')] + Flat(value))
  }

  // One line end after every item.
  function DocTokens(items: seq<Item>): seq<Token> {
    if items == [] then [] else ItemTokens(items[0]) + [Newline] + DocTokens(items[1..])
  }

  // The first segment of a key, once decoded.
  predicate Names(key: seq<Token>, root: string) {
    Key(key).Ok? && Key(key).value[0] == root
  }

  predicate TopLevel(items: seq<Item>, i: nat)
    requires i <= |items|
  {
    forall j :: 0 <= j < i ==> !items[j].Header?
  }

  // A table header, or an assignment before any header, whose first segment
  // is the root key.
  predicate DeclaresAt(items: seq<Item>, i: nat, root: string)
    requires i < |items|
  {
    match items[i]
    case Blank => false
    case Header(_, key, _) => Names(key, root)
    case Assignment(key, _) => TopLevel(items, i) && Names(key, root)
  }

  predicate Declares(items: seq<Item>, root: string) {
    exists i :: 0 <= i < |items| && DeclaresAt(items, i, root)
  }

  predicate KeysDecode(items: seq<Item>) {
    forall i :: 0 <= i < |items| ==> !items[i].Blank? ==> Key(items[i].key).Ok?
  }

  /* ----- one line ----- */

  // The bracket stack after some tokens of one statement; None when they do
  // not match, or when a line end stands outside all brackets.
  function Brackets(tokens: seq<Token>, stack: seq<char>): Option<seq<char>>
    decreases |tokens|
  {
    if tokens == [] then Some(stack)
    else if tokens[0].Newline? && stack == [] then None
    else
      var r := Step(tokens[0], State([], [], stack));
      if r.Err? then None else Brackets(tokens[1..], r.value.brackets)
  }

  lemma ScanStep(tokens: seq<Token>, rest: seq<Token>, st: State, root: string)
    requires tokens != [] && !(tokens[0].Newline? && st.brackets == []) && Step(tokens[0], st).Ok?
    ensures Scan(tokens + rest, st, root) == Scan(tokens[1..] + rest, Step(tokens[0], st).value, root)
  {
    assert (tokens + rest)[1..] == tokens[1..] + rest;
    hide Step;
  }

  lemma KeptStep(tokens: seq<Token>)
    requires tokens != []
    ensures Kept(tokens) == (if tokens[0].Newline? then [] else [tokens[0]]) + Kept(tokens[1..])
  {
  }

  lemma StepOnBrackets(token: Token, st: State)
    ensures var r, b := Step(token, st), Step(token, State([], [], st.brackets));
            && (r.Ok? <==> b.Ok?)
            && (r.Ok? ==> r.value.brackets == b.value.brackets && r.value.table == st.table
                          && r.value.statement == st.statement + if token.Newline? then [] else [token])
  {
  }

  lemma BracketsUnfold(tokens: seq<Token>, stack: seq<char>)
    requires tokens != [] && Brackets(tokens, stack).Some?
    ensures !(tokens[0].Newline? && stack == []) && Step(tokens[0], State([], [], stack)).Ok?
    ensures Brackets(tokens, stack) == Brackets(tokens[1..], Step(tokens[0], State([], [], stack)).value.brackets)
  {
    hide Step;
  }

  lemma StepGrows(tokens: seq<Token>, st: State)
    requires tokens != [] && Brackets(tokens, st.brackets).Some?
    ensures !(tokens[0].Newline? && st.brackets == []) && Step(tokens[0], st).Ok?
    ensures var next := Step(tokens[0], st).value;
            && next.table == st.table && next.statement + Kept(tokens[1..]) == st.statement + Kept(tokens)
            && Brackets(tokens[1..], next.brackets) == Brackets(tokens, st.brackets)
  {
    hide *;
    BracketsUnfold(tokens, st.brackets);
    StepOnBrackets(tokens[0], st);
    KeptStep(tokens);
    Regroup(st.statement, if tokens[0].Newline? then [] else [tokens[0]], Kept(tokens[1..]));
  }

  // Tokens of one statement only grow the statement and move the stack.
  lemma {:induction false} ScanStatement(tokens: seq<Token>, rest: seq<Token>, st: State, root: string)
    requires Brackets(tokens, st.brackets).Some?
    ensures Scan(tokens + rest, st, root) ==
            Scan(rest, State(st.table, st.statement + Kept(tokens), Brackets(tokens, st.brackets).value), root)
    decreases |tokens|
  {
    if tokens == [] {
      assert tokens + rest == rest && st.statement + [] == st.statement;
    } else {
      StepGrows(tokens, st);
      hide Scan, Kept, Brackets, Step;
      ScanStep(tokens, rest, st, root);
      ScanStatement(tokens[1..], rest, Step(tokens[0], st).value, root);
    }
  }

  lemma BracketsStep(token: Token, rest: seq<Token>, stack: seq<char>)
    requires !(token.Newline? && stack == []) && Step(token, State([], [], stack)).Ok?
    ensures Brackets([token] + rest, stack) == Brackets(rest, Step(token, State([], [], stack)).value.brackets)
  {
    assert ([token] + rest)[1..] == rest;
  }

  // Balanced brackets leave the stack as it was.
  lemma {:induction false} ForestBalanced(f: Forest, rest: seq<Token>, stack: seq<char>)
    requires ForestOk(f, stack == [])
    ensures Brackets(Flat(f) + rest, stack) == Brackets(rest, stack)
    decreases f, 1
  {
    match f
    case Empty =>
      assert Flat(f) + rest == rest;
    case Leaf(t, next) =>
      var later := Flat(next);
      assert Flat(f) == [t] + later;
      BracketsStep(t, later + rest, stack);
      ForestBalanced(next, rest, stack);
      hide Flat, Brackets;
      assert Flat(f) + rest == [t] + (later + rest);
    case Group(_, _, _) =>
      GroupBalanced(f, rest, stack);
  }

  lemma GroupFlat(f: Forest, rest: seq<Token>)
    requires f.Group?
    ensures Flat(f) + rest ==
            [Punct(f.open)] + (Flat(f.body) + ([Punct(CloserOf(f.open))] + (Flat(f.next) + rest)))
  {
    var body, next := Flat(f.body), Flat(f.next);
    assert Flat(f) == [Punct(f.open)] + body + [Punct(CloserOf(f.open))] + next;
    hide Flat;
  }

  lemma Pushed(open: char, stack: seq<char>)
    requires open == '[' || open == '{'
    ensures var inner := Step(Punct(open), State([], [], stack));
            && inner.Ok? && inner.value.brackets == stack + [open]
            && Step(Punct(CloserOf(open)), State([], [], stack + [open])).Ok?
            && Step(Punct(CloserOf(open)), State([], [], stack + [open])).value.brackets == stack
  {
    assert (stack + [open])[..|stack|] == stack;
  }

  lemma {:induction false} GroupBalanced(f: Forest, rest: seq<Token>, stack: seq<char>)
    requires f.Group? && ForestOk(f, stack == [])
    ensures Brackets(Flat(f) + rest, stack) == Brackets(rest, stack)
    decreases f, 0
  {
    var open, close := Punct(f.open), Punct(CloserOf(f.open));
    var after := Flat(f.next) + rest;
    var inside := Flat(f.body) + ([close] + after);
    GroupFlat(f, rest);
    Pushed(f.open, stack);
    hide Flat, Brackets, Step;
    BracketsStep(open, inside, stack);
    ForestBalanced(f.body, [close] + after, stack + [f.open]);
    BracketsStep(close, after, stack + [f.open]);
    ForestBalanced(f.next, rest, stack);
  }

  lemma {:induction false} KeyBalanced(key: seq<Token>, rest: seq<Token>, stack: seq<char>)
    requires forall i :: 0 <= i < |key| ==> Plain(key[i])
    ensures Brackets(key + rest, stack) == Brackets(rest, stack)
  {
    if key == [] {
      assert key + rest == rest;
    } else {
      assert (key + rest)[1..] == key[1..] + rest;
      KeyBalanced(key[1..], rest, stack);
    }
  }

  // Brackets are open in front of every token.
  predicate StaysOpen(tokens: seq<Token>, stack: seq<char>)
    decreases |tokens|
  {
    tokens == [] ||
    (&& stack != [] && Step(tokens[0], State([], [], stack)).Ok?
     && StaysOpen(tokens[1..], Step(tokens[0], State([], [], stack)).value.brackets))
  }

  lemma {:induction false} LineEndsInside(tokens: seq<Token>, stack: seq<char>)
    requires StaysOpen(Kept(tokens), stack)
    requires tokens == [] || !tokens[|tokens| - 1].Newline?
    ensures Brackets(tokens, stack) == Brackets(Kept(tokens), stack)
    decreases |tokens|
  {
    if tokens != [] {
      KeptAtEnd(tokens);
      var next := Step(tokens[0], State([], [], stack)).value.brackets;
      LineEndsInside(tokens[1..], next);
    }
  }

  lemma {:induction false} KeptAtEnd(tokens: seq<Token>)
    requires tokens != [] && !tokens[|tokens| - 1].Newline?
    ensures Kept(tokens) != []
  {
    if tokens[0].Newline? {
      KeptAtEnd(tokens[1..]);
    }
  }

  lemma {:induction false} KeyStaysOpen(key: seq<Token>, rest: seq<Token>, stack: seq<char>)
    requires (forall i :: 0 <= i < |key| ==> Plain(key[i])) && stack != []
    ensures StaysOpen(key + rest, stack) == StaysOpen(rest, stack)
  {
    if key == [] {
      assert key + rest == rest;
    } else {
      assert (key + rest)[1..] == key[1..] + rest;
      KeyStaysOpen(key[1..], rest, stack);
    }
  }

  // After its first bracket a header stays inside brackets to its end.
  lemma HeaderInside(double: bool, key: seq<Token>)
    requires KeyTokens(key)
    ensures StaysOpen(HeaderTokens(double, key)[1..], ['['])
    ensures Brackets(HeaderTokens(double, key)[1..], ['[']) == Some([])
  {
    var all := HeaderTokens(double, key)[1..];
    if double {
      var ends := [Punct(']'), Punct(']')];
      assert all == [Punct('[')] + (key + ends) && all[1..] == key + ends;
      assert ends[1..] == [Punct(']')] && ['['] + ['['] == ['[', '['] && ['[', '['][..1] == ['['];
      KeyStaysOpen(key, ends, ['[', '[']);
      KeyBalanced(key, ends, ['[', '[']);
    } else {
      assert all == key + [Punct(']')];
      KeyStaysOpen(key, [Punct(']')], ['[']);
      KeyBalanced(key, [Punct(']')], ['[']);
    }
  }

  lemma HeaderBalanced(double: bool, key: seq<Token>, line: seq<Token>)
    requires ItemOk(Header(double, key, line))
    ensures Brackets(line, []) == Some([])
  {
    var kept := HeaderTokens(double, key);
    assert line[0] == kept[0] == Punct('[') && kept[1..] == Kept(line[1..]);
    HeaderInside(double, key);
    assert [] + ['['] == ['['];
    hide HeaderTokens;
    LineEndsInside(line[1..], ['[']);
  }

  lemma {:induction false} KeptKey(key: seq<Token>, rest: seq<Token>)
    requires forall i :: 0 <= i < |key| ==> !key[i].Newline?
    ensures Kept(key + rest) == key + Kept(rest)
  {
    if key == [] {
      assert key + rest == rest;
    } else {
      assert (key + rest)[1..] == key[1..] + rest;
      KeptKey(key[1..], rest);
    }
  }

  // The statement an item's line leaves behind.
  function Statement(item: Item): seq<Token> {
    match item
    case Blank => []
    case Header(double, key, _) => HeaderTokens(double, key)
    case Assignment(key, value) => key + ([Punct('=')] + Kept(Flat(value)))
  }

  lemma ItemBalanced(item: Item)
    requires ItemOk(item)
    ensures Brackets(ItemTokens(item), []) == Some([])
    ensures Kept(ItemTokens(item)) == Statement(item)
  {
    match item
    case Blank =>
    case Header(double, key, line) => HeaderBalanced(double, key, line);
    case Assignment(key, value) =>
      var tail := [Punct('=')] + Flat(value);
      KeyBalanced(key, tail, []);
      KeptKey(key, tail);
      assert tail[1..] == Flat(value);
      assert Flat(value) + [] == Flat(value);
      ForestBalanced(value, [], []);
  }

  // What one item makes of the table it stands in.
  function Process(item: Item, table: seq<string>, root: string): Result<Outcome, ConfigError> {
    match item
    case Blank => Ok(Inside(table))
    case Header(_, key, _) =>
      if Key(key).Err? then Err(Key(key).error)
      else if Names(key, root) then Ok(Found) else Ok(Inside(Key(key).value))
    case Assignment(key, _) =>
      if Key(key).Err? then Err(Key(key).error)
      else if table == [] && Names(key, root) then Ok(Found) else Ok(Inside(table))
  }

  lemma {:induction false} SplitAtEquals(key: seq<Token>, rest: seq<Token>)
    requires forall i :: 0 <= i < |key| ==> key[i] != Punct('=')
    requires rest != [] && rest[0] == Punct('=')
    ensures Split(key + rest) == |key|
  {
    if key == [] {
      assert key + rest == rest;
    } else {
      assert (key + rest)[1..] == key[1..] + rest;
      SplitAtEquals(key[1..], rest);
    }
  }

  lemma CloseHeader(double: bool, key: seq<Token>, line: seq<Token>, table: seq<string>, root: string)
    requires KeyTokens(key)
    ensures Close(HeaderTokens(double, key), table, root) == Process(Header(double, key, line), table, root)
  {
    var n := if double then 2 else 1;
    var st := HeaderTokens(double, key);
    assert st[n..|st| - n] == key;
    assert st[n] == key[0] && Plain(key[0]);
    hide Key;
  }

  lemma CloseAssignment(key: seq<Token>, value: Forest, table: seq<string>, root: string)
    requires ItemOk(Assignment(key, value))
    ensures var st := Statement(Assignment(key, value));
            st != [] && Close(st, table, root) == Process(Assignment(key, value), table, root)
  {
    var st := Statement(Assignment(key, value));
    var rest := [Punct('=')] + Kept(Flat(value));
    assert st == key + rest && st[..|key|] == key && Plain(key[0]);
    SplitAtEquals(key, rest);
    assert Kept(Flat(value)) != [];
    hide Key;
  }

  // A whole line: its item is processed, in the table it stands in.
  lemma ScanLine(item: Item, rest: seq<Token>, table: seq<string>, root: string)
    requires ItemOk(item)
    ensures Scan(ItemTokens(item) + [Newline] + rest, State(table, [], []), root) ==
            if Process(item, table, root).Err? then Err(Process(item, table, root).error)
            else if Process(item, table, root).value.Found? then Ok(true)
            else Scan(rest, State(Process(item, table, root).value.table, [], []), root)
  {
    ItemBalanced(item);
    var st := State(table, [], []);
    assert ItemTokens(item) + [Newline] + rest == ItemTokens(item) + ([Newline] + rest);
    ScanStatement(ItemTokens(item), [Newline] + rest, st, root);
    assert [] + Statement(item) == Statement(item);
    assert ([Newline] + rest)[1..] == rest;
    match item
    case Blank =>
    case Header(double, key, line) => CloseHeader(double, key, line, table, root);
    case Assignment(key, value) => CloseAssignment(key, value, table, root);
  }

  // The answer for the items from here on, read inside a table.
  function Answer(items: seq<Item>, table: seq<string>, root: string): Result<bool, ConfigError> {
    if items == [] then Ok(false)
    else
      match Process(items[0], table, root)
      case Err(e) => Err(e)
      case Ok(Found) => Ok(true)
      case Ok(Inside(inner)) => Answer(items[1..], inner, root)
  }

  lemma {:induction false} ScanDocument(items: seq<Item>, table: seq<string>, root: string)
    requires ItemsOk(items)
    ensures Scan(DocTokens(items), State(table, [], []), root) == Answer(items, table, root)
  {
    if items != [] {
      ScanLine(items[0], DocTokens(items[1..]), table, root);
      var r := Process(items[0], table, root);
      if r.Ok? && r.value.Inside? {
        ScanDocument(items[1..], r.value.table, root);
      }
    }
  }

  // The text shows these items, one a line, in any layout.
  predicate Shows(text: string, items: seq<Item>) {
    Tokens(text).Ok? && Tokens(text).value + [Newline] == DocTokens(items)
  }

  lemma ShownAnswer(text: string, items: seq<Item>, root: string)
    requires ItemsOk(items) && Shows(text, items)
    ensures HasStorage(text, root) == Answer(items, [], root)
  {
    ScanDocument(items, [], root);
  }

  // Inside a table only headers can still declare the root key.
  predicate DeclaresFrom(items: seq<Item>, inTable: bool, root: string) {
    exists i :: 0 <= i < |items| && DeclaresAt(items, i, root) && (inTable ==> !items[i].Assignment?)
  }

  lemma {:induction false} AnswerIs(items: seq<Item>, table: seq<string>, root: string)
    requires ItemsOk(items) && KeysDecode(items)
    ensures Answer(items, table, root) == Ok(DeclaresFrom(items, table != [], root))
  {
    if items != [] {
      var rest := items[1..];
      var r := Process(items[0], table, root);
      assert forall i :: 0 < i < |items| ==> items[i] == rest[i - 1];
      if r == Ok(Found) {
        assert DeclaresAt(items, 0, root);
      } else {
        AnswerIs(rest, r.value.table, root);
        DeclaresLater(items, table != [], root);
      }
    }
  }

  lemma DeclaresLater(items: seq<Item>, inTable: bool, root: string)
    requires items != [] && ItemsOk(items) && KeysDecode(items)
    requires !(DeclaresAt(items, 0, root) && (items[0].Header? || !inTable))
    ensures DeclaresFrom(items, inTable, root) == DeclaresFrom(items[1..], inTable || items[0].Header?, root)
  {
    var rest := items[1..];
    var later := inTable || items[0].Header?;
    if DeclaresFrom(items, inTable, root) {
      var i :| 0 <= i < |items| && DeclaresAt(items, i, root) && (inTable ==> !items[i].Assignment?);
      assert i > 0 && rest[i - 1] == items[i];
      assert DeclaresAt(rest, i - 1, root);
    }
    if DeclaresFrom(rest, later, root) {
      var i :| 0 <= i < |rest| && DeclaresAt(rest, i, root) && (later ==> !rest[i].Assignment?);
      assert rest[i] == items[i + 1];
      assert rest[i].Assignment? ==> TopLevel(items, i + 1);
      assert DeclaresAt(items, i + 1, root);
    }
  }

  // For every list of headers and assignments with readable keys, laid out in
  // any way, the scanner answers whether the root key is declared.
  lemma DocumentAnswered(ls: seq<Lexeme>, items: seq<Item>, root: string)
    requires WellSpaced(ls) && ItemsOk(items) && KeysDecode(items)
    requires TokensOf(ls) + [Newline] == DocTokens(items)
    ensures HasStorage(PrintAll(ls), root) == Ok(Declares(items, root))
  {
    LayoutReads(ls);
    ShownAnswer(PrintAll(ls), items, root);
    AnswerIs(items, [], root);
    if Declares(items, root) {
      var i :| 0 <= i < |items| && DeclaresAt(items, i, root);
      assert DeclaresFrom(items, false, root);
    }
  }
}
