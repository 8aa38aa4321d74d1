/** The other direction: a text the scanner answers false for is the layout of
    a document whose keys all decode and do not declare the root. */
module CodexAccepted {
  import opened Text
  import opened CodexConfig
  import opened CodexLayout
  import opened CodexDocument
  import opened Sequences

  /* ----- balanced tokens are a forest ----- */

  // The tokens that close a stack of open brackets, with a forest before,
  // between and after the closing brackets. The innermost is last.
  function Unwind(fs: seq<Forest>, stack: seq<char>): seq<Token>
    requires |fs| == |stack| + 1
    decreases |stack|, 1
  {
    Flat(fs[|stack|]) + Outer(fs[..|stack|], stack)
  }

  function Outer(fs: seq<Forest>, stack: seq<char>): seq<Token>
    requires |fs| == |stack|
    decreases |stack|, 0
  {
    if stack == [] then []
    else [Punct(CloserOf(stack[|stack| - 1]))] + Unwind(fs, stack[..|stack| - 1])
  }

  predicate StackOk(stack: seq<char>) {
    forall i :: 0 <= i < |stack| ==> stack[i] == '[' || stack[i] == '{'
  }

  predicate FrameOk(fs: seq<Forest>) {
    forall i :: 0 <= i < |fs| ==> ForestOk(fs[i], i == 0)
  }

  // One token in front of what unwinds the stack it leaves.
  function Grow(token: Token, stack: seq<char>, fs: seq<Forest>): (gs: seq<Forest>)
    requires Step(token, State([], [], stack)).Ok?
    requires |fs| == |Step(token, State([], [], stack)).value.brackets| + 1
    ensures |gs| == |stack| + 1
  {
    var n := |fs|;
    if Opening(token) then fs[..n - 2] + [Group(token.mark, fs[n - 1], fs[n - 2])]
    else if Closing(token) then fs + [Empty]
    else fs[..n - 1] + [Leaf(token, fs[n - 1])]
  }

  lemma RegroupAll(open: seq<Token>, body: seq<Token>, close: seq<Token>, next: seq<Token>, outer: seq<Token>)
    ensures open + body + close + next + outer == open + (body + (close + (next + outer)))
  {
  }

  lemma GrowOpening(token: Token, stack: seq<char>, fs: seq<Forest>)
    requires StackOk(stack) && Opening(token) && |fs| == |stack| + 2 && FrameOk(fs)
    ensures FrameOk(Grow(token, stack, fs))
    ensures Unwind(Grow(token, stack, fs), stack) == [token] + Unwind(fs, stack + [token.mark])
  {
    var n := |stack|;
    var gs := Grow(token, stack, fs);
    assert gs[n] == Group(token.mark, fs[n + 1], fs[n]) && gs[..n] == fs[..n];
    assert forall i :: 0 <= i < n ==> gs[i] == fs[i];
    OpeningUnwinds(token, stack, fs);
  }

  lemma OuterStep(open: char, stack: seq<char>, fs: seq<Forest>)
    requires |fs| == |stack| + 1
    ensures Outer(fs, stack + [open]) ==
            [Punct(CloserOf(open))] + (Flat(fs[|stack|]) + Outer(fs[..|stack|], stack))
  {
    assert (stack + [open])[..|stack|] == stack;
  }

  lemma OpeningUnwinds(token: Token, stack: seq<char>, fs: seq<Forest>)
    requires Opening(token) && |fs| == |stack| + 2
    ensures var n := |stack|;
            Flat(Group(token.mark, fs[n + 1], fs[n])) + Outer(fs[..n], stack)
            == [token] + Unwind(fs, stack + [token.mark])
  {
    var n := |stack|;
    OuterStep(token.mark, stack, fs[..n + 1]);
    assert fs[..n + 1][..n] == fs[..n] && fs[..n + 1][n] == fs[n];
    var body, next := Flat(fs[n + 1]), Flat(fs[n]);
    assert Flat(Group(token.mark, fs[n + 1], fs[n])) == [token] + body + [Punct(CloserOf(token.mark))] + next;
    hide Flat, Outer, Opening;
    RegroupAll([token], body, [Punct(CloserOf(token.mark))], next, Outer(fs[..n], stack));
  }

  lemma GrowClosing(token: Token, stack: seq<char>, fs: seq<Forest>)
    requires StackOk(stack) && Closing(token) && stack != [] && stack[|stack| - 1] == Partner(token.mark)
    requires |fs| == |stack| && FrameOk(fs)
    ensures FrameOk(Grow(token, stack, fs))
    ensures Unwind(Grow(token, stack, fs), stack) == [token] + Unwind(fs, stack[..|stack| - 1])
  {
    var n := |stack|;
    var gs := Grow(token, stack, fs);
    assert gs[..n] == fs && gs[n] == Empty && CloserOf(stack[n - 1]) == token.mark;
    hide ForestOk, StackOk;
    assert [] + Outer(fs, stack) == Outer(fs, stack);
  }

  lemma GrowLeaf(token: Token, stack: seq<char>, fs: seq<Forest>)
    requires !Opening(token) && !Closing(token) && !(token.Newline? && stack == [])
    requires |fs| == |stack| + 1 && FrameOk(fs)
    ensures FrameOk(Grow(token, stack, fs))
    ensures Unwind(Grow(token, stack, fs), stack) == [token] + Unwind(fs, stack)
  {
    var n := |stack|;
    var gs := Grow(token, stack, fs);
    assert gs[n] == Leaf(token, fs[n]) && gs[..n] == fs[..n];
    assert forall i :: 0 <= i < n ==> gs[i] == fs[i];
    assert ForestOk(fs[n], n == 0);
    LeafFlat(token, fs[n], Outer(fs[..n], stack));
    hide Flat, Outer, Grow;
  }

  lemma LeafFlat(token: Token, f: Forest, outer: seq<Token>)
    ensures Flat(Leaf(token, f)) + outer == [token] + (Flat(f) + outer)
  {
    var flat := Flat(f);
    assert Flat(Leaf(token, f)) == [token] + flat;
    hide Flat;
  }

  lemma GrowUnwinds(token: Token, stack: seq<char>, fs: seq<Forest>)
    requires StackOk(stack) && Step(token, State([], [], stack)).Ok?
    requires !(token.Newline? && stack == [])
    requires |fs| == |Step(token, State([], [], stack)).value.brackets| + 1 && FrameOk(fs)
    ensures FrameOk(Grow(token, stack, fs))
    ensures Unwind(Grow(token, stack, fs), stack) ==
            [token] + Unwind(fs, Step(token, State([], [], stack)).value.brackets)
  {
    hide Unwind, Grow, FrameOk, StackOk;
    if Opening(token) {
      GrowOpening(token, stack, fs);
    } else if Closing(token) {
      GrowClosing(token, stack, fs);
    } else {
      GrowLeaf(token, stack, fs);
    }
  }

  lemma {:induction false} BalancedIsForest(tokens: seq<Token>, stack: seq<char>) returns (fs: seq<Forest>)
    requires StackOk(stack) && Brackets(tokens, stack) == Some([])
    ensures |fs| == |stack| + 1 && FrameOk(fs) && Unwind(fs, stack) == tokens
    decreases |tokens|
  {
    if tokens == [] {
      fs := [Empty];
    } else {
      var next := Step(tokens[0], State([], [], stack)).value.brackets;
      var rest := BalancedIsForest(tokens[1..], next);
      fs := Grow(tokens[0], stack, rest);
      GrowUnwinds(tokens[0], stack, rest);
    }
  }

  /* ----- the first line of a text answered false ----- */

  // A scan that ends well reaches a line end outside all brackets.
  lemma {:induction false} FirstLine(tokens: seq<Token>, st: State, root: string) returns (n: nat)
    requires Scan(tokens, st, root) == Ok(false)
    requires tokens != [] || st.statement != [] || st.brackets != []
    ensures n < |tokens| && tokens[n] == Newline && Brackets(tokens[..n], st.brackets) == Some([])
    ensures Scan(tokens[n..], State(st.table, st.statement + Kept(tokens[..n]), []), root) == Ok(false)
    decreases |tokens|
  {
    if tokens[0].Newline? && st.brackets == [] {
      n := 0;
      assert st.statement + [] == st.statement && tokens[0..] == tokens;
    } else {
      var next := Step(tokens[0], st).value;
      var m := FirstLine(tokens[1..], next, root);
      n := m + 1;
      OneMore(tokens, st, m);
    }
  }

  lemma OneMore(tokens: seq<Token>, st: State, m: nat)
    requires m < |tokens| - 1 && Step(tokens[0], st).Ok? && !(tokens[0].Newline? && st.brackets == [])
    ensures var next := Step(tokens[0], st).value;
            && tokens[m + 1..] == tokens[1..][m..] && tokens[m + 1] == tokens[1..][m]
            && Brackets(tokens[..m + 1], st.brackets) == Brackets(tokens[1..][..m], next.brackets)
            && st.statement + Kept(tokens[..m + 1]) == next.statement + Kept(tokens[1..][..m])
            && next.table == st.table
  {
    assert tokens[..m + 1][1..] == tokens[1..][..m];
  }

  // Outside brackets the first token of a line is kept.
  lemma FirstKept(line: seq<Token>)
    requires Brackets(line, []).Some? && Kept(line) != []
    ensures line != [] && !line[0].Newline? && Kept(line)[0] == line[0] && Kept(line)[1..] == Kept(line[1..])
    ensures !Opening(line[0]) && !Closing(line[0]) ==> Brackets(line[1..], []) == Brackets(line, [])
  {
  }

  // Outside brackets, plain tokens and equal signs stand as they are kept.
  lemma {:induction false} PlainPrefix(line: seq<Token>, k: nat)
    requires Brackets(line, []).Some? && k <= |Kept(line)|
    requires forall i :: 0 <= i < k ==> !Opening(Kept(line)[i]) && !Closing(Kept(line)[i])
    ensures k <= |line| && line[..k] == Kept(line)[..k]
    ensures Brackets(line[k..], []) == Brackets(line, []) && Kept(line[k..]) == Kept(line)[k..]
  {
    if k > 0 {
      FirstKept(line);
      hide Brackets, Opening, Closing;
      var kept, later := Kept(line), Kept(line[1..]);
      assert kept == [line[0]] + later;
      hide Kept;
      assert !Opening(kept[0]) && !Closing(kept[0]);
      assert kept[1..] == later && forall i :: 0 <= i < k - 1 ==> later[i] == kept[i + 1];
      PlainPrefix(line[1..], k - 1);
      Sequences.SplitAfterFirst(line, k);
      Sequences.SplitAfterFirst(kept, k);
    }
  }

  lemma {:induction false} NoLineEndAtEnd(tokens: seq<Token>, stack: seq<char>)
    requires Brackets(tokens, stack) == Some([]) && tokens != []
    ensures !tokens[|tokens| - 1].Newline?
    decreases |tokens|
  {
    if |tokens| > 1 {
      NoLineEndAtEnd(tokens[1..], Step(tokens[0], State([], [], stack)).value.brackets);
    }
  }

  lemma {:induction false} KeyIsPlain(key: seq<Token>)
    requires Key(key).Ok?
    ensures KeyTokens(key)
  {
    if |key| > 1 {
      KeyIsPlain(key[2..]);
      assert forall i :: 2 <= i < |key| ==> key[i] == key[2..][i - 2];
    }
  }

  lemma ThreeParts(st: seq<Token>, c: nat)
    requires 2 * c <= |st|
    ensures st == st[..c] + st[c..|st| - c] + st[|st| - c..]
  {
  }

  lemma HeaderShape(st: seq<Token>, table: seq<string>, root: string) returns (double: bool, key: seq<Token>)
    requires st != [] && st[0] == Punct('[') && Close(st, table, root).Ok?
    ensures Key(key).Ok? && st == HeaderTokens(double, key)
  {
    var n := |st|;
    double := n > 1 && st[1] == Punct('[');
    var c := if double then 2 else 1;
    key := if 2 * c <= n then st[c..n - c] else [];
    assert Key(key).Ok? && 2 * c <= n;
    assert st[n - 1] == Punct(']') && (double ==> st[n - 2] == Punct(']'));
    hide Key, Close;
    ThreeParts(st, c);
    if double {
      assert st[..2] == [Punct('['), Punct('[')] && st[n - 2..] == [Punct(']'), Punct(']')];
    } else {
      assert st[..1] == [Punct('[')] && st[n - 1..] == [Punct(']')];
    }
  }

  lemma HeaderLine(line: seq<Token>, table: seq<string>, root: string) returns (item: Item)
    requires line != [] && Brackets(line, []) == Some([])
    requires Kept(line) != [] && Kept(line)[0] == Punct('[') && Close(Kept(line), table, root).Ok?
    ensures item.Header? && ItemOk(item) && ItemTokens(item) == line && Key(item.key).Ok?
  {
    var double, key := HeaderShape(Kept(line), table, root);
    KeyIsPlain(key);
    NoLineEndAtEnd(line, []);
    item := Header(double, key, line);
  }

  lemma KeyPrefix(line: seq<Token>, k: nat)
    requires Brackets(line, []) == Some([]) && 0 < k < |Kept(line)| - 1
    requires KeyTokens(Kept(line)[..k]) && Kept(line)[k] == Punct('=')
    ensures k + 1 <= |line| && line[..k + 1] == Kept(line)[..k] + [Punct('=')]
    ensures Brackets(line[k + 1..], []) == Some([]) && line[k + 1..] != []
  {
    var st := Kept(line);
    forall i | 0 <= i < k + 1 ensures !Opening(st[i]) && !Closing(st[i]) {
      if i < k { assert st[i] == st[..k][i] && Plain(st[..k][i]); }
    }
    PlainPrefix(line, k + 1);
    assert Kept(line[k + 1..]) != [] ==> line[k + 1..] != [];
    hide Kept, Brackets, KeyTokens;
    assert st[..k + 1] == st[..k] + [st[k]];
    assert st[k + 1..] != [];
  }

  lemma BalancedLine(line: seq<Token>) returns (f: Forest)
    requires Brackets(line, []) == Some([])
    ensures ForestOk(f, true) && Flat(f) == line
  {
    var fs := BalancedIsForest(line, []);
    f := fs[0];
    assert ForestOk(fs[0], 0 == 0);
    hide ForestOk, Brackets, Flat;
    assert Flat(f) + [] == Flat(f);
  }

  lemma KeyThenValue(line: seq<Token>, k: nat) returns (value: Forest)
    requires Brackets(line, []) == Some([]) && 0 < k < |Kept(line)| - 1
    requires KeyTokens(Kept(line)[..k]) && Kept(line)[k] == Punct('=')
    ensures value != Empty && ForestOk(value, true)
    ensures line == Kept(line)[..k] + ([Punct('=')] + Flat(value))
  {
    KeyPrefix(line, k);
    value := BalancedLine(line[k + 1..]);
    assert value != Empty;
    hide *;
    Rejoin(line, k + 1);
    Regroup(Kept(line)[..k], [Punct('=')], Flat(value));
  }

  lemma AssignmentLine(line: seq<Token>, table: seq<string>, root: string) returns (item: Item)
    requires Brackets(line, []) == Some([])
    requires Kept(line) != [] && Kept(line)[0] != Punct('[') && Close(Kept(line), table, root).Ok?
    ensures item.Assignment? && ItemOk(item) && ItemTokens(item) == line && Key(item.key).Ok?
  {
    var st := Kept(line);
    var k := Split(st);
    assert Key(st[..k]).Ok? && 0 < k < |st| - 1;
    KeyIsPlain(st[..k]);
    hide Key, Close, Kept, Brackets;
    var value := KeyThenValue(line, k);
    item := Assignment(st[..k], value);
  }

  lemma LineIsItem(line: seq<Token>, table: seq<string>, root: string) returns (item: Item)
    requires Brackets(line, []) == Some([])
    requires Kept(line) != [] ==> Close(Kept(line), table, root).Ok?
    ensures ItemOk(item) && ItemTokens(item) == line && (!item.Blank? ==> Key(item.key).Ok?)
  {
    if line == [] {
      item := Blank;
    } else {
      assert Kept(line) != [] by { NoLineEndAtEnd(line, []); KeptAtEnd(line); }
      if Kept(line)[0] == Punct('[') {
        item := HeaderLine(line, table, root);
      } else {
        item := AssignmentLine(line, table, root);
      }
    }
  }

  // The first line of a text answered false is an item, and so is the rest.
  lemma FirstItem(tokens: seq<Token>, table: seq<string>, root: string) returns (n: nat, item: Item, inner: seq<string>)
    requires tokens != [] && Scan(tokens, State(table, [], []), root) == Ok(false)
    ensures n < |tokens| && tokens == tokens[..n] + [Newline] + tokens[n + 1..]
    ensures ItemOk(item) && ItemTokens(item) == tokens[..n] && (!item.Blank? ==> Key(item.key).Ok?)
    ensures Scan(tokens[n + 1..], State(inner, [], []), root) == Ok(false)
  {
    n := FirstLine(tokens, State(table, [], []), root);
    var line := tokens[..n];
    NothingBefore(Kept(line));
    ClosesWell(tokens[n..], table, Kept(line), root);
    hide *;
    item := LineIsItem(line, table, root);
    SplitAtNewline(tokens, n);
    ScanLine(item, tokens[n + 1..], table, root);
    inner := Process(item, table, root).value.table;
  }

  lemma SplitAtNewline(tokens: seq<Token>, n: nat)
    requires n < |tokens| && tokens[n] == Newline
    ensures tokens == tokens[..n] + [Newline] + tokens[n + 1..]
  {
  }

  lemma ClosesWell(tokens: seq<Token>, table: seq<string>, statement: seq<Token>, root: string)
    requires tokens != [] && tokens[0] == Newline && Scan(tokens, State(table, statement, []), root) == Ok(false)
    ensures statement != [] ==> Close(statement, table, root).Ok?
  {
    hide Close;
  }

  lemma {:induction false} FalseIsDocument(tokens: seq<Token>, table: seq<string>, root: string) returns (items: seq<Item>)
    requires Scan(tokens, State(table, [], []), root) == Ok(false)
    ensures ItemsOk(items) && KeysDecode(items) && DocTokens(items) == tokens
    decreases |tokens|
  {
    if tokens == [] {
      items := [];
    } else {
      hide *;
      var n, item, inner := FirstItem(tokens, table, root);
      var others := FalseIsDocument(tokens[n + 1..], inner, root);
      items := [item] + others;
      DocInFront(item, others);
    }
  }

  lemma DocInFront(item: Item, others: seq<Item>)
    requires ItemOk(item) && ItemsOk(others) && KeysDecode(others) && (!item.Blank? ==> Key(item.key).Ok?)
    ensures ItemsOk([item] + others) && KeysDecode([item] + others)
    ensures DocTokens([item] + others) == ItemTokens(item) + [Newline] + DocTokens(others)
  {
    hide ItemOk, Key, ItemTokens;
    assert ([item] + others)[1..] == others;
  }

  // The whole text of a document that does not declare the root key.
  predicate ShowsWithout(ls: seq<Lexeme>, items: seq<Item>, text: string, root: string) {
    && WellSpaced(ls) && PrintAll(ls) == text
    && ItemsOk(items) && KeysDecode(items) && TokensOf(ls) + [Newline] == DocTokens(items)
    && !Declares(items, root)
  }

  // Storage is reported absent for exactly the texts laid out from a document
  // with readable keys that does not declare the root key. Every other text is
  // refused or reported as declaring it.
  lemma AbsentIffDocument(text: string, root: string)
    ensures HasStorage(text, root) == Ok(false) <==> (exists ls, items :: ShowsWithout(ls, items, text, root))
  {
    if HasStorage(text, root) == Ok(false) {
      var ls := ReadIsLaidOut(text);
      var items := FalseIsDocument(TokensOf(ls) + [Newline], [], root);
      DocumentAnswered(ls, items, root);
      assert ShowsWithout(ls, items, text, root);
    }
    if ls, items :| ShowsWithout(ls, items, text, root) {
      DocumentAnswered(ls, items, root);
    }
  }

  predicate SameKeys(items: seq<Item>, items': seq<Item>) {
    && |items| == |items'|
    && forall i :: 0 <= i < |items| ==>
         (items[i].Blank? <==> items'[i].Blank?) && (items[i].Header? <==> items'[i].Header?)
         && (!items[i].Blank? ==> items[i].key == items'[i].key)
  }

  lemma SameKeysDeclare(items: seq<Item>, items': seq<Item>, root: string)
    requires SameKeys(items, items') && Declares(items, root)
    ensures Declares(items', root)
  {
    var i :| 0 <= i < |items| && DeclaresAt(items, i, root);
    assert DeclaresAt(items', i, root);
  }

  // Two documents with the same keys in the same places get the same answer,
  // whatever their values, strings, comments and layout.
  lemma ContentsDoNotMatter(ls: seq<Lexeme>, items: seq<Item>, ls': seq<Lexeme>, items': seq<Item>, root: string)
    requires WellSpaced(ls) && ItemsOk(items) && KeysDecode(items) && TokensOf(ls) + [Newline] == DocTokens(items)
    requires WellSpaced(ls') && ItemsOk(items') && KeysDecode(items') && TokensOf(ls') + [Newline] == DocTokens(items')
    requires SameKeys(items, items')
    ensures HasStorage(PrintAll(ls), root) == HasStorage(PrintAll(ls'), root)
  {
    DocumentAnswered(ls, items, root);
    DocumentAnswered(ls', items', root);
    assert SameKeys(items', items);
    if Declares(items, root) { SameKeysDeclare(items, items', root); }
    if Declares(items', root) { SameKeysDeclare(items', items, root); }
  }
}
