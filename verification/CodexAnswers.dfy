/** Exactly which documents the scanner answers wrongly, in terms of the TOML
    names of their spelled keys. */
module CodexAnswers {
  import opened Text
  import opened CodexConfig
  import opened CodexLayout
  import opened CodexDocument
  import opened CodexAccepted
  import opened CodexKeys
  import opened CodexEscapes

  /* ----- the first item that decides ----- */

  predicate Decodes(item: Item) {
    !item.Blank? ==> Key(item.key).Ok?
  }

  // Read as the root key, from inside a table or not.
  predicate ReadAt(items: seq<Item>, i: nat, inTable: bool, root: string)
    requires i < |items|
  {
    DeclaresAt(items, i, root) && (inTable ==> !items[i].Assignment?)
  }

  predicate DecidedAt(items: seq<Item>, i: nat, inTable: bool, root: string) {
    && i < |items|
    && (forall j :: 0 <= j < i ==> Decodes(items[j]) && !ReadAt(items, j, inTable, root))
    && (!Decodes(items[i]) || ReadAt(items, i, inTable, root))
  }

  lemma ReadLater(items: seq<Item>, j: nat, inTable: bool, root: string)
    requires 0 < j < |items|
    ensures ReadAt(items, j, inTable, root) <==> ReadAt(items[1..], j - 1, inTable || items[0].Header?, root)
  {
    var rest := items[1..];
    assert items[j] == rest[j - 1];
    assert TopLevel(items, j) <==> !items[0].Header? && TopLevel(rest, j - 1) by {
      if !items[0].Header? && TopLevel(rest, j - 1) {
        forall k | 0 <= k < j ensures !items[k].Header? {
          if k > 0 { assert items[k] == rest[k - 1]; }
        }
      }
      if TopLevel(items, j) {
        forall k | 0 <= k < j - 1 ensures !rest[k].Header? { assert rest[k] == items[k + 1]; }
      }
    }
  }

  lemma {:induction false} DecidedAnswer(items: seq<Item>, table: seq<string>, root: string, i: nat)
    requires DecidedAt(items, i, table != [], root)
    ensures if Decodes(items[i]) then Answer(items, table, root) == Ok(true) else Answer(items, table, root).Err?
  {
    if i > 0 {
      var rest := items[1..];
      assert Decodes(items[0]) && !ReadAt(items, 0, table != [], root);
      var inner := Process(items[0], table, root).value.table;
      assert inner != [] <==> table != [] || items[0].Header?;
      forall j | 0 < j <= i
        ensures items[j] == rest[j - 1]
        ensures ReadAt(items, j, table != [], root) <==> ReadAt(rest, j - 1, inner != [], root)
      {
        ReadLater(items, j, table != [], root);
      }
      forall j | 0 <= j < i - 1 ensures Decodes(rest[j]) && !ReadAt(rest, j, inner != [], root) {
        assert rest[j] == items[j + 1];
      }
      DecidedAnswer(rest, inner, root, i - 1);
    }
  }

  lemma {:induction false} FirstDecided(items: seq<Item>, n: nat, root: string) returns (i: nat)
    requires n <= |items| && exists k :: 0 <= k < n && (!Decodes(items[k]) || ReadAt(items, k, false, root))
    ensures DecidedAt(items, i, false, root)
  {
    if k :| 0 <= k < n - 1 && (!Decodes(items[k]) || ReadAt(items, k, false, root)) {
      i := FirstDecided(items, n - 1, root);
    } else {
      i := n - 1;
    }
  }

  lemma UndecidedAnswer(items: seq<Item>, root: string)
    requires ItemsOk(items)
    requires forall k :: 0 <= k < |items| ==> Decodes(items[k]) && !ReadAt(items, k, false, root)
    ensures KeysDecode(items) && !Declares(items, root) && Answer(items, [], root) == Ok(false)
  {
    AnswerIs(items, [], root);
    assert forall k :: 0 <= k < |items| ==> Decodes(items[k]) && !DeclaresAt(items, k, root) by {
      forall k | 0 <= k < |items| ensures Decodes(items[k]) && !DeclaresAt(items, k, root) {
        assert !ReadAt(items, k, false, root);
      }
    }
  }

  /* ----- documents with spelled keys ----- */

  // A key with another name, where the root key could be set, that is read as
  // the root key.
  predicate FalseAlarm(es: seq<Entry>, i: nat, root: string)
    requires i < |es| && EntryOk(es[i])
  {
    && !es[i].NoEntry?
    && (es[i].Setting? ==> forall j :: 0 <= j < i ==> !es[j].Table?)
    && Name(es[i].path[0]) != root && Segment(PartToken(es[i].path[0])) == Ok(root)
  }

  // A false alarm always comes from an escape that is decoded twice or not at all.
  lemma FalseAlarmIsUnreadable(es: seq<Entry>, i: nat, root: string)
    requires i < |es| && EntryOk(es[i]) && FalseAlarm(es, i, root)
    ensures !Readable(es[i].path[0])
  {
    hide Segment, Readable;
    PartReadIff(es[i].path[0]);
  }

  lemma ReadIsNamedOrAlarm(es: seq<Entry>, i: nat, root: string)
    requires EntriesOk(es) && i < |es| && EntryOk(es[i]) && ReadAt(ItemsOf(es), i, false, root)
    ensures SetsAt(es, i, root) || FalseAlarm(es, i, root)
  {
    var items := ItemsOf(es);
    assert items[i] == ItemOf(es[i]) && !es[i].NoEntry?;
    KeyOfPlain(es[i].path);
    hide PartToken, KeyOf, Name, HeaderTokens, Segment;
    assert items[i].Assignment? ==> TopLevel(items, i);
    assert TopLevel(items, i) <==> forall j :: 0 <= j < i ==> !es[j].Table?;
  }

  // The answer is wrong if and only if the first entry that does not decode or
  // is read as the root key does not decode, or is a false alarm in a document
  // that does not set the root key at all.
  lemma WrongAnswerIff(ls: seq<Lexeme>, es: seq<Entry>, root: string)
    requires WellSpaced(ls) && EntriesOk(es) && PlainRoot(root)
    requires TokensOf(ls) + [Newline] == DocTokens(ItemsOf(es))
    ensures HasStorage(PrintAll(ls), root) != Ok(Sets(es, root)) <==>
      exists i :: 0 <= i < |es| && DecidedAt(ItemsOf(es), i, false, root)
        && (!Decodes(ItemsOf(es)[i]) || (FalseAlarm(es, i, root) && !Sets(es, root)))
  {
    var items := ItemsOf(es);
    EntriesAreItems(es);
    LayoutReads(ls);
    assert Shows(PrintAll(ls), items);
    ShownAnswer(PrintAll(ls), items, root);
    hide HasStorage, PrintAll, Answer, Decodes, DocTokens, TokensOf, ItemsOk, Shows, DecidedAt;
    AnswerOfEntries(es, root);
  }

  lemma AnswerOfEntries(es: seq<Entry>, root: string)
    requires EntriesOk(es) && PlainRoot(root) && ItemsOk(ItemsOf(es))
    ensures Answer(ItemsOf(es), [], root) != Ok(Sets(es, root)) <==>
      exists i :: 0 <= i < |es| && DecidedAt(ItemsOf(es), i, false, root)
        && (!Decodes(ItemsOf(es)[i]) || (FalseAlarm(es, i, root) && !Sets(es, root)))
  {
    var items := ItemsOf(es);
    hide Answer, ItemsOk, Decodes, ReadAt, FalseAlarm, SetsAt, Shows;
    forall i | 0 <= i < |es| && DecidedAt(items, i, false, root)
      ensures if Decodes(items[i]) then Answer(items, [], root) == Ok(true) else Answer(items, [], root).Err?
    {
      DecidedAnswer(items, [], root, i);
    }
    if exists k :: 0 <= k < |items| && (!Decodes(items[k]) || ReadAt(items, k, false, root)) {
      var i := FirstDecided(items, |items|, root);
      if Decodes(items[i]) {
        ReadIsNamedOrAlarm(es, i, root);
      }
    } else {
      UndecidedAnswer(items, root);
      if i :| 0 <= i < |es| && SetsAt(es, i, root) {
        assert EntryOk(es[i]);
        SetIsDeclared(es, root, i);
      }
    }
  }
}
