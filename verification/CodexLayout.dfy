/** What texts the configuration lexer accepts: exactly the ones laid out from
    blanks, comments, line ends, words, marks and strings. */
module CodexLayout {
  import opened Text
  import opened CodexConfig
  import opened Sequences

  // A string is printed from its quotes and pieces; a piece is a plain
  // character or, between double quotes, a backslash and a character.
  datatype Piece = Piece(escaped: bool, c: char)

  datatype Lexeme =
    | Space(c: char)
    | Comment(body: string)
    | LineEnd
    | MarkOf(c: char)
    | Word(text: string)
    | Quoted(q: char, triple: bool, pieces: seq<Piece>, extra: nat)

  function PrintPiece(p: Piece): (s: string)
    ensures |s| >= 1
  {
    if p.escaped then ['\\', p.c] else [p.c]
  }

  function PrintPieces(ps: seq<Piece>): string {
    if ps == [] then "" else PrintPiece(ps[0]) + PrintPieces(ps[1..])
  }

  function Quotes(q: char, n: nat): (s: string)
    ensures |s| == n && forall i :: 0 <= i < n ==> s[i] == q
  {
    seq(n, _ => q)
  }

  function Width(triple: bool): nat {
    if triple then 3 else 1
  }

  function Print(l: Lexeme): string {
    match l
    case Space(c) => [c]
    case Comment(body) => "#" + body
    case LineEnd => "\n"
    case MarkOf(c) => [c]
    case Word(text) => text
    case Quoted(q, triple, pieces, extra) =>
      Quotes(q, Width(triple)) + (PrintPieces(pieces) + Quotes(q, Width(triple)) + Quotes(q, extra))
  }

  function PrintAll(ls: seq<Lexeme>): string {
    if ls == [] then "" else Print(ls[0]) + PrintAll(ls[1..])
  }

  // The contents never show the closing quotes before the end.
  predicate PiecesOk(ps: seq<Piece>, q: char, triple: bool)
    decreases |ps|
  {
    ps == [] ||
    (&& !Closes(PrintPieces(ps) + Quotes(q, Width(triple)), q, triple)
     && (ps[0].escaped <==> q == '"' && PrintPiece(ps[0])[0] == '\\')
     && (!triple && !ps[0].escaped ==> ps[0].c != '\r' && ps[0].c != '\n')
     && PiecesOk(ps[1..], q, triple))
  }

  predicate LexemeOk(l: Lexeme) {
    match l
    case Space(c) => Blank(c)
    case Comment(body) => forall i :: 0 <= i < |body| ==> body[i] != '\n'
    case LineEnd => true
    case MarkOf(c) => Mark(c)
    case Word(text) => text != "" && forall i :: 0 <= i < |text| ==> !Delimiter(text[i]) && !BadChar(text[i])
    case Quoted(q, triple, pieces, extra) => QuoteMark(q) && PiecesOk(pieces, q, triple) && extra <= if triple then 2 else 0
  }

  // Whether a lexeme ends where the printed rest starts.
  predicate Fits(l: Lexeme, rest: string) {
    match l
    case Comment(_) => rest == "" || rest[0] == '\n'
    case Word(_) => rest == "" || Delimiter(rest[0])
    case Quoted(q, triple, pieces, extra) =>
      (if triple then extra < 2 else pieces == []) ==> rest == "" || rest[0] != q
    case _ => true
  }

  predicate WellSpaced(ls: seq<Lexeme>) {
    ls == [] || (LexemeOk(ls[0]) && Fits(ls[0], PrintAll(ls[1..])) && WellSpaced(ls[1..]))
  }

  function TokenOf(l: Lexeme): seq<Token> {
    match l
    case Space(_) => []
    case Comment(_) => []
    case LineEnd => [Newline]
    case MarkOf(c) => [Punct(c)]
    case Word(text) => [Bare(text)]
    case Quoted(_, _, _, _) => [Str(Print(l))]
  }

  function TokensOf(ls: seq<Lexeme>): seq<Token> {
    if ls == [] then [] else TokenOf(ls[0]) + TokensOf(ls[1..])
  }

  /* ----- a printed layout is read back ----- */

  lemma {:induction false} CommentReads(body: string, rest: string)
    requires forall i :: 0 <= i < |body| ==> body[i] != '\n'
    requires rest == "" || rest[0] == '\n'
    ensures CommentLength(body + rest) == |body|
  {
    if body != "" {
      assert (body + rest)[1..] == body[1..] + rest;
      CommentReads(body[1..], rest);
    } else {
      assert body + rest == rest;
    }
  }

  lemma {:induction false} WordReads(text: string, rest: string)
    requires forall i :: 0 <= i < |text| ==> !Delimiter(text[i])
    requires rest == "" || Delimiter(rest[0])
    ensures BareLength(text + rest) == |text|
  {
    if text != "" {
      assert (text + rest)[1..] == text[1..] + rest;
      WordReads(text[1..], rest);
    } else {
      assert text + rest == rest;
    }
  }

  lemma ExtraReads(q: char, extra: nat, rest: string)
    requires extra <= 2 && (extra < 2 ==> rest == "" || rest[0] != q)
    ensures ExtraQuotes(Quotes(q, extra) + rest, q) == extra
  {
    var s := Quotes(q, extra) + rest;
    if extra == 0 {
      assert s == rest;
    } else {
      assert s[0] == q && (|s| > 1 ==> s[1] == if extra == 2 then q else rest[0]);
    }
  }

  // The tail after the contents: closing quotes, extra quotes, the rest.
  lemma ClosingReads(q: char, triple: bool, extra: nat, rest: string)
    requires extra <= if triple then 2 else 0
    requires triple && extra < 2 ==> rest == "" || rest[0] != q
    ensures BodyLength(Quotes(q, Width(triple)) + Quotes(q, extra) + rest, q, triple) == Some(Width(triple) + extra)
  {
    var tail := Quotes(q, Width(triple)) + Quotes(q, extra) + rest;
    assert tail[0] == q;
    if triple {
      assert tail[1] == q && tail[2] == q;
      ExtraReads(q, extra, rest);
      assert tail[3..] == Quotes(q, extra) + rest;
    }
    hide Quotes, ExtraQuotes;
  }

  // One character or escape that closes nothing.
  lemma BodySkips(body: string, q: char, triple: bool, step: nat)
    requires body != "" && !Closes(body, q, triple) && step <= |body|
    requires step == if q == '"' && body[0] == '\\' then 2 else 1
    requires !triple ==> step == 2 || (body[0] != '\r' && body[0] != '\n')
    ensures BodyLength(body, q, triple) == Shift(step, BodyLength(body[step..], q, triple))
  {
    hide Closes;
  }

  lemma NotClosedBefore(shown: string, more: string, q: char, triple: bool)
    requires !Closes(shown, q, triple) && |shown| >= Width(triple)
    ensures !Closes(shown + more, q, triple)
  {
    assert forall i :: 0 <= i < |shown| ==> (shown + more)[i] == shown[i];
  }

  // One piece, in front of more pieces and the closing quotes.
  lemma PieceReads(ps: seq<Piece>, q: char, triple: bool, more: string)
    requires ps != [] && PiecesOk(ps, q, triple)
    ensures var tail := Quotes(q, Width(triple)) + more;
            BodyLength(PrintPieces(ps) + tail, q, triple) ==
            Shift(|PrintPiece(ps[0])|, BodyLength(PrintPieces(ps[1..]) + tail, q, triple))
  {
    var close := Quotes(q, Width(triple));
    var head, later := PrintPiece(ps[0]), PrintPieces(ps[1..]);
    NotClosedBefore(PrintPieces(ps) + close, more, q, triple);
    assert PrintPieces(ps) == head + later && (ps[0].escaped <==> q == '"' && head[0] == '\\');
    assert !triple && !ps[0].escaped ==> head[0] != '\r' && head[0] != '\n';
    assert |head| == if ps[0].escaped then 2 else 1;
    hide *;
    Regroup(PrintPieces(ps), close, more);
    Regroup(head, later, close + more);
    Halves(head, later + (close + more));
    var body := head + (later + (close + more));
    assert body[0] == head[0];
    BodySkips(body, q, triple, |head|);
  }

  lemma NoPieces(q: char, triple: bool, extra: nat, rest: string)
    requires extra <= if triple then 2 else 0
    requires triple && extra < 2 ==> rest == "" || rest[0] != q
    ensures BodyLength(PrintPieces([]) + (Quotes(q, Width(triple)) + (Quotes(q, extra) + rest)), q, triple)
            == Some(Width(triple) + extra)
  {
    ClosingReads(q, triple, extra, rest);
    assert PrintPieces([]) == "";
    hide *;
    Regroup(Quotes(q, Width(triple)), Quotes(q, extra), rest);
    NothingBefore(Quotes(q, Width(triple)) + (Quotes(q, extra) + rest));
  }

  lemma LaterPieces(ps: seq<Piece>, q: char, triple: bool)
    requires ps != [] && PiecesOk(ps, q, triple)
    ensures PiecesOk(ps[1..], q, triple) && |PrintPieces(ps)| == |PrintPiece(ps[0])| + |PrintPieces(ps[1..])|
  {
    hide Closes;
  }

  lemma {:induction false} BodyReads(ps: seq<Piece>, q: char, triple: bool, extra: nat, rest: string)
    requires PiecesOk(ps, q, triple)
    requires extra <= if triple then 2 else 0
    requires triple && extra < 2 ==> rest == "" || rest[0] != q
    ensures BodyLength(PrintPieces(ps) + (Quotes(q, Width(triple)) + (Quotes(q, extra) + rest)), q, triple)
            == Some(|PrintPieces(ps)| + Width(triple) + extra)
  {
    if ps == [] {
      assert PrintPieces([]) == "";
      hide *;
      NoPieces(q, triple, extra, rest);
    } else {
      hide *;
      PieceReads(ps, q, triple, Quotes(q, extra) + rest);
      LaterPieces(ps, q, triple);
      BodyReads(ps[1..], q, triple, extra, rest);
      assert forall n: nat, m: nat :: Shift(n, Some(m)) == Some(n + m) by { ShiftAdds(); }
    }
  }

  lemma ShiftAdds()
    ensures forall n: nat, m: nat :: Shift(n, Some(m)) == Some(n + m)
  {
  }

  lemma QuotedSplits(l: Lexeme, rest: string)
    requires l.Quoted?
    ensures var w := Width(l.triple);
            var text := Print(l) + rest;
            && |text| >= w && text[..w] == Quotes(l.q, w) && text != "" && text[0] == l.q
            && text[w..] == PrintPieces(l.pieces) + (Quotes(l.q, w) + (Quotes(l.q, l.extra) + rest))
            && |Print(l)| == w + |PrintPieces(l.pieces)| + w + l.extra
  {
    hide PrintPieces;
    var w := Width(l.triple);
    assert Print(l) + rest == Quotes(l.q, w) + (PrintPieces(l.pieces) + (Quotes(l.q, w) + (Quotes(l.q, l.extra) + rest)));
  }

  lemma QuotedReads(l: Lexeme, rest: string)
    requires l.Quoted? && LexemeOk(l) && Fits(l, rest)
    ensures StringLength(Print(l) + rest) == Some(|Print(l)|)
  {
    var text := Print(l) + rest;
    QuotedSplits(l, rest);
    BodyReads(l.pieces, l.q, l.triple, l.extra, rest);
    if !l.triple {
      OpensOnce(l, rest);
    } else {
      assert Opens3(text, l.q) by {
        assert text[..3][0] == l.q && text[..3][1] == l.q && text[..3][2] == l.q;
      }
    }
    hide Print, PrintPieces, BodyLength, Quotes, LexemeOk, Fits, Opens3;
  }

  lemma OpensOnce(l: Lexeme, rest: string)
    requires l.Quoted? && !l.triple && LexemeOk(l) && Fits(l, rest)
    ensures !Opens3(Print(l) + rest, l.q)
  {
    var text := Print(l) + rest;
    if l.pieces == [] {
      assert text == [l.q, l.q] + rest;
    } else {
      assert text[1] == PrintPiece(l.pieces[0])[0];
      assert !Closes(PrintPieces(l.pieces) + Quotes(l.q, 1), l.q, false);
    }
  }

  lemma FirstChar(head: string, rest: string)
    requires head != ""
    ensures (head + rest)[0] == head[0] && (head + rest)[..|head|] == head && (head + rest)[|head|..] == rest
  {
  }

  lemma CommentRead(body: string, rest: string)
    requires LexemeOk(Comment(body)) && Fits(Comment(body), rest)
    ensures Next("#" + body + rest) == Gap(1 + |body|)
  {
    CommentReads(body, rest);
    var text := "#" + body + rest;
    assert text[0] == '#' && text[1..] == body + rest;
    hide CommentLength;
  }

  lemma WordRead(word: string, rest: string)
    requires LexemeOk(Word(word)) && Fits(Word(word), rest)
    ensures Next(word + rest) == Unit(Bare(word), |word|)
  {
    WordReads(word, rest);
    FirstChar(word, rest);
    var text := word + rest;
    assert forall i :: 0 <= i < |word| ==> text[i] == word[i];
    hide BareLength, StringLength;
  }

  lemma QuotedRead(l: Lexeme, rest: string)
    requires l.Quoted? && LexemeOk(l) && Fits(l, rest)
    ensures Print(l) != "" && Next(Print(l) + rest) == Unit(Str(Print(l)), |Print(l)|)
  {
    QuotedReads(l, rest);
    QuotedSplits(l, rest);
    hide Print, StringLength;
    FirstChar(Print(l), rest);
  }

  lemma LexemeReads(l: Lexeme, rest: string)
    requires LexemeOk(l) && Fits(l, rest)
    ensures Print(l) != ""
    ensures Next(Print(l) + rest) ==
            if TokenOf(l) == [] then Gap(|Print(l)|) else Unit(TokenOf(l)[0], |Print(l)|)
  {
    match l
    case Comment(body) => CommentRead(body, rest);
    case Word(word) => WordRead(word, rest);
    case Quoted(_, _, _, _) => QuotedRead(l, rest);
    case Space(c) => assert ([c] + rest)[0] == c;
    case LineEnd => assert ("\n" + rest)[0] == '\n';
    case MarkOf(c) => assert ([c] + rest)[0] == c;
  }

  // Every layout is read back as its own tokens.
  lemma {:induction false} LayoutReads(ls: seq<Lexeme>)
    requires WellSpaced(ls)
    ensures Tokens(PrintAll(ls)) == Ok(TokensOf(ls))
  {
    if ls != [] {
      var rest := PrintAll(ls[1..]);
      LexemeReads(ls[0], rest);
      assert (Print(ls[0]) + rest)[|Print(ls[0])|..] == rest;
      LayoutReads(ls[1..]);
      assert [] + TokensOf(ls[1..]) == TokensOf(ls[1..]);
    }
  }

  /* ----- a text that is read is a printed layout ----- */

  function PrintBody(ps: seq<Piece>, q: char, triple: bool, extra: nat): string {
    PrintPieces(ps) + Quotes(q, Width(triple)) + Quotes(q, extra)
  }

  lemma PieceLaidOut(text: string, q: char, triple: bool, ps: seq<Piece>, extra: nat)
    requires QuoteMark(q) && BodyLength(text, q, triple).Some? && !Closes(text, q, triple)
    requires ps != [] && ps[0].escaped == (q == '"' && text[0] == '\\')
    requires PrintPiece(ps[0]) <= text && PiecesOk(ps[1..], q, triple)
    requires PrintBody(ps, q, triple, extra) <= text
    ensures PiecesOk(ps, q, triple)
  {
    var shown := PrintPieces(ps) + Quotes(q, Width(triple));
    assert forall i :: 0 <= i < |shown| ==> text[i] == shown[i];
    assert !Closes(shown, q, triple);
    assert PrintPiece(ps[0])[0] == text[0];
  }

  lemma ClosingLaidOut(text: string, q: char, triple: bool) returns (extra: nat)
    requires Closes(text, q, triple)
    ensures extra <= if triple then 2 else 0
    ensures BodyLength(text, q, triple) == Some(Width(triple) + extra)
    ensures text[..Width(triple) + extra] == PrintBody([], q, triple, extra)
    ensures triple && extra < 2 ==> Width(triple) + extra == |text| || text[Width(triple) + extra] != q
  {
    extra := if triple then ExtraQuotes(text[3..], q) else 0;
    assert forall i :: 0 <= i < extra ==> text[3 + i] == text[3..][i];
  }

  lemma BodyJoins(text: string, n: nat, head: Piece, rest: seq<Piece>, q: char, triple: bool, extra: nat)
    requires |PrintPiece(head)| <= n <= |text| && text[|PrintPiece(head)| - 1] == head.c
    requires head.escaped ==> text[0] == '\\'
    requires text[|PrintPiece(head)|..][..n - |PrintPiece(head)|] == PrintBody(rest, q, triple, extra)
    ensures ([head] + rest)[1..] == rest && PrintPiece(head) <= text
    ensures text[..n] == PrintBody([head] + rest, q, triple, extra)
  {
    var step := |PrintPiece(head)|;
    assert ([head] + rest)[1..] == rest && text[..step] == PrintPiece(head);
    assert text[..n] == text[..step] + text[step..][..n - step];
  }

  lemma BodyStep(text: string, q: char, triple: bool) returns (step: nat)
    requires BodyLength(text, q, triple).Some? && !Closes(text, q, triple)
    ensures step == if q == '"' && text[0] == '\\' then 2 else 1
    ensures step <= |text| && BodyLength(text, q, triple) == Shift(step, BodyLength(text[step..], q, triple))
  {
    step := if q == '"' && text[0] == '\\' then 2 else 1;
  }

  // The pieces and extra quotes that a string's rest was laid out from.
  predicate LaidOut(text: string, q: char, triple: bool, ps: seq<Piece>, extra: nat) {
    var n := BodyLength(text, q, triple);
    && n.Some? && PiecesOk(ps, q, triple) && extra <= (if triple then 2 else 0)
    && text[..n.value] == PrintBody(ps, q, triple, extra)
    && (triple && extra < 2 ==> n.value == |text| || text[n.value] != q)
  }

  lemma {:induction false} BodyLaidOut(text: string, q: char, triple: bool) returns (ps: seq<Piece>, extra: nat)
    requires QuoteMark(q) && BodyLength(text, q, triple).Some?
    ensures LaidOut(text, q, triple, ps, extra)
    decreases |text|
  {
    if Closes(text, q, triple) {
      ps := [];
      extra := ClosingLaidOut(text, q, triple);
    } else {
      hide *;
      var step := BodyStep(text, q, triple);
      assert BodyLength(text[step..], q, triple).Some? by { ShiftSome(step, BodyLength(text[step..], q, triple)); }
      assert 1 <= step;
      var rest, tail := BodyLaidOut(text[step..], q, triple);
      extra := tail;
      ps := OnePieceMore(text, q, triple, step, rest, extra);
    }
  }

  lemma ShiftSome(n: nat, m: Option<nat>)
    ensures Shift(n, m).Some? <==> m.Some?
  {
  }

  lemma OnePieceMore(text: string, q: char, triple: bool, step: nat, rest: seq<Piece>, extra: nat) returns (ps: seq<Piece>)
    requires QuoteMark(q) && BodyLength(text, q, triple).Some? && !Closes(text, q, triple)
    requires step == (if q == '"' && text[0] == '\\' then 2 else 1) && step <= |text|
    requires BodyLength(text, q, triple) == Shift(step, BodyLength(text[step..], q, triple))
    requires LaidOut(text[step..], q, triple, rest, extra)
    ensures LaidOut(text, q, triple, ps, extra)
  {
    var n := BodyLength(text, q, triple).value;
    var head := Piece(step == 2, text[step - 1]);
    ps := [head] + rest;
    assert |PrintPiece(head)| == step && n == step + BodyLength(text[step..], q, triple).value;
    assert PiecesOk(rest, q, triple);
    hide BodyLength, PiecesOk, Closes, PrintBody, QuoteMark;
    BodyJoins(text, n, head, rest, q, triple, extra);
    PrefixOf(text, n, PrintBody(ps, q, triple, extra));
    PieceLaidOut(text, q, triple, ps, extra);
    assert n < |text| ==> text[n] == text[step..][n - step];
  }

  lemma PrefixOf(text: string, n: nat, body: string)
    requires n <= |text| && text[..n] == body
    ensures body <= text
  {
  }

  lemma {:induction false} NextLaidOut(text: string) returns (l: Lexeme)
    requires text != "" && !Next(text).Bad?
    ensures LexemeOk(l) && Print(l) == text[..Next(text).width] && Fits(l, text[Next(text).width..])
    ensures TokenOf(l) == if Next(text).Gap? then [] else [Next(text).token]
  {
    var n := Next(text).width;
    var c := text[0];
    if Blank(c) {
      l := Space(c);
    } else if c == '\n' {
      l := LineEnd;
    } else if c == '#' {
      l := Comment(text[1..n]);
      CommentShape(text[1..]);
      assert Print(l) == text[..n];
      assert forall i :: 0 <= i < n - 1 ==> text[1..n][i] == text[1..][i];
    } else if QuoteMark(c) {
      l := StringLaidOut(text);
    } else if Mark(c) {
      l := MarkOf(c);
    } else {
      l := Word(text[..n]);
      BareShape(text);
    }
  }

  lemma {:induction false} CommentShape(text: string)
    ensures forall i :: 0 <= i < CommentLength(text) ==> text[i] != '\n'
  {
    if text != "" && text[0] != '\n' {
      CommentShape(text[1..]);
      forall i | 0 <= i < CommentLength(text) ensures text[i] != '\n' {
        if i > 0 { assert text[i] == text[1..][i - 1]; }
      }
    }
  }

  lemma {:induction false} BareShape(text: string)
    ensures forall i :: 0 <= i < BareLength(text) ==> !Delimiter(text[i])
    ensures BareLength(text) < |text| ==> Delimiter(text[BareLength(text)])
  {
    if text != "" && !Delimiter(text[0]) {
      BareShape(text[1..]);
      forall i | 0 <= i < BareLength(text) ensures !Delimiter(text[i]) {
        if i > 0 { assert text[i] == text[1..][i - 1]; }
      }
    }
  }

  lemma StringLaidOut(text: string) returns (l: Lexeme)
    requires text != "" && QuoteMark(text[0]) && StringLength(text).Some?
    ensures l.Quoted? && LexemeOk(l)
    ensures var n := StringLength(text).value; Print(l) == text[..n] && Fits(l, text[n..])
  {
    var q := text[0];
    var triple := Opens3(text, q);
    var w := Width(triple);
    var n := StringLength(text).value;
    assert BodyLength(text[w..], q, triple) == Some(n - w);
    assert text[..w] == Quotes(q, w);
    var ps, extra := BodyLaidOut(text[w..], q, triple);
    assert LaidOut(text[w..], q, triple, ps, extra);
    l := Quoted(q, triple, ps, extra);
    assert !triple ==> extra == 0;
    assert ps == [] ==> PrintPieces(ps) == "";
    hide BodyLength, PiecesOk, StringLength, Opens3, Quotes, PrintPieces;
    StringJoins(text, w, n, l);
    assert n < |text| ==> text[n..][0] == text[n] == text[w..][n - w];
    if !triple && ps == [] {
      EmptyString(text, n, l);
    }
  }

  lemma StringJoins(text: string, w: nat, n: nat, l: Lexeme)
    requires l.Quoted? && w == Width(l.triple) && w <= n <= |text|
    requires text[..w] == Quotes(l.q, w) && text[w..][..n - w] == PrintBody(l.pieces, l.q, l.triple, l.extra)
    ensures Print(l) == text[..n]
  {
    hide Quotes, PrintPieces;
    assert text[..n] == text[..w] + text[w..][..n - w];
  }

  // Two quotes alone are an empty string, not the start of a longer one.
  lemma EmptyString(text: string, n: nat, l: Lexeme)
    requires l.Quoted? && !l.triple && l.pieces == [] && l.extra == 0
    requires text != "" && text[0] == l.q && !Opens3(text, l.q)
    requires n <= |text| && Print(l) == text[..n]
    ensures n == |text| || text[n..][0] != l.q
  {
    assert Print(l) == [l.q, l.q];
    assert text[1] == text[..n][1];
  }

  predicate LayoutOf(ls: seq<Lexeme>, text: string, tokens: seq<Token>) {
    WellSpaced(ls) && PrintAll(ls) == text && TokensOf(ls) == tokens
  }

  lemma LexemeInFront(l: Lexeme, rest: seq<Lexeme>, text: string, n: nat, tokens: seq<Token>)
    requires n <= |text| && Print(l) == text[..n]
    requires LexemeOk(l) && Fits(l, text[n..]) && LayoutOf(rest, text[n..], tokens)
    ensures LayoutOf([l] + rest, text, TokenOf(l) + tokens)
  {
    hide LexemeOk, Fits, Print, TokenOf;
    assert ([l] + rest)[1..] == rest;
    assert text == text[..n] + text[n..];
  }

  lemma TokensStep(text: string)
    requires text != "" && Tokens(text).Ok?
    ensures !Next(text).Bad? && Tokens(text[Next(text).width..]).Ok?
    ensures Tokens(text).value ==
            (if Next(text).Gap? then [] else [Next(text).token]) + Tokens(text[Next(text).width..]).value
  {
    hide Next;
  }

  lemma {:induction false} ReadIsLaidOut(text: string) returns (ls: seq<Lexeme>)
    requires Tokens(text).Ok?
    ensures LayoutOf(ls, text, Tokens(text).value)
    decreases |text|
  {
    if text == "" {
      ls := [];
    } else {
      TokensStep(text);
      var n := Next(text).width;
      var l := NextLaidOut(text);
      var rest := ReadIsLaidOut(text[n..]);
      ls := [l] + rest;
      hide *;
      LexemeInFront(l, rest, text, n, Tokens(text[n..]).value);
    }
  }

  // The lexer accepts exactly the well-spaced layouts.
  lemma AcceptedIffLaidOut(text: string, tokens: seq<Token>)
    ensures Tokens(text) == Ok(tokens) <==>
      (exists ls :: LayoutOf(ls, text, tokens))
  {
    if Tokens(text) == Ok(tokens) {
      var ls := ReadIsLaidOut(text);
    }
    if ls :| LayoutOf(ls, text, tokens) {
      LayoutReads(ls);
    }
  }
}
