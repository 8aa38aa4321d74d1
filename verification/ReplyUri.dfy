/** Reply addresses: printing and parsing session-peer URIs
    (reply_address and parse_reply_address in session_peer_core/replies.py). */
module ReplyUri {
  import opened Text
  import opened Percent
  import opened Sequences

  const LIMIT := 4096
  const SCHEME := "session-peer:"
  const PLACE := "//v1/reply"

  datatype ReplyError =
    | EmptyOrTooLong | ControlCharacter | UnknownAgent
    | AddressTooLong | WrongForm | MalformedPercent | MalformedQuery
    | UnknownField | DuplicateField | MissingField
    | BadTransport | MissingHost | BadHost | UnexpectedHost
    | BadSession | UnexpectedHome | RelativeHome

  // Who a reply goes to. An empty host or home counts as none.
  datatype Identity = Identity(agent: string, id: string, host: Option<string>, codexHome: Option<string>)

  datatype Address = Address(fields: map<string, string>, target: string)

  predicate KnownAgent(agent: string) {
    agent == "claude" || agent == "codex" || agent == "antigravity"
  }

  // The transport's control characters: C0 and DEL.
  predicate LineControl(c: char) { c as int < 32 || c as int == 127 }

  predicate NoControl(s: string) {
    forall i :: 0 <= i < |s| ==> !LineControl(s[i])
  }

  function CheckValue(s: string): Option<ReplyError> {
    if s == "" || |s| > LIMIT then Some(EmptyOrTooLong)
    else if !NoControl(s) then Some(ControlCharacter)
    else None
  }

  predicate Given(o: Option<string>) { o.Some? && o.value != "" }

  /* ----- printing ----- */

  type Pair = (string, string)

  function PairText(p: Pair): string {
    QuotePlus(p.0) + "=" + QuotePlus(p.1)
  }

  function Query(ps: seq<Pair>): string {
    if ps == [] then "" else if |ps| == 1 then PairText(ps[0]) else PairText(ps[0]) + "&" + Query(ps[1..])
  }

  function Pairs(id: Identity, local: bool): seq<Pair>
    requires local || id.host.Some?
  {
    [("agent", id.agent), ("session", id.id), ("transport", if local then "local" else "ssh")]
    + (if local then [] else [("host", id.host.value)])
    + (if id.agent == "codex" && Given(id.codexHome) then [("codexHome", id.codexHome.value)] else [])
  }

  // None when there is no address to give.
  method ReplyAddress(id: Identity, local: bool) returns (r: Result<Option<string>, ReplyError>)
    ensures !KnownAgent(id.agent) ==> r == Err(UnknownAgent)
    ensures KnownAgent(id.agent) && CheckValue(id.id).Some? ==> r == Err(CheckValue(id.id).value)
    ensures r == Ok(None) <==> KnownAgent(id.agent) && CheckValue(id.id).None? && !local && !Given(id.host)
    ensures r.Ok? && r.value.Some? ==>
      && Printable(id, local) && r.value.value == Uri(id, local) && |r.value.value| <= LIMIT
    ensures Printable(id, local) && |Uri(id, local)| <= LIMIT ==> r == Ok(Some(Uri(id, local)))
  {
    if !KnownAgent(id.agent) {
      return Err(UnknownAgent);
    }
    var bad := CheckValue(id.id);
    if bad.Some? {
      return Err(bad.value);
    }
    if !local && !Given(id.host) {
      return Ok(None);
    }
    var fields := [("agent", id.agent), ("session", id.id), ("transport", if local then "local" else "ssh")];
    if !local {
      bad := CheckValue(id.host.value);
      if bad.Some? {
        return Err(bad.value);
      }
      fields := fields + [("host", id.host.value)];
    }
    if id.agent == "codex" && Given(id.codexHome) {
      bad := CheckValue(id.codexHome.value);
      if bad.Some? {
        return Err(bad.value);
      }
      fields := fields + [("codexHome", id.codexHome.value)];
    }
    assert fields == Pairs(id, local);
    var uri := SCHEME + PLACE + "?" + Query(fields);
    if |uri| > LIMIT {
      return Err(AddressTooLong);
    }
    r := Ok(Some(uri));
  }

  predicate Printable(id: Identity, local: bool) {
    && KnownAgent(id.agent) && CheckValue(id.id).None?
    && (!local ==> Given(id.host) && CheckValue(id.host.value).None?)
    && (id.agent == "codex" && Given(id.codexHome) ==> CheckValue(id.codexHome.value).None?)
  }

  function Uri(id: Identity, local: bool): string
    requires local || id.host.Some?
  {
    SCHEME + PLACE + "?" + Query(Pairs(id, local))
  }

  /* ----- parsing ----- */

  // The place of the first c, or the end.
  function Until(s: string, c: char): (n: nat)
    ensures n <= |s| && (n < |s| ==> s[n] == c) && forall i :: 0 <= i < n ==> s[i] != c
  {
    if s == "" || s[0] == c then 0 else 1 + Until(s[1..], c)
  }

  // A part must hold an equal sign; the first one splits it.
  function PairIn(part: string): Option<Pair> {
    var m := Until(part, '=');
    if m == |part| then None else Some((FieldText(part[..m]), FieldText(part[m + 1..])))
  }

  // The parts between ampersands.
  function QueryPairs(query: string): Option<seq<Pair>>
    decreases |query|
  {
    var n := Until(query, '&');
    var pair := PairIn(query[..n]);
    if pair.None? then None
    else if n == |query| then Some([pair.value])
    else
      match QueryPairs(query[n + 1..])
      case None => None
      case Some(rest) => Some([pair.value] + rest)
  }

  function ParseQuery(query: string): Option<seq<Pair>> {
    if query == "" then Some([]) else QueryPairs(query)
  }

  predicate KnownField(k: string) {
    k == "agent" || k == "session" || k == "transport" || k == "host" || k == "codexHome"
  }

  function Fields(ps: seq<Pair>, fields: map<string, string>): Result<map<string, string>, ReplyError> {
    if ps == [] then Ok(fields)
    else
      var (k, v) := ps[0];
      if !KnownField(k) then Err(UnknownField)
      else if k in fields then Err(DuplicateField)
      else if CheckValue(v).Some? then Err(CheckValue(v).value)
      else Fields(ps[1..], fields[k := v])
  }

  predicate HostChar(c: char) {
    'A' <= c <= 'Z' || 'a' <= c <= 'z' || Digit(c) || c == '_' || c == '.' || c == '@' || c == ':'
    || c == '[' || c == ']' || c == '%' || c == '-'
  }

  predicate HostOk(s: string) {
    s != "" && s[0] != '-' && forall i :: 0 <= i < |s| ==> HostChar(s[i])
  }

  // Eight, four, four, four and twelve digits between hyphens.
  predicate UuidShape(s: string, lower: bool) {
    && |s| == 36
    && forall i :: 0 <= i < 36 ==>
         if i == 8 || i == 13 || i == 18 || i == 23 then s[i] == '-'
         else if lower then LowerHex(s[i]) else Hex(s[i])
  }

  predicate SessionOk(agent: string, session: string) {
    if agent == "claude" then session != ""
    else if agent == "codex" then UuidShape(session, false)
    else UuidShape(session, true)
  }

  predicate Separator(c: char) { c == '\\' || c == '/' }

  // The place of the first path separator from a place on, or the end.
  function NextSeparator(s: string, start: nat): (n: nat)
    requires start <= |s|
    ensures start <= n <= |s|
    decreases |s| - start
  {
    if start == |s| || Separator(s[start]) then start else NextSeparator(s, start + 1)
  }

  // Two separators, a server and a share. A server that is a question mark or
  // a dot names a device, and the path goes on behind it.
  predicate Unc(path: string) {
    && |path| >= 2 && Separator(path[0]) && Separator(path[1])
    && var server := NextSeparator(path, 2);
       && 2 < server < |path|
       && var share := NextSeparator(path, server + 1);
          && server + 1 < share
          && (path[2..server] == "?" || path[2..server] == "." ==> share < |path|)
  }

  predicate Absolute(path: string) {
    || (path != "" && path[0] == '/')
    || (|path| >= 3 && path[1] == ':' && Separator(path[2]))
    || Unc(path)
  }

  function Target(agent: string, session: string): string {
    if agent == "claude" then session else agent + ":" + session
  }

  function CheckFields(f: map<string, string>): Result<Address, ReplyError> {
    if "agent" !in f || "session" !in f || "transport" !in f then Err(MissingField)
    else if !KnownAgent(f["agent"]) then Err(UnknownAgent)
    else if f["transport"] != "local" && f["transport"] != "ssh" then Err(BadTransport)
    else if f["transport"] == "ssh" && "host" !in f then Err(MissingHost)
    else if f["transport"] == "ssh" && !HostOk(f["host"]) then Err(BadHost)
    else if f["transport"] == "local" && "host" in f then Err(UnexpectedHost)
    else if !SessionOk(f["agent"], f["session"]) then Err(BadSession)
    else if f["agent"] != "codex" && "codexHome" in f then Err(UnexpectedHome)
    else if "codexHome" in f && !Absolute(f["codexHome"]) then Err(RelativeHome)
    else Ok(Address(f, Target(f["agent"], f["session"])))
  }

  // The query of a value of the right form; an empty fragment is allowed.
  function QueryOf(value: string): Option<string> {
    if !(SCHEME + PLACE <= value) then None
    else
      var tail := value[|SCHEME + PLACE|..];
      var n := Until(tail, '#');
      if n + 1 < |tail| then None
      else if n == 0 then Some("")
      else if tail[0] != '?' then None
      else Some(tail[1..n])
  }

  // None when the value is not a reply address at all.
  function Parse(value: string): Option<Result<Address, ReplyError>> {
    if !(SCHEME <= value) then None
    else if |value| > LIMIT then Some(Err(AddressTooLong))
    else if !NoControl(value) then Some(Err(ControlCharacter))
    else if QueryOf(value).None? then Some(Err(WrongForm))
    else if !PercentOk(QueryOf(value).value) then Some(Err(MalformedPercent))
    else
      var pairs := ParseQuery(QueryOf(value).value);
      if pairs.None? then Some(Err(MalformedQuery))
      else
        var fields := Fields(pairs.value, map[]);
        if fields.Err? then Some(Err(fields.error)) else Some(CheckFields(fields.value))
  }

  method CollectFields(pairs: seq<Pair>) returns (r: Result<map<string, string>, ReplyError>)
    ensures r == Fields(pairs, map[])
  {
    var fields: map<string, string> := map[];
    assert pairs[0..] == pairs;
    for i := 0 to |pairs|
      invariant Fields(pairs, map[]) == Fields(pairs[i..], fields)
    {
      assert pairs[i..][1..] == pairs[i + 1..];
      var (key, item) := pairs[i];
      if !KnownField(key) {
        return Err(UnknownField);
      }
      if key in fields {
        return Err(DuplicateField);
      }
      var bad := CheckValue(item);
      if bad.Some? {
        return Err(bad.value);
      }
      fields := fields[key := item];
    }
    r := Ok(fields);
  }

  method ParseReplyAddress(value: string) returns (r: Option<Result<Address, ReplyError>>)
    ensures r == Parse(value)
  {
    if !(SCHEME <= value) {
      return None;
    }
    if |value| > LIMIT {
      return Some(Err(AddressTooLong));
    }
    if exists i :: 0 <= i < |value| && LineControl(value[i]) {
      return Some(Err(ControlCharacter));
    }
    var query := QueryOf(value);
    if query.None? {
      return Some(Err(WrongForm));
    }
    if exists i :: 0 <= i < |query.value| && query.value[i] == '%'
                   && !(i + 2 < |query.value| && Hex(query.value[i + 1]) && Hex(query.value[i + 2])) {
      return Some(Err(MalformedPercent));
    }
    var pairs := ParseQuery(query.value);
    if pairs.None? {
      return Some(Err(MalformedQuery));
    }
    var fields := CollectFields(pairs.value);
    if fields.Err? {
      return Some(Err(fields.error));
    }
    r := Some(CheckFields(fields.value));
  }

  /* ----- the query round trip ----- */

  lemma {:induction false} UntilSkips(s: string, c: char, rest: string)
    requires forall i :: 0 <= i < |s| ==> s[i] != c
    ensures Until(s + rest, c) == |s| + Until(rest, c)
  {
    if s == "" {
      assert s + rest == rest;
    } else {
      assert (s + rest)[1..] == s[1..] + rest;
      UntilSkips(s[1..], c, rest);
    }
  }

  lemma QuotedField(s: string)
    ensures QuotedText(QuotePlus(s)) && FieldText(QuotePlus(s)) == s
  {
    QuotedIsText(Encode(s));
    QuoteRoundTrip(s);
  }

  lemma QuotedAvoids(s: string, c: char)
    requires QuotedText(s) && (c == '&' || c == '=' || c == '#')
    ensures forall i :: 0 <= i < |s| ==> s[i] != c
  {
    assert forall i :: 0 <= i < |s| ==> QuotedChar(s[i]);
    hide PercentOk;
  }

  lemma PairReads(p: Pair)
    ensures PairIn(PairText(p)) == Some(p)
    ensures forall i :: 0 <= i < |PairText(p)| ==> PairText(p)[i] != '&'
  {
    QuotedField(p.0);
    QuotedField(p.1);
    var k, v := QuotePlus(p.0), QuotePlus(p.1);
    QuotedAvoids(k, '=');
    QuotedAvoids(k, '&');
    QuotedAvoids(v, '&');
    hide QuotePlus, FieldText, QuotedText;
    SplitsAtEqual(k, v);
  }

  lemma SplitsAtEqual(k: string, v: string)
    requires forall i :: 0 <= i < |k| ==> k[i] != '='
    ensures var part := k + "=" + v;
            Until(part, '=') == |k| && |k| < |part| && part[..|k|] == k && part[|k| + 1..] == v
  {
    Regroup(k, "=", v);
    UntilSkips(k, '=', "=" + v);
    Halves(k, "=" + v);
    Halves("=", v);
    DropTwice(k + ("=" + v), |k|, 1);
  }

  lemma FirstPart(text: string, rest: string)
    requires (forall i :: 0 <= i < |text| ==> text[i] != '&') && (rest == "" || rest[0] == '&')
    ensures var query := text + rest;
            Until(query, '&') == |text| && query[..|text|] == text
            && (rest != "" ==> query[|text| + 1..] == rest[1..])
  {
    UntilSkips(text, '&', rest);
    Halves(text, rest);
    if rest != "" { DropTwice(text + rest, |text|, 1); }
  }

  lemma QueryUnfolds(query: string)
    ensures var n := Until(query, '&');
            var pair := PairIn(query[..n]);
            QueryPairs(query) ==
              if pair.None? then None
              else if n == |query| then Some([pair.value])
              else if QueryPairs(query[n + 1..]).None? then None
              else Some([pair.value] + QueryPairs(query[n + 1..]).value)
  {
    hide Until, PairIn;
  }

  lemma FirstPairReads(p: Pair, rest: string)
    requires rest == "" || rest[0] == '&'
    ensures var query := PairText(p) + rest;
            var n := Until(query, '&');
            && PairIn(query[..n]) == Some(p) && (n == |query| <==> rest == "")
            && (rest != "" ==> query[n + 1..] == rest[1..])
  {
    hide *;
    PairReads(p);
    FirstPart(PairText(p), rest);
  }

  // One printed pair, alone or in front of more.
  lemma QueryStep(p: Pair, rest: string)
    requires rest == "" || rest[0] == '&'
    ensures QueryPairs(PairText(p) + rest) ==
            if rest == "" then Some([p])
            else if QueryPairs(rest[1..]).None? then None else Some([p] + QueryPairs(rest[1..]).value)
  {
    hide *;
    FirstPairReads(p, rest);
    QueryUnfolds(PairText(p) + rest);
  }

  lemma {:induction false} QueryReads(ps: seq<Pair>)
    requires ps != []
    ensures QueryPairs(Query(ps)) == Some(ps)
    decreases |ps|
  {
    hide QueryPairs, PairText;
    if |ps| == 1 {
      QueryStep(ps[0], "");
      assert PairText(ps[0]) + "" == PairText(ps[0]) && [ps[0]] == ps;
    } else {
      var rest := "&" + Query(ps[1..]);
      assert Query(ps) == PairText(ps[0]) + rest && rest[1..] == Query(ps[1..]);
      QueryStep(ps[0], rest);
      QueryReads(ps[1..]);
      assert [ps[0]] + ps[1..] == ps;
    }
  }

  predicate UriChar(c: char) {
    QuotedChar(c) || c == '=' || c == '&'
  }

  predicate UriText(s: string) {
    PercentOk(s) && forall i :: 0 <= i < |s| ==> UriChar(s[i])
  }

  lemma TextJoins(a: string, b: string)
    requires UriText(a) && UriText(b)
    ensures UriText(a + b)
  {
    var s := a + b;
    assert forall i :: 0 <= i < |b| ==> s[|a| + i] == b[i];
    forall i | 0 <= i < |s| && s[i] == '%' ensures i + 2 < |s| && Hex(s[i + 1]) && Hex(s[i + 2]) {
      if i >= |a| { assert b[i - |a|] == '%'; }
    }
  }

  lemma PairIsText(p: Pair)
    ensures UriText(PairText(p))
  {
    QuotedField(p.0);
    QuotedField(p.1);
    TextJoins(QuotePlus(p.0), "=");
    TextJoins(QuotePlus(p.0) + "=", QuotePlus(p.1));
  }

  lemma {:induction false} QueryIsText(ps: seq<Pair>)
    ensures UriText(Query(ps)) && (ps != [] ==> Query(ps) != "")
  {
    if |ps| >= 1 {
      PairIsText(ps[0]);
      if |ps| > 1 {
        QueryIsText(ps[1..]);
        TextJoins(PairText(ps[0]), "&");
        TextJoins(PairText(ps[0]) + "&", Query(ps[1..]));
      }
    }
  }

  lemma UriForm(query: string)
    requires UriText(query)
    ensures var uri := SCHEME + PLACE + "?" + query;
            SCHEME <= uri && NoControl(uri) && QueryOf(uri) == Some(query)
  {
    var uri := SCHEME + PLACE + "?" + query;
    var head := SCHEME + PLACE;
    assert NoControl(head);
    assert head <= uri;
    var tail := uri[|head|..];
    assert tail == "?" + query;
    forall i | 0 <= i < |tail| ensures tail[i] != '#' {
      if i > 0 { assert tail[i] == query[i - 1] && UriChar(query[i - 1]); }
    }
    UntilSkips(tail, '#', "");
    assert tail + "" == tail;
    assert tail[1..|tail|] == query;
    forall i | 0 <= i < |uri| ensures !LineControl(uri[i]) {
      if i < |head| { assert uri[i] == head[i]; }
      else if i > |head| { assert uri[i] == query[i - |head| - 1] && UriChar(query[i - |head| - 1]); }
    }
  }

  /* ----- the address round trip ----- */

  function FieldsOf(id: Identity, local: bool): map<string, string>
    requires local || id.host.Some?
  {
    var base := map["agent" := id.agent, "session" := id.id, "transport" := if local then "local" else "ssh"];
    var routed := if local then base else base["host" := id.host.value];
    if id.agent == "codex" && Given(id.codexHome) then routed["codexHome" := id.codexHome.value] else routed
  }

  lemma SmallValues()
    ensures CheckValue("local").None? && CheckValue("ssh").None?
    ensures CheckValue("claude").None? && CheckValue("codex").None? && CheckValue("antigravity").None?
  {
  }

  lemma FieldsStep(k: string, v: string, rest: seq<Pair>, fields: map<string, string>)
    requires KnownField(k) && k !in fields && CheckValue(v).None?
    ensures Fields([(k, v)] + rest, fields) == Fields(rest, fields[k := v])
  {
    hide CheckValue;
    assert ([(k, v)] + rest)[1..] == rest;
  }

  lemma PairsCollected(id: Identity, local: bool)
    requires Printable(id, local)
    ensures Fields(Pairs(id, local), map[]) == Ok(FieldsOf(id, local))
  {
    SmallValues();
    var transport := if local then "local" else "ssh";
    var home := if id.agent == "codex" && Given(id.codexHome) then [("codexHome", id.codexHome.value)] else [];
    var host := if local then [] else [("host", id.host.value)];
    var f1 := map["agent" := id.agent];
    var f2 := f1["session" := id.id];
    var f3 := f2["transport" := transport];
    hide CheckValue;
    assert Pairs(id, local) == [("agent", id.agent)] + ([("session", id.id)] + ([("transport", transport)] + (host + home)));
    FieldsStep("agent", id.agent, [("session", id.id)] + ([("transport", transport)] + (host + home)), map[]);
    FieldsStep("session", id.id, [("transport", transport)] + (host + home), f1);
    FieldsStep("transport", transport, host + home, f2);
    var f4 := if local then f3 else f3["host" := id.host.value];
    if !local {
      FieldsStep("host", id.host.value, home, f3);
    } else {
      assert host + home == home;
    }
    if home != [] {
      FieldsStep("codexHome", id.codexHome.value, [], f4);
      assert home == [("codexHome", id.codexHome.value)] + [];
    }
  }

  // A printed address is read as the fields that were printed, and then only
  // checked.
  lemma PrintedIsRead(id: Identity, local: bool)
    requires Printable(id, local) && |Uri(id, local)| <= LIMIT
    ensures Parse(Uri(id, local)) == Some(CheckFields(FieldsOf(id, local)))
  {
    var query := Query(Pairs(id, local));
    QueryIsText(Pairs(id, local));
    UriForm(query);
    QueryReads(Pairs(id, local));
    PairsCollected(id, local);
    hide Query, QueryPairs, Fields, CheckFields, FieldsOf, Pairs, NoControl, QueryOf, UriText;
    assert PercentOk(query) by { PercentOfText(query); }
  }

  lemma PercentOfText(s: string)
    requires UriText(s)
    ensures PercentOk(s)
  {
    hide PercentOk;
  }

  // What the parser asks of an address beyond what the printer checks.
  predicate Acceptable(id: Identity, local: bool) {
    && SessionOk(id.agent, id.id)
    && (!local ==> id.host.Some? && HostOk(id.host.value))
    && (id.agent == "codex" && Given(id.codexHome) ==> Absolute(id.codexHome.value))
  }

  // Every address that is printed is read back with the same agent, session,
  // transport, host and home, exactly when the parser would take them.
  lemma ReplyRoundTrip(id: Identity, local: bool)
    requires Printable(id, local) && |Uri(id, local)| <= LIMIT
    ensures Acceptable(id, local) <==>
            Parse(Uri(id, local)) == Some(Ok(Address(FieldsOf(id, local), Target(id.agent, id.id))))
    ensures !Acceptable(id, local) ==> Parse(Uri(id, local)).Some? && Parse(Uri(id, local)).value.Err?
  {
    PrintedIsRead(id, local);
    FieldsChecked(id, local);
    hide Parse, Uri, CheckFields, Acceptable, FieldsOf, Printable;
  }

  lemma FieldsChecked(id: Identity, local: bool)
    requires Printable(id, local)
    ensures Acceptable(id, local) <==> CheckFields(FieldsOf(id, local)) == Ok(Address(FieldsOf(id, local), Target(id.agent, id.id)))
    ensures !Acceptable(id, local) ==> CheckFields(FieldsOf(id, local)).Err?
  {
    hide CheckValue, HostOk, SessionOk, Absolute;
  }

  // A home on a Windows share is taken like any other absolute home.
  lemma SharesAreAbsolute(server: string, share: string)
    requires server != "" && share != "" && server != "?" && server != "."
    requires forall i :: 0 <= i < |server| ==> !Separator(server[i])
    requires forall i :: 0 <= i < |share| ==> !Separator(share[i])
    ensures Absolute("\\\\" + server + "\\" + share)
  {
    var path := "\\\\" + server + "\\" + share;
    var n := 2 + |server|;
    assert forall i :: 2 <= i < n ==> path[i] == server[i - 2];
    assert path[2..n] == server && path[n] == '\\';
    assert forall i :: n < i < |path| ==> path[i] == share[i - n - 1];
    SeparatorAt(path, 2, n);
    SeparatorAt(path, n + 1, |path|);
  }

  lemma {:induction false} SeparatorAt(s: string, start: nat, end: nat)
    requires start <= end <= |s|
    requires end < |s| ==> Separator(s[end])
    requires forall i :: start <= i < end ==> !Separator(s[i])
    ensures NextSeparator(s, start) == end
    decreases end - start
  {
    if start < end { SeparatorAt(s, start + 1, end); }
  }

  // So a session whose home is on a Windows share has an address that is read
  // back, for every server and share.
  lemma ShareHomeReturns(id: Identity, local: bool, server: string, share: string)
    requires Printable(id, local) && |Uri(id, local)| <= LIMIT
    requires id.agent == "codex" && SessionOk(id.agent, id.id) && (!local ==> HostOk(id.host.value))
    requires server != "" && share != "" && server != "?" && server != "."
    requires forall i :: 0 <= i < |server| ==> !Separator(server[i])
    requires forall i :: 0 <= i < |share| ==> !Separator(share[i])
    requires id.codexHome == Some("\\\\" + server + "\\" + share)
    ensures Parse(Uri(id, local)) == Some(Ok(Address(FieldsOf(id, local), "codex:" + id.id)))
    ensures "codexHome" in FieldsOf(id, local) && FieldsOf(id, local)["codexHome"] == id.codexHome.value
  {
    hide Parse, Uri, Absolute, HostOk, SessionOk, CheckValue;
    SharesAreAbsolute(server, share);
    ReplyRoundTrip(id, local);
    assert "codex" + ":" + id.id == "codex:" + id.id && id.codexHome.value != "";
  }

  // Two identities with one printed address have the same fields.
  lemma AddressesAreDistinct(id: Identity, local: bool, id': Identity, local': bool)
    requires Printable(id, local) && Printable(id', local')
    requires Uri(id, local) == Uri(id', local')
    ensures FieldsOf(id, local) == FieldsOf(id', local')
  {
    PairsCollected(id, local);
    PairsCollected(id', local');
    QueryReads(Pairs(id, local));
    QueryReads(Pairs(id', local'));
    var head := SCHEME + PLACE + "?";
    assert Query(Pairs(id, local)) == Uri(id, local)[|head|..];
    assert Query(Pairs(id', local')) == Uri(id', local')[|head|..];
  }
}
