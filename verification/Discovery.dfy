/** Conflict-free discovery of Claude sessions and the choice of a target
    (session_peer_core/claude.py). */
module Discovery {
  import opened Text

  // One registry record as observed. A socket of "" is none. The endpoint is
  // the device and inode of the inbox; rest stands for all other recorded
  // facts, the registry directory, the record's file name and its start time.
  datatype Row = Row(
    pid: int, socket: string, name: string, alive: bool, reachable: bool, conflicting: bool,
    endpoint: Option<(int, int)>, rest: string)

  // A row as discovery reads it.
  predicate Observed(r: Row) {
    (r.reachable ==> r.alive) && !r.conflicting
  }

  predicate AllObserved(rows: seq<Row>) {
    forall i :: 0 <= i < |rows| ==> Observed(rows[i])
  }

  // The same record; the endpoint is not compared.
  predicate Same(a: Row, b: Row) {
    a.(endpoint := None) == b.(endpoint := None)
  }

  // Two claims to one PID, inbox path or inbox.
  predicate Shares(a: Row, b: Row) {
    || a.pid == b.pid
    || (a.socket != "" && a.socket == b.socket)
    || (a.endpoint.Some? && a.endpoint == b.endpoint)
  }

  // The rows without repeats of a live row.
  function Unique(rows: seq<Row>): seq<Row> {
    if rows == [] then []
    else
      var before := Unique(rows[..|rows| - 1]);
      var row := rows[|rows| - 1];
      if row.alive && exists i :: 0 <= i < |before| && Same(before[i], row) then before else before + [row]
  }

  predicate Conflicted(unique: seq<Row>, i: nat)
    requires i < |unique|
  {
    unique[i].alive && exists j :: 0 <= j < |unique| && j != i && unique[j].alive && Shares(unique[i], unique[j])
  }

  function Shown(unique: seq<Row>, i: nat): Row
    requires i < |unique|
  {
    if Conflicted(unique, i) then unique[i].(reachable := false, conflicting := true) else unique[i]
  }

  function ShownFrom(unique: seq<Row>, i: nat, all: bool): seq<Row>
    requires i <= |unique|
  {
    if i == 0 then []
    else
      var row := Shown(unique, i - 1);
      ShownFrom(unique, i - 1, all) + if row.reachable || all then [row] else []
  }

  function Finish(rows: seq<Row>, all: bool): seq<Row> {
    ShownFrom(Unique(rows), |Unique(rows)|, all)
  }

  // Whether discovery reports a conflict.
  predicate Conflict(rows: seq<Row>) {
    exists i :: 0 <= i < |Unique(rows)| && Conflicted(Unique(rows), i)
  }

  /* ----- the program ----- */

  // An index lists the kept live rows of every key.
  ghost predicate PidIndex(index: map<int, seq<nat>>, unique: seq<Row>) {
    && (forall k <- index :: forall i <- index[k] :: i < |unique| && unique[i].alive && unique[i].pid == k)
    && (forall i :: 0 <= i < |unique| && unique[i].alive ==> unique[i].pid in index && i in index[unique[i].pid])
  }

  ghost predicate SocketIndex(index: map<string, seq<nat>>, unique: seq<Row>) {
    && (forall k <- index :: forall i <- index[k] :: i < |unique| && unique[i].alive && k != "" && unique[i].socket == k)
    && (forall i :: 0 <= i < |unique| && unique[i].alive && unique[i].socket != "" ==>
          unique[i].socket in index && i in index[unique[i].socket])
  }

  ghost predicate EndpointIndex(index: map<(int, int), seq<nat>>, unique: seq<Row>) {
    && (forall k <- index :: forall i <- index[k] :: i < |unique| && unique[i].alive && unique[i].endpoint == Some(k))
    && (forall i :: 0 <= i < |unique| && unique[i].alive && unique[i].endpoint.Some? ==>
          unique[i].endpoint.value in index && i in index[unique[i].endpoint.value])
  }

  function Listed<K>(index: map<K, seq<nat>>, key: K): seq<nat> {
    if key in index then index[key] else []
  }

  ghost predicate ConflictSet(conflicts: set<nat>, unique: seq<Row>) {
    forall i: nat :: i in conflicts <==> (i < |unique| && Conflicted(unique, i))
  }

  ghost predicate Indexed(ix: Indexes, unique: seq<Row>) {
    PidIndex(ix.byPid, unique) && SocketIndex(ix.bySocket, unique) && EndpointIndex(ix.byEndpoint, unique)
  }

  datatype Indexes = Indexes(byPid: map<int, seq<nat>>, bySocket: map<string, seq<nat>>, byEndpoint: map<(int, int), seq<nat>>)

  // The kept live rows that share something with a row.
  method Candidates(unique: seq<Row>, ix: Indexes, row: Row) returns (candidates: set<nat>)
    requires Indexed(ix, unique)
    ensures forall i: nat :: i in candidates <==> (i < |unique| && unique[i].alive && Shares(row, unique[i]))
  {
    var pids, sockets := Listed(ix.byPid, row.pid), Listed(ix.bySocket, row.socket);
    var endpoints := if row.endpoint.Some? then Listed(ix.byEndpoint, row.endpoint.value) else [];
    assert forall i: nat :: i in pids <==> i < |unique| && unique[i].alive && unique[i].pid == row.pid;
    assert forall i: nat :: i in sockets <==> i < |unique| && unique[i].alive && row.socket != "" && unique[i].socket == row.socket;
    assert forall i: nat :: i in endpoints <==> i < |unique| && unique[i].alive && row.endpoint.Some? && unique[i].endpoint == row.endpoint;
    candidates := set i | i in pids + sockets + endpoints;
  }

  lemma PidRegistered(index: map<int, seq<nat>>, unique: seq<Row>, row: Row)
    requires PidIndex(index, unique) && row.alive
    ensures PidIndex(index[row.pid := Listed(index, row.pid) + [|unique|]], unique + [row])
  {
  }

  lemma SocketRegistered(index: map<string, seq<nat>>, unique: seq<Row>, row: Row)
    requires SocketIndex(index, unique) && row.alive
    ensures SocketIndex(if row.socket == "" then index
                        else index[row.socket := Listed(index, row.socket) + [|unique|]], unique + [row])
  {
  }

  lemma EndpointRegistered(index: map<(int, int), seq<nat>>, unique: seq<Row>, row: Row)
    requires EndpointIndex(index, unique) && row.alive
    ensures EndpointIndex(if row.endpoint.None? then index
                          else index[row.endpoint.value := Listed(index, row.endpoint.value) + [|unique|]], unique + [row])
  {
  }

  method Register(unique: seq<Row>, ix: Indexes, row: Row) returns (next: Indexes)
    requires Indexed(ix, unique) && row.alive
    ensures Indexed(next, unique + [row])
  {
    PidRegistered(ix.byPid, unique, row);
    SocketRegistered(ix.bySocket, unique, row);
    EndpointRegistered(ix.byEndpoint, unique, row);
    hide PidIndex, SocketIndex, EndpointIndex;
    next := ix.(byPid := ix.byPid[row.pid := Listed(ix.byPid, row.pid) + [|unique|]]);
    if row.socket != "" {
      next := next.(bySocket := ix.bySocket[row.socket := Listed(ix.bySocket, row.socket) + [|unique|]]);
    }
    if row.endpoint.Some? {
      var k := row.endpoint.value;
      next := next.(byEndpoint := ix.byEndpoint[k := Listed(ix.byEndpoint, k) + [|unique|]]);
    }
  }

  lemma DeadIsNotIndexed(unique: seq<Row>, ix: Indexes, row: Row)
    requires Indexed(ix, unique) && !row.alive
    ensures Indexed(ix, unique + [row])
  {
  }

  lemma AppendUnique(rows: seq<Row>, n: nat)
    requires n < |rows|
    ensures var before := Unique(rows[..n]);
            Unique(rows[..n + 1]) ==
              if rows[n].alive && exists i :: 0 <= i < |before| && Same(before[i], rows[n]) then before
              else before + [rows[n]]
  {
    assert rows[..n + 1][..n] == rows[..n];
  }

  // A new live row conflicts with every candidate, and they with it.
  lemma AppendConflicts(unique: seq<Row>, row: Row, i: nat)
    requires i < |unique|
    ensures Conflicted(unique + [row], i) <==>
            Conflicted(unique, i) || (row.alive && unique[i].alive && Shares(row, unique[i]))
    ensures Conflicted(unique + [row], |unique|) <==>
            row.alive && exists j :: 0 <= j < |unique| && unique[j].alive && Shares(row, unique[j])
  {
    var all := unique + [row];
    assert forall j :: 0 <= j < |unique| ==> all[j] == unique[j];
    if Conflicted(unique, i) {
      var j :| 0 <= j < |unique| && j != i && unique[j].alive && Shares(unique[i], unique[j]);
      assert all[j].alive && Shares(all[i], all[j]);
    }
    if row.alive && unique[i].alive && Shares(row, unique[i]) {
      assert all[|unique|] == row && Shares(all[i], all[|unique|]);
    }
    if j :| 0 <= j < |unique| && unique[j].alive && Shares(row, unique[j]) && row.alive {
      assert all[j].alive && Shares(all[|unique|], all[j]);
    }
  }

  lemma AppendKeepsConflicts(conflicts: set<nat>, unique: seq<Row>, row: Row, candidates: set<nat>)
    requires ConflictSet(conflicts, unique)
    requires forall i: nat :: i in candidates <==> (row.alive && i < |unique| && unique[i].alive && Shares(row, unique[i]))
    ensures ConflictSet(conflicts + candidates + (if candidates == {} then {} else {|unique|}), unique + [row])
  {
    forall i: nat | i < |unique| ensures Conflicted(unique + [row], i) <==> i in conflicts || i in candidates {
      AppendConflicts(unique, row, i);
    }
    if unique != [] {
      AppendConflicts(unique, row, 0);
    }
    assert Conflicted(unique + [row], |unique|) <==> candidates != {};
  }

  method CollectUnique(rows: seq<Row>) returns (unique: seq<Row>, conflicts: set<nat>)
    ensures unique == Unique(rows) && ConflictSet(conflicts, unique)
  {
    unique, conflicts := [], {};
    var ix := Indexes(map[], map[], map[]);
    hide Indexed, ConflictSet, Unique;
    StartCollecting();
    assert rows[..0] == [];
    for n := 0 to |rows|
      invariant unique == Unique(rows[..n]) && ConflictSet(conflicts, unique) && Indexed(ix, unique)
    {
      var row := rows[n];
      AppendUnique(rows, n);
      if !row.alive {
        // Not a claim: nothing is looked up or registered.
        AppendKeepsConflicts(conflicts, unique, row, {});
        DeadIsNotIndexed(unique, ix, row);
        assert conflicts + {} + {} == conflicts;
        unique := unique + [row];
      } else {
        var candidates := Candidates(unique, ix, row);
        var repeated := exists i :: i in candidates && Same(unique[i], row);
        assert repeated <==> exists i :: 0 <= i < |unique| && Same(unique[i], row) by {
          assert forall i: nat :: i < |unique| && Same(unique[i], row) ==> i in candidates;
        }
        if !repeated {
          AppendKeepsConflicts(conflicts, unique, row, candidates);
          conflicts := conflicts + candidates + if candidates == {} then {} else {|unique|};
          ix := Register(unique, ix, row);
          unique := unique + [row];
        }
      }
    }
    assert rows[..|rows|] == rows;
  }

  lemma StartCollecting()
    ensures Unique([]) == [] && ConflictSet({}, []) && Indexed(Indexes(map[], map[], map[]), [])
  {
  }

  // Marks the contested rows and keeps what is asked for.
  method FinishDiscovery(rows: seq<Row>, all: bool) returns (found: seq<Row>, conflict: bool)
    ensures found == Finish(rows, all) && (conflict <==> Conflict(rows))
  {
    var unique, conflicts := CollectUnique(rows);
    found := [];
    conflict := conflicts != {};
    for n := 0 to |unique|
      invariant found == ShownFrom(unique, n, all)
    {
      var row := unique[n];
      if n in conflicts {
        row := row.(reachable := false, conflicting := true);
      }
      if row.reachable || all {
        found := found + [row];
      }
    }
  }

  /* ----- no two reachable rows share a claim ----- */

  lemma {:induction false} ShownAt(unique: seq<Row>, n: nat, all: bool, k: nat) returns (i: nat)
    requires n <= |unique| && k < |ShownFrom(unique, n, all)|
    ensures i < n && ShownFrom(unique, n, all)[k] == Shown(unique, i)
    ensures k < |ShownFrom(unique, i + 1, all)| && |ShownFrom(unique, i, all)| <= k
  {
    if k < |ShownFrom(unique, n - 1, all)| {
      i := ShownAt(unique, n - 1, all, k);
    } else {
      i := n - 1;
    }
  }

  lemma {:induction false} ShownGrows(unique: seq<Row>, i: nat, j: nat, all: bool)
    requires i <= j <= |unique|
    ensures |ShownFrom(unique, i, all)| <= |ShownFrom(unique, j, all)|
    decreases j - i
  {
    if i < j { ShownGrows(unique, i, j - 1, all); }
  }

  lemma {:induction false} UniqueObserved(rows: seq<Row>)
    requires AllObserved(rows)
    ensures AllObserved(Unique(rows))
  {
    if rows != [] {
      UniqueObserved(rows[..|rows| - 1]);
    }
  }

  // Whatever was observed, no two reachable rows of the result have the same
  // PID, the same inbox path or the same inbox.
  lemma ReachableRowsAreApart(rows: seq<Row>, all: bool, k: nat, l: nat)
    requires AllObserved(rows)
    requires k < l < |Finish(rows, all)|
    requires Finish(rows, all)[k].reachable && Finish(rows, all)[l].reachable
    ensures !Shares(Finish(rows, all)[k], Finish(rows, all)[l])
  {
    var unique := Unique(rows);
    UniqueObserved(rows);
    var i := ShownAt(unique, |unique|, all, k);
    var j := ShownAt(unique, |unique|, all, l);
    if j < i {
      ShownGrows(unique, j + 1, i, all);
      assert false;
    }
    assert !Conflicted(unique, i) && !Conflicted(unique, j);
  }

  /* ----- choosing a target ----- */

  datatype TargetError = Incomplete | NoSession | Ambiguous

  // What the Unicode tables of the interpreter say: the value of a decimal
  // digit of any script, and the case folding of a text.
  datatype Tables = Tables(digit: char -> Option<nat>, fold: string -> string)

  // A decimal target is a PID within the platform's bounds, or no PID at all;
  // other targets are names, compared without case.
  datatype Target = ByPid(pid: Option<int>) | ByName(text: string)

  const POSIX_PID_LIMIT := 0x7FFF_FFFF
  const WINDOWS_PID_LIMIT := 0xFFFF_FFFF

  predicate Decimal(u: Tables, s: string) {
    s != "" && forall i :: 0 <= i < |s| ==> u.digit(s[i]).Some?
  }

  function DecimalValue(u: Tables, s: string): (n: nat)
    requires forall i :: 0 <= i < |s| ==> u.digit(s[i]).Some?
  {
    if s == "" then 0 else 10 * DecimalValue(u, s[..|s| - 1]) + u.digit(s[|s| - 1]).value
  }

  function ParsePid(u: Tables, s: string, windows: bool): Option<int> {
    if |s| > 10 || !Decimal(u, s) then None
    else
      var n := DecimalValue(u, s);
      if 1 < n <= (if windows then WINDOWS_PID_LIMIT else POSIX_PID_LIMIT) then Some(n) else None
  }

  predicate Answers(u: Tables, r: Row, t: Target) {
    r.reachable && match t case ByPid(pid) => Some(r.pid) == pid case ByName(text) => u.fold(r.name) == u.fold(text)
  }

  function Matches(u: Tables, rows: seq<Row>, t: Target): seq<Row> {
    if rows == [] then []
    else (if Answers(u, rows[0], t) then [rows[0]] else []) + Matches(u, rows[1..], t)
  }

  function Resolve(u: Tables, rows: seq<Row>, errors: bool, t: Target): Result<Row, TargetError> {
    if errors then Err(Incomplete)
    else
      var found := Matches(u, rows, t);
      if found == [] then Err(NoSession)
      else if |found| > 1 then Err(Ambiguous)
      else Ok(found[0])
  }

  method ResolveTarget(u: Tables, rows: seq<Row>, errors: bool, t: Target) returns (r: Result<Row, TargetError>)
    ensures r == Resolve(u, rows, errors, t)
  {
    hide Answers;
    if errors {
      return Err(Incomplete);
    }
    var found: seq<Row> := [];
    for n := 0 to |rows|
      invariant found + Matches(u, rows[n..], t) == Matches(u, rows, t)
    {
      assert rows[n..][1..] == rows[n + 1..];
      if Answers(u, rows[n], t) {
        found := found + [rows[n]];
      }
    }
    if found == [] {
      return Err(NoSession);
    }
    if |found| > 1 {
      return Err(Ambiguous);
    }
    r := Ok(found[0]);
  }

  lemma {:induction false} MatchesAt(u: Tables, rows: seq<Row>, t: Target, k: nat) returns (i: nat)
    requires k < |Matches(u, rows, t)|
    ensures i < |rows| && rows[i] == Matches(u, rows, t)[k] && Answers(u, rows[i], t)
    ensures |Matches(u, rows[..i], t)| == k
  {
    var first := if Answers(u, rows[0], t) then 1 else 0;
    if k < first {
      i := 0;
    } else {
      var j := MatchesAt(u, rows[1..], t, k - first);
      i := j + 1;
      assert rows[..i][1..] == rows[1..][..j];
    }
  }

  // A PID addresses at most one session of a discovery: the choice is that
  // session, a refusal because discovery reported errors, or no session.
  lemma PidIsNeverAmbiguous(u: Tables, rows: seq<Row>, all: bool, errors: bool, pid: Option<int>)
    requires AllObserved(rows)
    ensures Resolve(u, Finish(rows, all), errors, ByPid(pid)) != Err(Ambiguous)
  {
    var found := Finish(rows, all);
    if |Matches(u, found, ByPid(pid))| > 1 {
      var i := MatchesAt(u, found, ByPid(pid), 0);
      var j := MatchesAt(u, found, ByPid(pid), 1);
      assert i != j;
      ReachableRowsAreApart(rows, all, if i < j then i else j, if i < j then j else i);
      assert false;
    }
  }

  // A text of digits addresses a PID, any other text a name.
  function TargetOf(u: Tables, text: string, windows: bool): Target {
    if Decimal(u, text) then ByPid(ParsePid(u, text, windows)) else ByName(text)
  }

  // Digits choose a session only by a PID they spell, within the platform's
  // bounds and ten digits; they are never ambiguous and never taken as a name.
  lemma DecimalTarget(u: Tables, rows: seq<Row>, all: bool, errors: bool, text: string, windows: bool)
    requires AllObserved(rows) && Decimal(u, text)
    ensures var r := Resolve(u, Finish(rows, all), errors, TargetOf(u, text, windows));
            && r != Err(Ambiguous)
            && (r.Ok? ==> r.value.reachable && r.value.pid == DecimalValue(u, text) && |text| <= 10
                          && 1 < r.value.pid <= if windows then WINDOWS_PID_LIMIT else POSIX_PID_LIMIT)
  {
    PidIsNeverAmbiguous(u, rows, all, errors, ParsePid(u, text, windows));
    var found, t := Finish(rows, all), TargetOf(u, text, windows);
    hide Finish;
    if Resolve(u, found, errors, t).Ok? {
      var i := MatchesAt(u, found, t, 0);
    }
  }

  // A chosen session is reachable and the only reachable one that answers.
  lemma ChosenIsTheOnlyAnswer(u: Tables, rows: seq<Row>, errors: bool, t: Target, k: nat)
    requires Resolve(u, rows, errors, t).Ok? && k < |rows| && Answers(u, rows[k], t)
    ensures rows[k] == Resolve(u, rows, errors, t).value
    ensures forall l :: 0 <= l < |rows| && Answers(u, rows[l], t) ==> l == k
  {
    forall l | 0 <= l < |rows| && Answers(u, rows[l], t) ensures l == k {
      OneMatch(u, rows, t, k, l);
    }
    MatchIsListed(u, rows, t, k);
  }

  lemma {:induction false} MatchIsListed(u: Tables, rows: seq<Row>, t: Target, k: nat)
    requires k < |rows| && Answers(u, rows[k], t)
    ensures rows[k] in Matches(u, rows, t)
  {
    if k > 0 { MatchIsListed(u, rows[1..], t, k - 1); }
  }

  lemma {:induction false} OneMatch(u: Tables, rows: seq<Row>, t: Target, k: nat, l: nat)
    requires |Matches(u, rows, t)| == 1 && k < |rows| && l < |rows| && Answers(u, rows[k], t) && Answers(u, rows[l], t)
    ensures k == l
  {
    if k == 0 || l == 0 {
      if k != 0 { MatchIsListed(u, rows[1..], t, k - 1); }
      if l != 0 { MatchIsListed(u, rows[1..], t, l - 1); }
    } else {
      MatchIsListed(u, rows[1..], t, k - 1);
      OneMatch(u, rows[1..], t, k - 1, l - 1);
    }
  }
}
