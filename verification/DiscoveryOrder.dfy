/** When the order in which session records are enumerated decides what discovery
    shows (session_peer_core/claude.py). */
module DiscoveryOrder {
  import opened Text
  import opened Discovery

  /* ----- the order of enumeration does not matter ----- */

  // The endpoint of a live record is determined by the rest of the record.
  ghost predicate EndpointsDetermined(rows: seq<Row>) {
    forall i, j :: 0 <= i < |rows| && 0 <= j < |rows| && rows[i].alive && Same(rows[i], rows[j]) ==> rows[i] == rows[j]
  }

  lemma {:induction false} UniqueElements(rows: seq<Row>)
    requires EndpointsDetermined(rows)
    ensures forall r :: r in Unique(rows) <==> r in rows
    ensures forall i, j :: 0 <= i < j < |Unique(rows)| && Unique(rows)[i].alive ==> Unique(rows)[i] != Unique(rows)[j]
  {
    if rows != [] {
      var init := rows[..|rows| - 1];
      var row := rows[|rows| - 1];
      assert rows == init + [row];
      UniqueElements(init);
      var before := Unique(init);
      if row.alive && exists i :: 0 <= i < |before| && Same(before[i], row) {
        var i :| 0 <= i < |before| && Same(before[i], row);
        assert before[i] in init;
      }
    }
  }

  // A live claim that a different live record contests.
  predicate Contested(r: Row, rows: seq<Row>) {
    r.alive && exists other :: other in rows && other != r && other.alive && Shares(r, other)
  }

  lemma ConflictIsContest(rows: seq<Row>, i: nat)
    requires EndpointsDetermined(rows) && i < |Unique(rows)|
    ensures Conflicted(Unique(rows), i) <==> Contested(Unique(rows)[i], rows)
  {
    var unique := Unique(rows);
    UniqueElements(rows);
    if Conflicted(unique, i) {
      var j :| 0 <= j < |unique| && j != i && unique[j].alive && Shares(unique[i], unique[j]);
      assert unique[j] in rows && unique[j] != unique[i];
    }
    if Contested(unique[i], rows) {
      var other :| other in rows && other != unique[i] && other.alive && Shares(unique[i], other);
      assert other in unique;
    }
  }

  lemma {:induction false} ShownHas(unique: seq<Row>, n: nat, all: bool, i: nat)
    requires i < n <= |unique|
    ensures Shown(unique, i).reachable || all ==> Shown(unique, i) in ShownFrom(unique, n, all)
  {
    if i < n - 1 { ShownHas(unique, n - 1, all, i); }
  }

  // What discovery shows of a record, in terms of the records alone.
  function Verdict(r: Row, rows: seq<Row>): Row {
    if Contested(r, rows) then r.(reachable := false, conflicting := true) else r
  }

  lemma ShownIsVerdict(rows: seq<Row>, all: bool, shown: Row) returns (r: Row)
    requires EndpointsDetermined(rows) && shown in Finish(rows, all)
    ensures (shown.reachable || all) && r in rows && shown == Verdict(r, rows)
  {
    var unique := Unique(rows);
    UniqueElements(rows);
    var k :| 0 <= k < |Finish(rows, all)| && Finish(rows, all)[k] == shown;
    OnlyShown(unique, |unique|, all, shown);
    var i := ShownAt(unique, |unique|, all, k);
    ConflictIsContest(rows, i);
    r := unique[i];
    hide Unique, EndpointsDetermined, Conflicted, Contested, Finish, ShownFrom;
    assert r in unique;
  }

  lemma VerdictIsShown(rows: seq<Row>, all: bool, r: Row)
    requires EndpointsDetermined(rows) && r in rows && (Verdict(r, rows).reachable || all)
    ensures Verdict(r, rows) in Finish(rows, all)
  {
    var unique := Unique(rows);
    UniqueElements(rows);
    var i :| 0 <= i < |unique| && unique[i] == r;
    ConflictIsContest(rows, i);
    ShownHas(unique, |unique|, all, i);
    hide Unique, EndpointsDetermined, Conflicted, Contested, ShownFrom;
  }

  lemma ResultIsVerdicts(rows: seq<Row>, all: bool, shown: Row)
    requires EndpointsDetermined(rows)
    ensures shown in Finish(rows, all) <==>
            (shown.reachable || all) && exists r :: r in rows && shown == Verdict(r, rows)
  {
    hide *;
    if shown in Finish(rows, all) {
      var r := ShownIsVerdict(rows, all, shown);
    }
    if (shown.reachable || all) && exists r :: r in rows && shown == Verdict(r, rows) {
      var r :| r in rows && shown == Verdict(r, rows);
      VerdictIsShown(rows, all, r);
    }
  }

  lemma {:induction false} OnlyShown(unique: seq<Row>, n: nat, all: bool, shown: Row)
    requires n <= |unique| && shown in ShownFrom(unique, n, all)
    ensures shown.reachable || all
  {
    if shown in ShownFrom(unique, n - 1, all) {
      OnlyShown(unique, n - 1, all, shown);
    }
  }

  // Two enumerations of the same records give the same rows and the same
  // report of a conflict.
  lemma OrderDoesNotMatter(rows: seq<Row>, rows': seq<Row>, all: bool)
    requires EndpointsDetermined(rows) && forall r :: r in rows <==> r in rows'
    ensures forall shown :: shown in Finish(rows, all) <==> shown in Finish(rows', all)
    ensures Conflict(rows) <==> Conflict(rows')
  {
    SameEndpoints(rows, rows');
    assert forall r :: Contested(r, rows) <==> Contested(r, rows');
    forall shown ensures shown in Finish(rows, all) <==> shown in Finish(rows', all) {
      ResultIsVerdicts(rows, all, shown);
      ResultIsVerdicts(rows', all, shown);
    }
    ConflictIffContest(rows);
    ConflictIffContest(rows');
  }

  lemma SameEndpoints(rows: seq<Row>, rows': seq<Row>)
    requires EndpointsDetermined(rows) && forall r :: r in rows <==> r in rows'
    ensures EndpointsDetermined(rows')
  {
    forall i, j | 0 <= i < |rows'| && 0 <= j < |rows'| && rows'[i].alive && Same(rows'[i], rows'[j])
      ensures rows'[i] == rows'[j]
    {
      assert rows'[i] in rows && rows'[j] in rows;
    }
  }

  lemma ConflictIffContest(rows: seq<Row>)
    requires EndpointsDetermined(rows)
    ensures Conflict(rows) <==> exists r :: r in rows && Contested(r, rows)
  {
    var unique := Unique(rows);
    UniqueElements(rows);
    if Conflict(rows) {
      var i :| 0 <= i < |unique| && Conflicted(unique, i);
      ConflictIsContest(rows, i);
      assert unique[i] in rows;
    }
    if r :| r in rows && Contested(r, rows) {
      var i :| 0 <= i < |unique| && unique[i] == r;
      ConflictIsContest(rows, i);
    }
  }

  /* ----- exactly when the order does matter ----- */

  predicate Reordered(rows: seq<Row>, p: seq<Row>) {
    multiset(p) == multiset(rows)
  }

  ghost predicate SameShown(p: seq<Row>, q: seq<Row>) {
    forall shown :: shown in Finish(p, true) <==> shown in Finish(q, true)
  }

  function Marked(r: Row): Row {
    r.(reachable := false, conflicting := true)
  }

  // The other row that looks the same once both are in conflict.
  function Flipped(r: Row): Row {
    r.(reachable := !r.reachable)
  }

  // Of the rows of one live record the first is kept, and no other.
  lemma {:induction false} FirstKept(front: seq<Row>, x: Row, rest: seq<Row>)
    requires x.alive && forall i :: 0 <= i < |front| ==> !Same(front[i], x)
    ensures x in Unique(front + [x] + rest)
    ensures forall r :: r in Unique(front + [x] + rest) && Same(r, x) ==> r == x
  {
    var rows := front + [x] + rest;
    if rest == [] {
      assert rows[..|rows| - 1] == front && rows[|rows| - 1] == x;
      UniqueOf(front);
      assert forall r :: r in Unique(front) ==> !Same(r, x);
    } else {
      var n := |rest| - 1;
      assert rows[..|rows| - 1] == front + [x] + rest[..n] && rows[|rows| - 1] == rest[n];
      FirstKept(front, x, rest[..n]);
      var before := Unique(front + [x] + rest[..n]);
      var i :| 0 <= i < |before| && before[i] == x;
      assert Same(rest[n], x) ==> Same(before[i], rest[n]);
    }
  }

  lemma {:induction false} UniqueOf(rows: seq<Row>)
    ensures forall r :: r in Unique(rows) ==> r in rows
  {
    if rows != [] {
      UniqueOf(rows[..|rows| - 1]);
      assert rows == rows[..|rows| - 1] + [rows[|rows| - 1]];
    }
  }

  lemma KeptIsShown(rows: seq<Row>, r: Row)
    requires r in Unique(rows)
    ensures r in Finish(rows, true) || Marked(r) in Finish(rows, true)
  {
    var unique := Unique(rows);
    var i :| 0 <= i < |unique| && unique[i] == r;
    ShownHas(unique, |unique|, true, i);
  }

  lemma ShownWasKept(rows: seq<Row>, shown: Row)
    requires shown in Finish(rows, true)
    ensures exists r :: r in Unique(rows) && (shown == r || shown == Marked(r))
  {
    var unique := Unique(rows);
    var k :| 0 <= k < |Finish(rows, true)| && Finish(rows, true)[k] == shown;
    var i := ShownAt(unique, |unique|, true, k);
    assert unique[i] in unique && (shown == unique[i] || shown == Marked(unique[i]));
  }

  lemma Distinguished(p: seq<Row>, q: seq<Row>, a: Row)
    requires AllObserved(q) && Observed(a) && a in Unique(p)
    requires a !in Unique(q) && Flipped(a) !in Unique(q)
    ensures !SameShown(p, q)
  {
    KeptIsShown(p, a);
    UniqueObserved(q);
    var shown := if a in Finish(p, true) then a else Marked(a);
    assert forall r :: r in Unique(q) ==> Observed(r);
    if shown in Finish(q, true) {
      ShownWasKept(q, shown);
      assert false;
    }
  }

  lemma ToFront(rows: seq<Row>, x: Row) returns (rest: seq<Row>)
    requires x in rows
    ensures Reordered(rows, [x] + rest) && Reordered([x] + rest, rows)
  {
    var i :| 0 <= i < |rows| && rows[i] == x;
    rest := rows[..i] + rows[i + 1..];
    assert rows == rows[..i] + [x] + rows[i + 1..];
  }

  lemma SameElements(rows: seq<Row>, p: seq<Row>)
    requires Reordered(rows, p)
    ensures forall r :: r in rows <==> r in p
    ensures AllObserved(rows) ==> AllObserved(p)
  {
    assert forall r :: r in rows <==> r in multiset(rows);
    assert forall r :: r in p <==> r in multiset(p);
    if AllObserved(rows) {
      forall i | 0 <= i < |p| ensures Observed(p[i]) {
        assert p[i] in rows;
      }
    }
  }

  // The order that starts with a row of a record, and the order that starts
  // with another row of it, behind both the same row of the flipped record.
  lemma OrderDecides(rows: seq<Row>, a: Row, b: Row) returns (p: seq<Row>, q: seq<Row>)
    requires AllObserved(rows) && a in rows && b in rows && a.alive && a != b && Same(a, b)
    ensures Reordered(rows, p) && Reordered(rows, q) && !SameShown(p, q)
  {
    var front: seq<Row> := [];
    if g :| g in rows && Same(g, Flipped(a)) {
      front := [g];
    }
    p := InFront(rows, a, front);
    q := InFront(rows, b, front);
    SameElements(rows, p);
    SameElements(rows, q);
    assert Observed(a) && Observed(b);
    if Flipped(a) !in Unique(q) {
      Distinguished(p, q, a);
    } else {
      UniqueOf(q);
      assert Same(Flipped(a), Flipped(a)) && front == [Flipped(a)];
      Distinguished(q, p, b);
    }
  }

  // A row first, then the front, then the rest.
  lemma InFront(rows: seq<Row>, a: Row, front: seq<Row>) returns (p: seq<Row>)
    requires AllObserved(rows) && a in rows && a.alive && |front| <= 1
    requires forall g :: g in front ==> g in rows && Same(g, Flipped(a))
    requires front == [] ==> forall g :: g in rows ==> !Same(g, Flipped(a))
    ensures Reordered(rows, p) && a in Unique(p)
    ensures forall r :: r in Unique(p) && Same(r, a) ==> r == a
    ensures forall r :: r in Unique(p) && Same(r, Flipped(a)) ==> front == [r]
  {
    var rest := ToFront(rows, a);
    if front == [] {
      p := [a] + rest;
      assert [] + [a] + rest == p;
      FirstKept([], a, rest);
      UniqueOf(p);
      SameElements(rows, p);
    } else {
      var g := front[0];
      SameElements(rows, [a] + rest);
      assert g in rest by { assert g in [a] + rest && g != a; }
      var later := ToFront(rest, g);
      p := [a] + [g] + later;
      assert p == [a] + ([g] + later);
      assert [] + [a] + ([g] + later) == p;
      FirstKept([], a, [g] + later);
      FirstKept([a], g, later);
    }
  }

  // Every order of the same sightings shows the same rows if and only if no
  // live record was seen with two endpoints. Discovery scans a directory with
  // one resolved path and identity only once, so two endpoints of one record
  // mean that its directory was replaced while discovery was at work.
  lemma OrderDecidesIff(rows: seq<Row>)
    requires AllObserved(rows)
    ensures (forall p, q :: Reordered(rows, p) && Reordered(rows, q) ==> SameShown(p, q)) <==> EndpointsDetermined(rows)
  {
    if EndpointsDetermined(rows) {
      forall p, q | Reordered(rows, p) && Reordered(rows, q) ensures SameShown(p, q) {
        SameElements(rows, p);
        SameElements(rows, q);
        OrderDoesNotMatter(rows, p, true);
        OrderDoesNotMatter(rows, q, true);
      }
    } else {
      var i, j :| 0 <= i < |rows| && 0 <= j < |rows| && rows[i].alive && Same(rows[i], rows[j]) && rows[i] != rows[j];
      var p, q := OrderDecides(rows, rows[i], rows[j]);
    }
  }

  /* ----- and when it matters for the report of a conflict ----- */

  ghost predicate Represented(chosen: seq<Row>, r: Row) {
    exists k :: k in chosen && Same(k, r)
  }

  lemma {:induction false} KeptApart(rows: seq<Row>)
    ensures forall i, j :: 0 <= i < j < |Unique(rows)| && Unique(rows)[i].alive && Unique(rows)[j].alive ==>
      !Same(Unique(rows)[i], Unique(rows)[j])
    ensures forall r :: r in rows && r.alive ==> Represented(Unique(rows), r)
  {
    if rows != [] {
      var init, row := rows[..|rows| - 1], rows[|rows| - 1];
      var before, unique := Unique(init), Unique(rows);
      KeptApart(init);
      assert rows == init + [row] && Same(row, row);
      assert unique == before || unique == before + [row];
      assert forall k :: k in before ==> k in unique;
      forall i, j | 0 <= i < j < |unique| && unique[i].alive && unique[j].alive ensures !Same(unique[i], unique[j]) {
        assert unique[i] == before[i];
      }
    }
  }

  // One sighting of every live record, no two in conflict.
  ghost predicate Peaceful(rows: seq<Row>, chosen: seq<Row>) {
    && (forall r :: r in chosen ==> r in rows && r.alive)
    && (forall r :: r in rows && r.alive ==> Represented(chosen, r))
    && (forall i, j :: 0 <= i < j < |chosen| ==> !Shares(chosen[i], chosen[j]))
  }

  function Lives(rows: seq<Row>): (lives: seq<Row>)
    ensures forall r :: r in lives <==> r in rows && r.alive
  {
    if rows == [] then [] else (if rows[0].alive then [rows[0]] else []) + Lives(rows[1..])
  }

  lemma {:induction false} LivesApart(rows: seq<Row>)
    requires forall i, j :: 0 <= i < j < |rows| && rows[i].alive && rows[j].alive ==> !Shares(rows[i], rows[j])
    ensures forall i, j :: 0 <= i < j < |Lives(rows)| ==> !Shares(Lives(rows)[i], Lives(rows)[j])
  {
    if rows != [] {
      LivesApart(rows[1..]);
      var later := Lives(rows[1..]);
      if rows[0].alive {
        assert Lives(rows) == [rows[0]] + later;
        forall j | 0 <= j < |later| ensures !Shares(rows[0], later[j]) {
          assert later[j] in rows[1..];
        }
      } else {
        assert Lives(rows) == later;
      }
    }
  }

  // Chosen rows first, then the rest.
  lemma {:induction false} ChosenFirst(rows: seq<Row>, chosen: seq<Row>) returns (rest: seq<Row>)
    requires forall r :: r in chosen ==> r in rows
    requires forall i, j :: 0 <= i < j < |chosen| ==> !Shares(chosen[i], chosen[j])
    ensures Reordered(rows, chosen + rest)
    decreases |chosen|
  {
    if chosen == [] {
      rest := rows;
      assert chosen + rest == rows;
    } else {
      var x, more := chosen[0], chosen[1..];
      var others := ToFront(rows, x);
      SameElements(rows, [x] + others);
      forall r | r in more ensures r in others {
        assert r in [x] + others && Shares(x, x);
      }
      rest := ChosenFirst(others, more);
      assert chosen + rest == [x] + (more + rest);
    }
  }

  lemma ChosenIsKept(chosen: seq<Row>, rest: seq<Row>, k: nat)
    requires k < |chosen| && chosen[k].alive
    requires forall i, j :: 0 <= i < j < |chosen| ==> !Shares(chosen[i], chosen[j])
    ensures forall r :: r in Unique(chosen + rest) && Same(r, chosen[k]) ==> r == chosen[k]
  {
    var front, later := chosen[..k], chosen[k + 1..] + rest;
    assert chosen + rest == front + [chosen[k]] + later;
    forall i | 0 <= i < k ensures !Same(front[i], chosen[k]) { assert !Shares(chosen[i], chosen[k]); }
    FirstKept(front, chosen[k], later);
  }

  lemma KeptAreChosen(chosen: seq<Row>, rest: seq<Row>, r: Row)
    requires r in Unique(chosen + rest) && r.alive && Represented(chosen, r)
    requires forall i, j :: 0 <= i < j < |chosen| ==> !Shares(chosen[i], chosen[j])
    ensures r in chosen
  {
    var c :| c in chosen && Same(c, r);
    var k :| 0 <= k < |chosen| && chosen[k] == c;
    ChosenIsKept(chosen, rest, k);
  }

  lemma ApartInChoice(chosen: seq<Row>, a: Row, b: Row)
    requires a in chosen && b in chosen && a != b
    requires forall i, j :: 0 <= i < j < |chosen| ==> !Shares(chosen[i], chosen[j])
    ensures !Shares(a, b)
  {
    var k :| 0 <= k < |chosen| && chosen[k] == a;
    var l :| 0 <= l < |chosen| && chosen[l] == b;
    assert Shares(a, b) == Shares(b, a);
  }

  lemma NoneConflicts(unique: seq<Row>, chosen: seq<Row>)
    requires forall r :: r in unique && r.alive ==> r in chosen
    requires forall i, j :: 0 <= i < j < |unique| && unique[i].alive && unique[j].alive ==> !Same(unique[i], unique[j])
    requires forall i, j :: 0 <= i < j < |chosen| ==> !Shares(chosen[i], chosen[j])
    ensures forall i :: 0 <= i < |unique| ==> !Conflicted(unique, i)
  {
    forall i, j | 0 <= i < |unique| && 0 <= j < |unique| && i != j && unique[i].alive && unique[j].alive
      ensures !Shares(unique[i], unique[j])
    {
      assert Same(unique[i], unique[i]) && Same(unique[j], unique[j]);
      hide Same, Shares;
      ApartInChoice(chosen, unique[i], unique[j]);
    }
  }

  // With a peaceful choice in front only the chosen sightings are kept.
  lemma PeacefulOrder(rows: seq<Row>, chosen: seq<Row>) returns (p: seq<Row>)
    requires Peaceful(rows, chosen)
    ensures Reordered(rows, p) && !Conflict(p)
  {
    hide Unique, Same, Shares, Reordered, Conflicted, Represented;
    var rest := ChosenFirst(rows, chosen);
    p := chosen + rest;
    SameElements(rows, p);
    UniqueOf(p);
    KeptApart(p);
    forall r | r in Unique(p) && r.alive ensures r in chosen {
      KeptAreChosen(chosen, rest, r);
    }
    NoneConflicts(Unique(p), chosen);
  }

  lemma ChoiceOf(rows: seq<Row>, p: seq<Row>) returns (chosen: seq<Row>)
    requires Reordered(rows, p) && !Conflict(p)
    ensures Peaceful(rows, chosen)
  {
    var unique := Unique(p);
    SameElements(rows, p);
    UniqueOf(p);
    KeptApart(p);
    forall i, j | 0 <= i < j < |unique| && unique[i].alive && unique[j].alive ensures !Shares(unique[i], unique[j]) {
      assert !Conflicted(unique, i);
    }
    LivesApart(unique);
    chosen := Lives(unique);
    forall r | r in rows && r.alive ensures Represented(chosen, r) {
      var k :| k in unique && Same(k, r);
      assert k in chosen;
    }
  }

  lemma RivalsFirst(rows: seq<Row>, a: Row, b: Row) returns (p: seq<Row>)
    requires a in rows && b in rows && a.alive && b.alive && !Same(a, b) && Shares(a, b)
    ensures Reordered(rows, p) && Conflict(p)
  {
    var others := ToFront(rows, a);
    SameElements(rows, [a] + others);
    assert b in others by { assert b in [a] + others && b != a; }
    var rest := ToFront(others, b);
    p := [a] + [b] + rest;
    assert p == [a] + ([b] + rest) && [] + [a] + ([b] + rest) == p;
    FirstKept([], a, [b] + rest);
    FirstKept([a], b, rest);
    var unique := Unique(p);
    var i :| 0 <= i < |unique| && unique[i] == a;
    var j :| 0 <= j < |unique| && unique[j] == b;
    assert Conflicted(unique, i);
  }

  lemma RivalsOf(rows: seq<Row>, p: seq<Row>) returns (a: Row, b: Row)
    requires Reordered(rows, p) && Conflict(p)
    ensures a in rows && b in rows && a.alive && b.alive && !Same(a, b) && Shares(a, b)
  {
    var unique := Unique(p);
    SameElements(rows, p);
    UniqueOf(p);
    KeptApart(p);
    var i :| 0 <= i < |unique| && Conflicted(unique, i);
    var j :| 0 <= j < |unique| && j != i && unique[j].alive && Shares(unique[i], unique[j]);
    a, b := unique[i], unique[j];
    assert a in unique && b in unique;
  }

  ghost predicate Rivals(rows: seq<Row>, a: Row, b: Row) {
    a in rows && b in rows && a.alive && b.alive && !Same(a, b) && Shares(a, b)
  }

  // Some order reports a conflict if and only if sightings of two different
  // live records share a PID, a path or an inbox; some order reports none if
  // and only if one sighting of every live record can be chosen so that none
  // of them do. The report depends on the order exactly when both hold.
  lemma ConflictReportedIff(rows: seq<Row>)
    ensures (exists p :: Reordered(rows, p) && Conflict(p)) <==> exists a, b :: Rivals(rows, a, b)
    ensures (exists p :: Reordered(rows, p) && !Conflict(p)) <==> exists chosen :: Peaceful(rows, chosen)
  {
    hide Conflict, Peaceful, Reordered, Same, Shares;
    if p :| Reordered(rows, p) && Conflict(p) {
      var a, b := RivalsOf(rows, p);
      assert Rivals(rows, a, b);
    }
    if a, b :| Rivals(rows, a, b) {
      var p := RivalsFirst(rows, a, b);
    }
    if p :| Reordered(rows, p) && !Conflict(p) {
      var chosen := ChoiceOf(rows, p);
    }
    if chosen :| Peaceful(rows, chosen) {
      var p := PeacefulOrder(rows, chosen);
    }
  }

  // Both can hold: a record whose directory was replaced during discovery is
  // seen with two endpoints, one of them another record's.
  lemma TwoEndpointsOrderMatters() returns (rows: seq<Row>, p: seq<Row>, q: seq<Row>)
    ensures AllObserved(rows) && Reordered(rows, p) && Reordered(rows, q)
    ensures Conflict(p) && !Conflict(q)
  {
    var a1 := Row(7, "/a", "a", true, true, false, Some((1, 1)), "");
    var a2 := a1.(endpoint := Some((1, 2)));
    var b := Row(8, "/b", "b", true, true, false, Some((1, 2)), "");
    rows := [a1, a2, b];
    var chosen := [a1, b];
    assert a2 == rows[1] && b == rows[2] && Rivals(rows, a2, b);
    assert Represented(chosen, a1) && Represented(chosen, a2) && Represented(chosen, b) by {
      assert a1 == chosen[0] && b == chosen[1] && Same(a1, a1) && Same(a1, a2) && Same(b, b);
    }
    assert !Shares(a1, b);
    assert Peaceful(rows, chosen) by {
      assert forall r :: r in rows <==> r == a1 || r == a2 || r == b;
      assert forall r :: r in chosen <==> r == a1 || r == b;
    }
    hide Conflict, Peaceful, Represented;
    p := RivalsFirst(rows, a2, b);
    q := PeacefulOrder(rows, chosen);
  }
}
