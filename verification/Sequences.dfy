/** Small facts about sequences that the verifier does not apply by itself. */
module Sequences {
  lemma Regroup<T>(a: seq<T>, b: seq<T>, c: seq<T>)
    ensures a + b + c == a + (b + c)
  {
  }

  lemma DropTwice<T>(s: seq<T>, n: nat, m: nat)
    requires n + m <= |s|
    ensures s[n..][m..] == s[n + m..]
  {
  }

  lemma Halves<T>(a: seq<T>, b: seq<T>)
    ensures (a + b)[..|a|] == a && (a + b)[|a|..] == b
  {
  }

  lemma Rejoin<T>(s: seq<T>, n: nat)
    requires n <= |s|
    ensures s[..n] + s[n..] == s
  {
  }

  lemma NothingBefore<T>(s: seq<T>)
    ensures [] + s == s && s + [] == s
  {
  }

  lemma SplitAfterFirst<T>(s: seq<T>, k: nat)
    requires 1 <= k <= |s|
    ensures s[..k] == [s[0]] + s[1..][..k - 1] && s[k..] == s[1..][k - 1..]
  {
  }

  function Repeated<T>(x: T, n: nat): (s: seq<T>)
    ensures |s| == n && forall i :: 0 <= i < n ==> s[i] == x
  {
    if n == 0 then [] else [x] + Repeated(x, n - 1)
  }
}
