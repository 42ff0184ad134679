/** Small shared vocabulary: optional values and ordered scans of finite sets. */
module Base {

  datatype Option<+T> = None | Some(value: T)

  predicate IsLeast(m: nat, s: set<nat>) { m in s && forall x :: x in s ==> m <= x }

  /** The least element of a non-empty set. */
  function Least(s: set<nat>): (m: nat)
    requires s != {}
    ensures m in s && forall x :: x in s ==> m <= x
  {
    LeastExists(s);
    var m :| IsLeast(m, s);
    m
  }

  lemma {:induction false} LeastExists(s: set<nat>)
    requires s != {}
    ensures exists m :: IsLeast(m, s)
  {
    var e :| e in s;
    var rest := s - {e};
    if rest == {} {
      assert s == {e};
      assert IsLeast(e, s);
    } else {
      LeastExists(rest);
      var n :| IsLeast(n, rest);
      assert forall x :: x in s ==> x == e || x in rest;
      assert IsLeast(if n < e then n else e, s);
    }
  }

  lemma ConsAscends(m: nat, rest: seq<nat>, s: set<nat>)
    requires m in s && (forall x :: x in rest ==> m < x) && (forall x :: x in s - {m} <==> x in rest)
    requires forall i, j :: 0 <= i < j < |rest| ==> rest[i] < rest[j]
    ensures forall x :: x in s <==> x in [m] + rest
    ensures forall i, j :: 0 <= i < j < |[m] + rest| ==> ([m] + rest)[i] < ([m] + rest)[j]
  {
    forall i | 0 <= i < |rest| ensures m < rest[i] { assert rest[i] in rest; }
    forall x ensures x in s <==> x in [m] + rest { assert x in s <==> x == m || x in s - {m}; }
  }

  /** The elements of a set in ascending order: the rows of an ORDER BY over a unique integer key. */
  function Ascending(s: set<nat>): (r: seq<nat>)
    ensures |r| == |s|
    ensures forall x :: x in s <==> x in r
    ensures forall i, j :: 0 <= i < j < |r| ==> r[i] < r[j]
    decreases |s|
  {
    if s == {} then []
    else
      var m, rest := Least(s), Ascending(s - {Least(s)});
      ConsAscends(m, rest, s);
      [m] + rest
  }

  lemma AscendingUnfolds(s: set<nat>)
    requires s != {}
    ensures Ascending(s) == [Least(s)] + Ascending(s - {Least(s)})
  {
  }

  /** LIMIT n. */
  function Limit<T>(s: seq<T>, n: nat): (r: seq<T>)
    ensures r <= s && |r| == if |s| <= n then |s| else n
  {
    if |s| <= n then s else s[..n]
  }

  function Under(s: set<nat>, x: nat): set<nat> { set j | j in s && j < x }

  lemma UnderRest(s: set<nat>, m: nat, x: nat)
    requires IsLeast(m, s) && x in s && x != m
    ensures |Under(s, x)| == |Under(s - {m}, x)| + 1
  {
    assert Under(s, x) == Under(s - {m}, x) + {m};
  }

  lemma LimitOfCons(m: nat, rest: seq<nat>, n: nat, x: nat)
    requires n > 0
    ensures x in Limit([m] + rest, n) <==> x == m || x in Limit(rest, n - 1)
  {
    assert Limit([m] + rest, n) == [m] + Limit(rest, n - 1);
  }

  /** A row is among the first n of an ORDER BY exactly when fewer than n come before it. */
  lemma {:induction false} AmongTheFirst(s: set<nat>, n: nat, x: nat)
    requires x in s
    ensures x in Limit(Ascending(s), n) <==> |Under(s, x)| < n
    decreases n
  {
    hide Ascending, Limit, Under;
    if n == 0 {
      LimitOfNone(Ascending(s));
    } else {
      var m := Least(s);
      AscendingUnfolds(s);
      LimitOfCons(m, Ascending(s - {m}), n, x);
      if x == m {
        NoneUnder(s, m);
      } else {
        UnderRest(s, m, x);
        AmongTheFirst(s - {m}, n - 1, x);
      }
    }
  }

  lemma LimitOfNone(a: seq<nat>)
    ensures Limit(a, 0) == []
  {
  }

  lemma NoneUnder(s: set<nat>, m: nat)
    requires IsLeast(m, s)
    ensures Under(s, m) == {}
  {
  }

  function Max(a: nat, b: nat): nat { if a < b then b else a }
}
