/** The event ids of the binding store's outbox rows. */
module EventIds {
  import opened Text
  import opened Binding

  function Name(op: Operation): string {
    match op
    case CREATE => "CREATE"
    case PUBLISH => "PUBLISH"
    case SUSPEND => "SUSPEND"
    case RESUME => "RESUME"
    case DEPRECATE => "DEPRECATE"
    case RETIRE => "RETIRE"
  }

  /** Publish leaves the operation out, the lifecycle changes append it. */
  function EventId(key: string, revision: nat, op: Operation): string {
    if op == PUBLISH then "binding:" + key + ":" + Decimal(revision)
    else "binding:" + key + ":" + Decimal(revision) + ":" + Name(op)
  }

  /** Everything after the last c. */
  function AfterLast(s: string, c: char): string
    decreases |s|
  {
    if c !in s then s else AfterLast(s[UpToIndex(s, c) + 1..], c)
  }

  function UpToIndex(s: string, c: char): (i: nat)
    requires c in s
    ensures i < |s| && s[i] == c
    decreases |s|
  {
    if s[0] == c then 0 else
      assert c in s[1..] by { var k :| 0 <= k < |s| && s[k] == c; assert s[1..][k - 1] == c; }
      1 + UpToIndex(s[1..], c)
  }

  lemma {:induction false} AfterLastIsTail(a: string, c: char, b: string)
    requires c !in b
    ensures AfterLast(a + [c] + b, c) == b
    decreases |a|
  {
    var s := a + [c] + b;
    assert s[|a|] == c;
    var i := UpToIndex(s, c);
    if i < |a| {
      assert s[i + 1..] == a[i + 1..] + [c] + b;
      AfterLastIsTail(a[i + 1..], c, b);
    } else {
      forall k | |a| < k < |s| ensures s[k] != c { assert s[k] == b[k - |a| - 1]; }
      assert s[i + 1..] == b;
    }
  }

  /** A separator absent from both tails splits equal texts at the same place. */
  lemma SplitAtLast(a: string, x: string, c: char, b: string, y: string)
    requires c !in x && c !in y && a + [c] + x == b + [c] + y
    ensures a == b && x == y
  {
    AfterLastIsTail(a, c, x);
    AfterLastIsTail(b, c, y);
    assert |a| == |b|;
    assert (a + [c] + x)[..|a|] == a && (b + [c] + y)[..|b|] == b;
  }

  lemma DigitsAreNoName(n: nat, op: Operation)
    ensures Decimal(n) != Name(op) && ':' !in Decimal(n) && ':' !in Name(op)
  {
    DecimalIsDigits(n);
    assert '0' <= Decimal(n)[0] <= '9';
  }

  function Stem(key: string, revision: nat): string { "binding:" + key + ":" + Decimal(revision) }

  lemma StemInjective(a: string, m: nat, b: string, n: nat)
    requires Stem(a, m) == Stem(b, n)
    ensures a == b && m == n
  {
    DigitsAreNoName(m, PUBLISH);
    DigitsAreNoName(n, PUBLISH);
    SplitAtLast("binding:" + a, Decimal(m), ':', "binding:" + b, Decimal(n));
    DecimalInjective(m, n);
    assert a == ("binding:" + a)[8..] == ("binding:" + b)[8..] == b;
  }

  lemma NameInjective(a: Operation, b: Operation)
    requires Name(a) == Name(b)
    ensures a == b
  {
    assert "CREATE" != "PUBLISH" && "CREATE"[0] != "RETIRE"[0] && |"SUSPEND"| == 7 && |"PUBLISH"| == 7 && |"RESUME"| == 6;
    assert "SUSPEND"[0] != "PUBLISH"[0] && "RESUME"[2] != "RETIRE"[2];
  }

  /** Events of different bindings, revisions or operations never share an id: within one table the outbox's
      unique event id never refuses one, and for its consumers an id fixes aggregate and revision. */
  lemma EventIdsNeverCollide(a: string, m: nat, p: Operation, b: string, n: nat, q: Operation)
    ensures EventId(a, m, p) == EventId(b, n, q) <==> a == b && m == n && p == q
  {
    if EventId(a, m, p) == EventId(b, n, q) {
      DigitsAreNoName(m, q);
      DigitsAreNoName(n, p);
      if p == PUBLISH && q == PUBLISH {
        StemInjective(a, m, b, n);
      } else if p == PUBLISH {
        SplitAtLast("binding:" + a, Decimal(m), ':', Stem(b, n), Name(q));
      } else if q == PUBLISH {
        SplitAtLast(Stem(a, m), Name(p), ':', "binding:" + b, Decimal(n));
      } else {
        SplitAtLast(Stem(a, m), Name(p), ':', Stem(b, n), Name(q));
        StemInjective(a, m, b, n);
        NameInjective(p, q);
      }
    }
  }
}
