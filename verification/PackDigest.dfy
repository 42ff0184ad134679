/** The bytes under a pack's content id (Digest in internal/evidencepack/pack.go), and when two
    windows have the same ones. */
module PackDigest {
  import opened Text
  import A = Archive

  /** One record's line. */
  function Line(e: A.Entry): string { Decimal(e.id) + ":" + e.eventId + ":" + e.digest }

  function Lines(es: seq<A.Entry>): seq<string>
    decreases |es|
  {
    if es == [] then [] else Lines(es[..|es| - 1]) + [Line(es[|es| - 1])]
  }

  /** Fprintln of each line. */
  function Joined(lines: seq<string>): string
    decreases |lines|
  {
    if lines == [] then "" else lines[0] + "\n" + Joined(lines[1..])
  }

  /** What Digest hashes. */
  function DigestText(policy: string, es: seq<A.Entry>): string {
    "policy:" + policy + "\n" + Joined(Sort(Lines(es)))
  }

  method DigestInput(policy: string, es: seq<A.Entry>) returns (text: string)
    ensures text == DigestText(policy, es)
  {
    text := "policy:" + policy + "\n";
    var ids := [];
    for i := 0 to |es|
      invariant ids == Lines(es[..i])
    {
      assert es[..i + 1][..i] == es[..i];
      ids := ids + [Line(es[i])];
    }
    assert es[..|es|] == es;
    ids := Sort(ids);
    ghost var head := text;
    for i := 0 to |ids|
      invariant head + Joined(ids) == text + Joined(ids[i..])
    {
      assert ids[i..][0] == ids[i] && ids[i..][1..] == ids[i + 1..];
      JoinUnfolds(ids, i, text);
      text := text + ids[i] + "\n";
    }
    assert ids[|ids|..] == [];
  }

  lemma JoinUnfolds(ids: seq<string>, i: nat, text: string)
    requires i < |ids|
    ensures text + Joined(ids[i..]) == text + ids[i] + "\n" + Joined(ids[i + 1..])
  {
    assert ids[i..][0] == ids[i] && ids[i..][1..] == ids[i + 1..];
  }

  // ---- reading the text back ----

  /** e's line and x after it read the same as f's line and y after it. */
  predicate ReadsAlike(e: A.Entry, x: string, f: A.Entry, y: string) {
    Line(e) + "\n" + x == Line(f) + "\n" + y
  }

  /** No text begins with the lines of two different entries of the pool. */
  ghost predicate Readable(pool: iset<A.Entry>) {
    forall e, f, x, y :: e in pool && f in pool && ReadsAlike(e, x, f, y) ==> e == f
  }

  ghost predicate IsLineOf(line: string, pool: iset<A.Entry>) { exists e :: e in pool && Line(e) == line }

  ghost predicate LinesFrom(lines: seq<string>, pool: iset<A.Entry>) {
    forall i :: 0 <= i < |lines| ==> IsLineOf(lines[i], pool)
  }

  predicate Drawn(es: seq<A.Entry>, pool: iset<A.Entry>) { forall i :: 0 <= i < |es| ==> es[i] in pool }

  lemma SameHead(a: seq<string>, b: seq<string>, pool: iset<A.Entry>)
    requires Readable(pool) && LinesFrom(a, pool) && LinesFrom(b, pool)
    requires a != [] && b != [] && Joined(a) == Joined(b)
    ensures a[0] == b[0] && Joined(a[1..]) == Joined(b[1..])
  {
    hide Line;
    assert IsLineOf(a[0], pool) && IsLineOf(b[0], pool);
    var e :| e in pool && Line(e) == a[0];
    var f :| f in pool && Line(f) == b[0];
    var x, y := Joined(a[1..]), Joined(b[1..]);
    assert ReadsAlike(e, x, f, y);
    var n := |a[0]| + 1;
    assert x == (a[0] + "\n" + x)[n..] == (b[0] + "\n" + y)[n..] == y;
  }

  lemma {:induction false} JoinedInjective(a: seq<string>, b: seq<string>, pool: iset<A.Entry>)
    requires Readable(pool) && LinesFrom(a, pool) && LinesFrom(b, pool) && Joined(a) == Joined(b)
    ensures a == b
    decreases |a|
  {
    hide Readable, IsLineOf;
    if a != [] && b != [] {
      SameHead(a, b, pool);
      JoinedInjective(a[1..], b[1..], pool);
      assert a == [a[0]] + a[1..] && b == [b[0]] + b[1..];
    }
  }

  lemma {:induction false} LinesCount(es: seq<A.Entry>, e: A.Entry, pool: iset<A.Entry>)
    requires Readable(pool) && Drawn(es, pool) && e in pool
    ensures multiset(Lines(es))[Line(e)] == multiset(es)[e]
    decreases |es|
  {
    hide Line;
    if es != [] {
      var init, last := es[..|es| - 1], es[|es| - 1];
      LinesCount(init, e, pool);
      assert es == init + [last];
      if Line(last) == Line(e) { assert ReadsAlike(last, "", e, ""); }
    }
  }

  lemma {:induction false} LinesAreFrom(es: seq<A.Entry>, pool: iset<A.Entry>)
    requires Drawn(es, pool)
    ensures LinesFrom(Lines(es), pool)
    decreases |es|
  {
    hide Line;
    if es != [] {
      var init, last := es[..|es| - 1], es[|es| - 1];
      LinesAreFrom(init, pool);
      assert IsLineOf(Line(last), pool);
    }
  }

  lemma SortedLinesAreFrom(es: seq<A.Entry>, pool: iset<A.Entry>)
    requires Drawn(es, pool)
    ensures LinesFrom(Sort(Lines(es)), pool) && multiset(Sort(Lines(es))) == multiset(Lines(es))
  {
    hide IsLineOf, Lines, Sort, Ordered;
    var lines := Lines(es);
    LinesAreFrom(es, pool);
    SortOrders(lines);
    forall i | 0 <= i < |Sort(lines)| ensures IsLineOf(Sort(lines)[i], pool) {
      assert Sort(lines)[i] in multiset(lines);
    }
  }

  lemma WithoutOne(fs: seq<A.Entry>, k: nat) returns (rest: seq<A.Entry>)
    requires k < |fs|
    ensures |rest| < |fs| && multiset(fs) == multiset(rest) + multiset{fs[k]}
    ensures multiset(Lines(fs)) == multiset(Lines(rest)) + multiset{Line(fs[k])}
  {
    rest := fs[..k] + fs[k + 1..];
    assert fs == fs[..k] + [fs[k]] + fs[k + 1..];
    LinesConcat(fs[..k], fs[k + 1..]);
    LinesConcat(fs[..k] + [fs[k]], fs[k + 1..]);
    assert (fs[..k] + [fs[k]])[..k] == fs[..k];
  }

  lemma Cancel(a: multiset<A.Entry>, b: multiset<A.Entry>, e: A.Entry)
    requires a + multiset{e} == b + multiset{e}
    ensures a == b
  {
    forall x ensures a[x] == b[x] { assert (a + multiset{e})[x] == (b + multiset{e})[x]; }
  }

  lemma {:induction false} LinesPermute(es: seq<A.Entry>, fs: seq<A.Entry>)
    requires multiset(es) == multiset(fs)
    ensures multiset(Lines(es)) == multiset(Lines(fs))
    decreases |es|
  {
    hide Line, Lines;
    if es == [] {
      assert fs == [] by { assert |multiset(fs)| == 0; }
    } else {
      assert es[0] in multiset(fs);
      var k :| 0 <= k < |fs| && fs[k] == es[0];
      var a := WithoutOne(es, 0);
      var b := WithoutOne(fs, k);
      Cancel(multiset(a), multiset(b), es[0]);
      LinesPermute(a, b);
    }
  }

  lemma {:induction false} LinesConcat(a: seq<A.Entry>, b: seq<A.Entry>)
    ensures Lines(a + b) == Lines(a) + Lines(b)
    decreases |b|
  {
    if b == [] {
      assert a + b == a;
    } else {
      LinesConcat(a, b[..|b| - 1]);
      assert (a + b)[..|a + b| - 1] == a + b[..|b| - 1];
    }
  }

  lemma SameLinesSameEntries(a: seq<A.Entry>, b: seq<A.Entry>, pool: iset<A.Entry>)
    requires Readable(pool) && Drawn(a, pool) && Drawn(b, pool)
    requires Joined(Sort(Lines(a))) == Joined(Sort(Lines(b)))
    ensures multiset(a) == multiset(b)
  {
    hide Readable, Lines, Sort, Joined, Line, LinesFrom;
    SortedLinesAreFrom(a, pool);
    SortedLinesAreFrom(b, pool);
    JoinedInjective(Sort(Lines(a)), Sort(Lines(b)), pool);
    forall e ensures multiset(a)[e] == multiset(b)[e] {
      if e in pool {
        LinesCount(a, e, pool);
        LinesCount(b, e, pool);
      } else {
        assert e !in a && e !in b;
      }
    }
  }

  // ---- the policy's line ----

  /** s begins like a record's line. */
  ghost predicate BeginsLikeALine(s: string) { exists n: nat, w: string :: s == NumberThen(n, w) }

  function NumberThen(n: nat, w: string): string { Decimal(n) + ":" + w }

  /** p goes on where q ends with what reads as a record's line. */
  ghost predicate Continues(p: string, q: string) { q + "\n" <= p && BeginsLikeALine(p[|q| + 1..]) }

  /** Newline-free policies are. */
  ghost predicate PoliciesApart(p: string, q: string) { !Continues(p, q) && !Continues(q, p) }

  lemma ContinuationHoldsNewline(p: string, q: string)
    requires p + "\n" <= q
    ensures '\n' in q
  {
    assert q[|p|] == '\n';
  }

  lemma NewlineFreePoliciesAreApart(p: string, q: string)
    requires '\n' !in p && '\n' !in q
    ensures PoliciesApart(p, q)
  {
    if p + "\n" <= q { ContinuationHoldsNewline(p, q); }
    if q + "\n" <= p { ContinuationHoldsNewline(q, p); }
  }

  lemma JoinedBeginsLikeALine(es: seq<A.Entry>)
    requires es != []
    ensures BeginsLikeALine(Joined(Sort(Lines(es))))
  {
    hide Sort, Lines, Joined, Line, BeginsLikeALine;
    var lines, pool := Sort(Lines(es)), iset i | 0 <= i < |es| :: es[i];
    SortedLinesAreFrom(es, pool);
    LinesLength(es);
    assert |lines| == |multiset(lines)| == |multiset(Lines(es))|;
    assert IsLineOf(lines[0], pool);
    var e :| e in pool && Line(e) == lines[0];
    LineBegins(e, lines);
  }

  lemma LineBegins(e: A.Entry, lines: seq<string>)
    requires lines != [] && lines[0] == Line(e)
    ensures BeginsLikeALine(Joined(lines))
  {
    hide Decimal;
    var rest := Joined(lines[1..]);
    assert Joined(lines) == NumberThen(e.id, e.eventId + ":" + e.digest + "\n" + rest);
  }

  lemma {:induction false} LinesLength(es: seq<A.Entry>)
    ensures |Lines(es)| == |es|
    decreases |es|
  {
    if es != [] { LinesLength(es[..|es| - 1]); }
  }

  lemma CutBeginsLikeALine(z: string, y: string)
    requires BeginsLikeALine(z + "\n" + y)
    ensures BeginsLikeALine(z)
  {
    var t := z + "\n" + y;
    var n: nat, w: string :| t == NumberThen(n, w);
    var head := Decimal(n) + ":";
    DecimalIsDigits(n);
    assert t[..|head|] == head && t[|z|] == '\n';
    forall i | 0 <= i < |head| ensures t[i] != '\n' { assert t[i] == head[i] && '\n' !in head; }
    assert z == t[..|z|] == head + t[|head|..|z|];
    assert z == NumberThen(n, t[|head|..|z|]);
  }

  /** The shorter policy followed by lines is the longer one followed by anything: the longer continues it. */
  lemma LongerContinues(p: string, a: seq<A.Entry>, q: string, y: string)
    requires |p| < |q| && p + "\n" + Joined(Sort(Lines(a))) == q + "\n" + y
    ensures Continues(q, p)
  {
    hide Sort, Lines, BeginsLikeALine;
    var x := Joined(Sort(Lines(a)));
    var s, t, n := p + "\n" + x, q + "\n" + y, |p| + 1;
    assert p + "\n" == s[..n] == t[..n] == q[..n];
    assert x == s[n..] == t[n..] == q[n..] + "\n" + y;
    if a == [] { JoinedNothing(); }
    JoinedBeginsLikeALine(a);
    CutBeginsLikeALine(q[n..], y);
  }

  lemma JoinedNothing()
    ensures Joined(Sort(Lines([]))) == ""
  {
  }

  lemma PolicyDecides(p: string, a: seq<A.Entry>, q: string, b: seq<A.Entry>)
    requires PoliciesApart(p, q) && DigestText(p, a) == DigestText(q, b)
    ensures p == q && Joined(Sort(Lines(a))) == Joined(Sort(Lines(b)))
  {
    hide Continues, Joined, Sort, Lines;
    var x, y := Joined(Sort(Lines(a))), Joined(Sort(Lines(b)));
    var s, t := p + "\n" + x, q + "\n" + y;
    assert s == ("policy:" + p + "\n" + x)[7..] == ("policy:" + q + "\n" + y)[7..] == t;
    if |p| < |q| {
      LongerContinues(p, a, q, y);
    } else if |q| < |p| {
      LongerContinues(q, b, p, x);
    } else {
      assert p == s[..|p|] == t[..|q|] == q;
      assert x == s[|p| + 1..] == t[|q| + 1..] == y;
    }
  }

  /** Windows from a readable pool hash the same bytes exactly when they agree on policy and entries. */
  lemma TextDecides(p: string, a: seq<A.Entry>, q: string, b: seq<A.Entry>, pool: iset<A.Entry>)
    requires PoliciesApart(p, q) && Readable(pool) && Drawn(a, pool) && Drawn(b, pool)
    ensures DigestText(p, a) == DigestText(q, b) <==> p == q && multiset(a) == multiset(b)
  {
    hide Readable, Lines, Sort, Joined, Drawn, PoliciesApart;
    if p == q && multiset(a) == multiset(b) {
      LinesPermute(a, b);
      SortIgnoresOrder(Lines(a), Lines(b));
    }
    if DigestText(p, a) == DigestText(q, b) {
      PolicyDecides(p, a, q, b);
      SameLinesSameEntries(a, b, pool);
    }
  }

  // ---- records of one table ----

  /** Equal record ids mean equal records: windows read from one evidence table, which never changes a
      record's event id or digest. */
  predicate OneTable(es: seq<A.Entry>) {
    forall i, j :: 0 <= i < |es| && 0 <= j < |es| && es[i].id == es[j].id ==> es[i] == es[j]
  }

  lemma SameRecordId(e: A.Entry, x: string, f: A.Entry, y: string)
    requires ReadsAlike(e, x, f, y)
    ensures e.id == f.id
    ensures e.eventId + ":" + e.digest + "\n" + x == f.eventId + ":" + f.digest + "\n" + y
  {
    hide Decimal;
    DecimalIsDigits(e.id);
    DecimalIsDigits(f.id);
    var s, t := e.eventId + ":" + e.digest + "\n" + x, f.eventId + ":" + f.digest + "\n" + y;
    assert Line(e) + "\n" + x == Decimal(e.id) + [':'] + s;
    assert Line(f) + "\n" + y == Decimal(f.id) + [':'] + t;
    SplitAtSeparator(Decimal(e.id), Decimal(f.id), ':', s, t);
    DecimalInjective(e.id, f.id);
  }

  /** Over one table the claim of the content id holds whatever the event ids and digests hold. */
  lemma OneTableSameTextExactlyWhenSameWindow(p: string, a: seq<A.Entry>, q: string, b: seq<A.Entry>)
    requires PoliciesApart(p, q) && OneTable(a + b)
    ensures DigestText(p, a) == DigestText(q, b) <==> p == q && multiset(a) == multiset(b)
  {
    hide DigestText, ReadsAlike, PoliciesApart;
    var pool := iset i | 0 <= i < |a + b| :: (a + b)[i];
    forall e, f, x, y | e in pool && f in pool && ReadsAlike(e, x, f, y) ensures e == f {
      SameRecordId(e, x, f, y);
    }
    forall i | 0 <= i < |a| ensures a[i] in pool { assert (a + b)[i] == a[i]; }
    forall i | 0 <= i < |b| ensures b[i] in pool { assert (a + b)[|a| + i] == b[i]; }
    TextDecides(p, a, q, b, pool);
  }

  // ---- the function by itself ----

  const DIGEST_LENGTH := 71

  /** The evidence table's CHECK fixes the digest's length; event ids carry no newline. */
  predicate WellFormed(e: A.Entry) { |e.digest| == DIGEST_LENGTH && '\n' !in e.digest && '\n' !in e.eventId }

  predicate AllWellFormed(es: seq<A.Entry>) { forall i :: 0 <= i < |es| ==> WellFormed(es[i]) }

  lemma WellFormedReadsApart(e: A.Entry, x: string, f: A.Entry, y: string)
    requires WellFormed(e) && WellFormed(f) && ReadsAlike(e, x, f, y)
    ensures e == f
  {
    SameRecordId(e, x, f, y);
    var s, t := e.eventId + ":" + e.digest, f.eventId + ":" + f.digest;
    SplitAtSeparator(s, t, '\n', x, y);
    assert e.digest == s[|s| - DIGEST_LENGTH..] == t[|t| - DIGEST_LENGTH..] == f.digest;
    assert e.eventId == s[..|s| - DIGEST_LENGTH - 1] == t[..|t| - DIGEST_LENGTH - 1] == f.eventId;
  }

  /** With newline-free event ids, two windows of any tables hash the same bytes exactly when they agree on
      the policy and on their records' ids, event ids and digests, in whatever order. */
  lemma SameTextExactlyWhenSameWindow(p: string, a: seq<A.Entry>, q: string, b: seq<A.Entry>)
    requires PoliciesApart(p, q) && AllWellFormed(a) && AllWellFormed(b)
    ensures DigestText(p, a) == DigestText(q, b) <==> p == q && multiset(a) == multiset(b)
  {
    hide DigestText, ReadsAlike, WellFormed, PoliciesApart;
    var pool := iset e | WellFormed(e);
    forall e, f, x, y | e in pool && f in pool && ReadsAlike(e, x, f, y) ensures e == f {
      WellFormedReadsApart(e, x, f, y);
    }
    TextDecides(p, a, q, b, pool);
  }
}
