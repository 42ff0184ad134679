/** Which windows hash the same bytes although they differ: policies that continue one another, and
    event ids that can spell a line break. */
module PackCollisions {
  import opened Text
  import opened PackDigest
  import A = Archive

  /** What '^sha256:[0-9a-f]{64}$' accepts. */
  predicate Conforming(d: string) {
    |d| == DIGEST_LENGTH && d[..7] == "sha256:" && forall i :: 7 <= i < |d| ==> IsHex(d[i])
  }

  predicate IsHex(c: char) { '0' <= c <= '9' || 'a' <= c <= 'f' }

  // ---- texts of one and two lines ----

  lemma JoinedOne(x: string)
    ensures Sort([x]) == [x] && Joined([x]) == x + "\n"
  {
    assert [x][1..] == [];
    assert Sort([x]) == Insert(x, []);
    assert Joined([x]) == x + "\n" + "";
  }

  lemma JoinedTwo(x: string, y: string)
    requires x != "" && y != "" && x[0] < y[0]
    ensures Sort([x, y]) == [x, y] && Joined([x, y]) == x + "\n" + y + "\n"
  {
    assert [x, y][1..] == [y];
    JoinedOne(y);
    assert Joined([x, y]) == x + "\n" + (y + "\n");
  }

  lemma LinesOfTwo(a: A.Entry, b: A.Entry)
    ensures Lines([a]) == [Line(a)] && Lines([a, b]) == [Line(a), Line(b)]
  {
    assert [a][..0] == [] && [a, b][..1] == [a];
  }

  // ---- two policies ----

  /** Windows as the archive hashes them: some records, digests as the table's CHECK wants them. */
  predicate Hashable(es: seq<A.Entry>) { es != [] && forall i :: 0 <= i < |es| ==> Conforming(es[i].digest) }

  predicate Collide(p: string, a: seq<A.Entry>, q: string, b: seq<A.Entry>) {
    OneTable(a + b) && Hashable(a) && Hashable(b) && DigestText(p, a) == DigestText(q, b)
  }

  lemma ContinuationCollides(p: string, q: string)
    requires Continues(p, q)
    ensures exists a, b :: Collide(p, a, q, b)
  {
    hide Decimal, Line, DigestText;
    var d := "sha256:" + seq(64, i => '0');
    var n: nat, w: string :| p[|q| + 1..] == NumberThen(n, w);
    var k := n + 1;
    var e, f := A.Entry(k, "y", d), A.Entry(n, w + "\n" + Decimal(k) + ":y", d);
    assert p == q + "\n" + NumberThen(n, w);
    OneLineReadsAsTwo(p, q, n, w, k, d);
    assert Hashable([e]) && Hashable([f]);
    assert Collide(p, [e], q, [f]);
  }

  lemma OneLineReadsAsTwo(p: string, q: string, n: nat, w: string, k: nat, d: string)
    requires p == q + "\n" + NumberThen(n, w)
    ensures DigestText(p, [A.Entry(k, "y", d)]) == DigestText(q, [A.Entry(n, w + "\n" + Decimal(k) + ":y", d)])
  {
    hide Decimal, DigestText;
    var e, f := A.Entry(k, "y", d), A.Entry(n, w + "\n" + Decimal(k) + ":y", d);
    assert NumberThen(n, w) + "\n" + Line(e) == Line(f);
    OneLineText(p, e);
    OneLineText(q, f);
  }

  lemma OneLineText(p: string, e: A.Entry)
    ensures DigestText(p, [e]) == "policy:" + p + "\n" + Line(e) + "\n"
  {
    LinesOfTwo(e, e);
    JoinedOne(Line(e));
  }

  /** Two different policies share bytes over some table exactly when one continues the other. */
  lemma PoliciesCollideExactlyWhen(p: string, q: string)
    requires p != q
    ensures (exists a, b :: Collide(p, a, q, b)) <==> Continues(p, q) || Continues(q, p)
  {
    hide Continues, DigestText, Hashable, OneTable;
    if a, b :| Collide(p, a, q, b) && PoliciesApart(p, q) { PolicyDecides(p, a, q, b); }
    if Continues(p, q) { ContinuationCollides(p, q); }
    if Continues(q, p) {
      ContinuationCollides(q, p);
      var b, a :| Collide(q, b, p, a);
      OneTableTurns(a, b);
      assert Collide(p, a, q, b);
    }
  }

  lemma OneTableTurns(a: seq<A.Entry>, b: seq<A.Entry>)
    requires OneTable(b + a)
    ensures OneTable(a + b)
  {
    var s, t := a + b, b + a;
    forall i | 0 <= i < |s| ensures s[i] in t { assert s[i] == if i < |a| then t[|b| + i] else t[i - |a|]; }
  }

  // ---- two tables ----

  /** Two tables: with a newline in its event id, the line of one's record 1 reads as the lines of the
      other's records 1 and 2. */
  lemma NewlineCollides(policy: string, d: string, e: string, f: string)
    requires |d| == DIGEST_LENGTH
    ensures var one, two := [A.Entry(1, e + ":" + d + "\n2:" + f, d)], [A.Entry(1, e, d), A.Entry(2, f, d)];
            multiset(one) != multiset(two) && DigestText(policy, one) == DigestText(policy, two)
  {
    hide Sort, Joined, Lines;
    var a, b, c := A.Entry(1, e + ":" + d + "\n2:" + f, d), A.Entry(1, e, d), A.Entry(2, f, d);
    var one, two := [a], [b, c];
    assert |multiset(one)| == 1 && |multiset(two)| == 2;
    assert Decimal(1) == "1" && Decimal(2) == "2";
    assert Line(a) == Line(b) + "\n" + Line(c);
    LinesOfTwo(a, a);
    LinesOfTwo(b, c);
    JoinedOne(Line(a));
    JoinedTwo(Line(b), Line(c));
  }

  // ---- which characters event ids may hold ----

  predicate Over(s: string, alphabet: iset<char>) { forall i :: 0 <= i < |s| ==> s[i] in alphabet }

  predicate EntryOver(e: A.Entry, alphabet: iset<char>) { Conforming(e.digest) && Over(e.eventId, alphabet) }

  predicate AllOver(es: seq<A.Entry>, alphabet: iset<char>) { forall i :: 0 <= i < |es| ==> EntryOver(es[i], alphabet) }

  /** The end of one line and the number of the next, written with as few characters as possible. */
  const LINE_BREAK: iset<char> := iset{'s', 'h', 'a', '2', '5', '6', ':', '\n'}

  /** Any two different windows, of whatever tables, hash different bytes. */
  ghost predicate TellsApart(alphabet: iset<char>) {
    forall p, a, q, b :: (PoliciesApart(p, q) && AllOver(a, alphabet) && AllOver(b, alphabet)
      && DigestText(p, a) == DigestText(q, b)) ==> p == q && multiset(a) == multiset(b)
  }

  /** Inside a digest's part of a line no colon is followed by the label of another digest. */
  lemma NoLabelInside(d: string, x: string, k: nat)
    requires Conforming(d) && 1 <= k <= DIGEST_LENGTH + 1
    ensures var s := ":" + d + "\n" + x; !(s[k] == ':' && s[k + 1..] != "" && s[k + 1] == 's')
  {
    var s := ":" + d + "\n" + x;
    assert d[..7] == "sha256:";
    if 8 <= k <= DIGEST_LENGTH {
      assert s[k] == d[k - 1] && IsHex(d[k - 1]);
    } else if k < 7 {
      assert s[k] == d[k - 1] == d[..7][k - 1] == "sha256:"[k - 1];
    } else if k == 7 {
      assert s[8] == d[7] && IsHex(d[7]);
    }
  }

  /** When a longer event id goes on where a shorter one ends, it holds a whole line break. */
  lemma LongerHoldsALineBreak(e: string, d: string, x: string, f: string, g: string, y: string, alphabet: iset<char>)
    requires Conforming(d) && Conforming(g) && Over(f, alphabet) && |e| < |f|
    requires e + ":" + d + "\n" + x == f + ":" + g + "\n" + y
    ensures LINE_BREAK <= alphabet
  {
    var s, n, k := ":" + d + "\n" + x, |e|, |f| - |e|;
    var t := f + ":" + g + "\n" + y;
    assert s == (e + ":" + d + "\n" + x)[n..] == t[n..];
    assert s[k] == t[|f|] == ':';
    assert s[k + 1] == t[|f| + 1] == g[0] == g[..7][0] == 's';
    if k <= DIGEST_LENGTH + 1 { NoLabelInside(d, x, k); }
    forall i | 0 <= i < k ensures s[i] in alphabet { assert s[i] == t[n + i] == f[n + i]; }
    forall i | 0 <= i < 7 ensures s[i + 1] == "sha256:"[i] { assert s[i + 1] == d[i] == d[..7][i]; }
    assert s[0] == ':' && s[1] == 's' && s[2] == 'h' && s[3] == 'a' && s[4] == '2' && s[5] == '5' && s[6] == '6';
    assert s[DIGEST_LENGTH + 1] == '\n';
  }

  lemma AlphabetReadsApart(e: A.Entry, x: string, f: A.Entry, y: string, alphabet: iset<char>)
    requires EntryOver(e, alphabet) && EntryOver(f, alphabet) && ReadsAlike(e, x, f, y) && !(LINE_BREAK <= alphabet)
    ensures e == f
  {
    hide Over, LINE_BREAK;
    SameRecordId(e, x, f, y);
    if |e.eventId| < |f.eventId| {
      LongerHoldsALineBreak(e.eventId, e.digest, x, f.eventId, f.digest, y, alphabet);
    } else if |f.eventId| < |e.eventId| {
      LongerHoldsALineBreak(f.eventId, f.digest, y, e.eventId, e.digest, x, alphabet);
    } else {
      var s, t, n := e.eventId + ":" + e.digest + "\n" + x, f.eventId + ":" + f.digest + "\n" + y, |e.eventId|;
      assert e.eventId == s[..n] == t[..n] == f.eventId;
      assert e.digest == s[n + 1..n + 1 + DIGEST_LENGTH] == t[n + 1..n + 1 + DIGEST_LENGTH] == f.digest;
    }
  }

  lemma WithoutLineBreakTellsApart(alphabet: iset<char>)
    requires !(LINE_BREAK <= alphabet)
    ensures TellsApart(alphabet)
  {
    hide DigestText, ReadsAlike, EntryOver, PoliciesApart, LINE_BREAK;
    var pool := iset e | EntryOver(e, alphabet);
    forall e, f, x, y | e in pool && f in pool && ReadsAlike(e, x, f, y) ensures e == f {
      AlphabetReadsApart(e, x, f, y, alphabet);
    }
    forall p, a, q, b | PoliciesApart(p, q) && AllOver(a, alphabet) && AllOver(b, alphabet)
      && DigestText(p, a) == DigestText(q, b) ensures p == q && multiset(a) == multiset(b) {
      TextDecides(p, a, q, b, pool);
    }
  }

  lemma LineBreakCollides(alphabet: iset<char>)
    requires LINE_BREAK <= alphabet
    ensures !TellsApart(alphabet)
  {
    hide DigestText;
    var d := "sha256:" + seq(64, i => '2');
    var one, two := [A.Entry(1, "a" + ":" + d + "\n2:" + "2", d)], [A.Entry(1, "a", d), A.Entry(2, "2", d)];
    NewlineCollides("", d, "a", "2");
    assert PoliciesApart("", "") by { NewlineFreePoliciesAreApart("", ""); }
    assert AllOver(one, alphabet) && AllOver(two, alphabet);
  }

  /** Digest tells all windows of all tables apart exactly when event ids cannot spell a line break: one
      of the eight characters of "sha256:" and the newline is kept out of them. */
  lemma TellsApartExactlyWhen(alphabet: iset<char>)
    ensures TellsApart(alphabet) <==> !(LINE_BREAK <= alphabet)
  {
    hide TellsApart, LINE_BREAK;
    if LINE_BREAK <= alphabet { LineBreakCollides(alphabet); } else { WithoutLineBreakTellsApart(alphabet); }
  }
}
