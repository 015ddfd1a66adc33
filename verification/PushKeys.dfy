/** The string keys of the push registry: the canonical key a subscription is coalesced on, and
    the normalised keys its updates are routed on. Strings are sequences of characters; case
    folding and space trimming cover ASCII. */
module PushKeys {

  type TopicId = int

  type DataType = x: int | -0x8000_0000 <= x < 0x8000_0000

  datatype Security = Security(code: string, dataType: DataType)

  const NUL: char := '\0'
  const SOH: char := '\U{01}'

  // ---- decimal rendering ----

  function Digit(d: nat): char
    requires d < 10
  {
    "0123456789"[d]
  }

  function Digits(n: nat): (s: string)
    ensures s != []
    ensures forall c :: c in s ==> '0' <= c <= '9'
  {
    if n < 10 then [Digit(n)] else Digits(n / 10) + [Digit(n % 10)]
  }

  function Decimal(n: int): (s: string)
    ensures s != [] && NUL !in s && SOH !in s
  {
    if n < 0 then "-" + Digits(-n) else Digits(n)
  }

  lemma {:induction false} DigitsInjective(m: nat, n: nat)
    requires Digits(m) == Digits(n)
    ensures m == n
  {
    var s := Digits(m);
    assert s[|s| - 1] == Digit(m % 10) && s[|s| - 1] == Digit(n % 10);
    assert (m < 10 <==> |Digits(m)| == 1) && (n < 10 <==> |Digits(n)| == 1);
    if m >= 10 {
      assert s[..|s| - 1] == Digits(m / 10) && s[..|s| - 1] == Digits(n / 10);
      DigitsInjective(m / 10, n / 10);
    }
  }

  lemma DecimalInjective(m: int, n: int)
    requires Decimal(m) == Decimal(n)
    ensures m == n
  {
    hide Digits;
    var s := Decimal(m);
    assert s[0] in s;
    assert (m < 0 <==> s[0] == '-') && (n < 0 <==> s[0] == '-');
    if m < 0 {
      assert s[1..] == Digits(-m) && s[1..] == Digits(-n);
      DigitsInjective(-m, -n);
    } else {
      DigitsInjective(m, n);
    }
  }

  // ---- splitting at a separator ----

  /** A string is cut at its first separator in one way only. */
  lemma SplitAtFirst(a: string, b: string, a': string, b': string, c: char)
    requires c !in a && c !in a' && a + [c] + b == a' + [c] + b'
    ensures a == a' && b == b'
  {
    var s := a + [c] + b;
    assert s[|a|] == c && s[|a'|] == c;
    assert forall i :: 0 <= i < |a| ==> s[i] == a[i] && s[i] != c;
    assert forall i :: 0 <= i < |a'| ==> s[i] == a'[i] && s[i] != c;
    assert a == s[..|a|] && a' == s[..|a'|];
    assert b == s[|a| + 1..] && b' == s[|a'| + 1..];
  }

  /** A string is cut at its last separator in one way only. */
  lemma SplitAtLast(a: string, b: string, a': string, b': string, c: char)
    requires c !in b && c !in b' && a + [c] + b == a' + [c] + b'
    ensures a == a' && b == b'
  {
    var s := a + [c] + b;
    assert s[|a|] == c && s[|a'|] == c;
    assert forall i :: |a| < i < |s| ==> s[i] == b[i - |a| - 1] && s[i] != c;
    assert forall i :: |a'| < i < |s| ==> s[i] == b'[i - |a'| - 1] && s[i] != c;
    assert a == s[..|a|] && a' == s[..|a'|];
    assert b == s[|a| + 1..] && b' == s[|a'| + 1..];
  }

  // ---- sorting ----

  /** Byte order on strings. */
  predicate Leq(a: string, b: string) {
    a == [] || (b != [] && (a[0] < b[0] || (a[0] == b[0] && Leq(a[1..], b[1..]))))
  }

  lemma {:induction false} LeqTotal(a: string, b: string)
    ensures Leq(a, b) || Leq(b, a)
    ensures Leq(a, b) && Leq(b, a) ==> a == b
  {
    if a != [] && b != [] {
      LeqTotal(a[1..], b[1..]);
      if a[0] == b[0] {
        assert a == [a[0]] + a[1..] && b == [b[0]] + b[1..];
      }
    }
  }

  lemma {:induction false} LeqTransitive(a: string, b: string, c: string)
    requires Leq(a, b) && Leq(b, c)
    ensures Leq(a, c)
  {
    if a != [] && a[0] == b[0] && b[0] == c[0] {
      LeqTransitive(a[1..], b[1..], c[1..]);
    }
  }

  predicate Sorted(s: seq<string>) {
    forall i :: 0 <= i < |s| - 1 ==> Leq(s[i], s[i + 1])
  }

  function Insert(x: string, s: seq<string>): (r: seq<string>)
    ensures multiset(r) == multiset{x} + multiset(s)
  {
    if s == [] || Leq(x, s[0]) then [x] + s
    else
      assert s == [s[0]] + s[1..];
      [s[0]] + Insert(x, s[1..])
  }

  /** What sort.Strings leaves. */
  function Sort(s: seq<string>): (r: seq<string>)
    ensures multiset(r) == multiset(s)
  {
    if s == [] then []
    else
      assert s == [s[0]] + s[1..];
      Insert(s[0], Sort(s[1..]))
  }

  lemma {:induction false} InsertSorted(x: string, s: seq<string>)
    requires Sorted(s)
    ensures Sorted(Insert(x, s))
    ensures Insert(x, s)[0] == x || (s != [] && Insert(x, s)[0] == s[0])
  {
    if s != [] && !Leq(x, s[0]) {
      InsertSorted(x, s[1..]);
      LeqTotal(x, s[0]);
    }
  }

  lemma {:induction false} SortSorted(s: seq<string>)
    ensures Sorted(Sort(s))
  {
    if s != [] {
      SortSorted(s[1..]);
      InsertSorted(s[0], Sort(s[1..]));
    }
  }

  lemma {:induction false} HeadIsLeast(s: seq<string>, x: string)
    requires Sorted(s) && x in s
    ensures Leq(s[0], x)
  {
    LeqTotal(s[0], s[0]);
    if x != s[0] {
      assert x in s[1..];
      HeadIsLeast(s[1..], x);
      LeqTransitive(s[0], s[1], x);
    }
  }

  lemma SameHead(s: seq<string>, t: seq<string>)
    requires s != [] && t != [] && Sorted(s) && Sorted(t) && multiset(s) == multiset(t)
    ensures s[0] == t[0]
  {
    assert s[0] in multiset(s) && t[0] in multiset(t);
    HeadIsLeast(t, s[0]);
    HeadIsLeast(s, t[0]);
    LeqTotal(s[0], t[0]);
  }

  lemma TailMultiset(s: seq<string>)
    requires s != []
    ensures s == [s[0]] + s[1..]
    ensures multiset(s[1..]) == multiset(s) - multiset{s[0]}
  {
    assert s == [s[0]] + s[1..];
  }

  /** There is one sorted arrangement of a multiset of strings. */
  lemma {:induction false} SortedUnique(s: seq<string>, t: seq<string>)
    requires Sorted(s) && Sorted(t) && multiset(s) == multiset(t)
    ensures s == t
  {
    hide Leq;
    assert |s| == |multiset(s)| && |t| == |multiset(t)|;
    if s != [] {
      SameHead(s, t);
      TailMultiset(s);
      TailMultiset(t);
      SortedUnique(s[1..], t[1..]);
    }
  }

  // ---- the canonical key ----

  function Part(s: Security): string {
    s.code + [NUL] + Decimal(s.dataType)
  }

  function Parts(securities: seq<Security>): (r: seq<string>)
    ensures |r| == |securities|
    ensures forall i :: 0 <= i < |r| ==> r[i] == Part(securities[i])
  {
    if securities == [] then [] else [Part(securities[0])] + Parts(securities[1..])
  }

  function Join(parts: seq<string>): string {
    if parts == [] then []
    else if |parts| == 1 then parts[0]
    else parts[0] + [SOH] + Join(parts[1..])
  }

  function CanonicalKey(topic: TopicId, securities: seq<Security>): string {
    Decimal(topic) + [NUL] + Join(Sort(Parts(securities)))
  }

  /** `p`, the separator, and more: what a code looks like that can pass for several instruments. */
  function Spelled(p: Security, rest: string): string {
    Part(p) + [SOH] + rest
  }

  /** `rest`, completed to an instrument and perhaps followed by more, may stand after `p` in a
      sorted list. */
  predicate MayFollow(p: Security, rest: string, d: DataType, tail: string) {
    (tail == [] || tail[0] == SOH) && Leq(Part(p), Part(Security(rest, d)) + tail)
  }

  /** The code can pass for an instrument whose own code does not split, and the start of others
      that may come after it in a sorted list. */
  ghost predicate Splits(code: string)
    decreases |code|
  {
    exists p: Security, rest: string, d: DataType, tail: string ::
      && p.code != "" && code == Spelled(p, rest) && MayFollow(p, rest, d, tail)
      && |p.code| < |code| && !Splits(p.code)
  }

  /** The instrument can pass for two, in sorted order. */
  ghost predicate Forks(s: Security) {
    exists p: Security, rest: string ::
      p.code != "" && rest != "" && s.code == Spelled(p, rest) && MayFollow(p, rest, s.dataType, [])
  }

  /** Every instrument has a code, and no code splits. */
  ghost predicate Clean(securities: seq<Security>) {
    forall s :: s in securities ==> s.code != "" && !Splits(s.code)
  }

  /** Codes free of either separator do not split. */
  lemma PlainCodesDoNotSplit(code: string)
    requires NUL !in code || SOH !in code
    ensures !Splits(code)
  {
    forall p: Security, rest: string ensures NUL in Spelled(p, rest) && SOH in Spelled(p, rest) {
      assert Spelled(p, rest)[|p.code|] == NUL && Spelled(p, rest)[|Part(p)|] == SOH;
    }
  }

  lemma PartInjective(s: Security, t: Security)
    requires Part(s) == Part(t)
    ensures s == t
  {
    SplitAtLast(s.code, Decimal(s.dataType), t.code, Decimal(t.dataType), NUL);
    DecimalInjective(s.dataType, t.dataType);
  }

  // ---- order and prefixes ----

  lemma Overlap(a: string, b: string, c: string, d: string)
    requires a + b == c + d && |a| <= |c|
    ensures c == a + c[|a|..] && b == c[|a|..] + d
  {
    var s := a + b;
    assert c == s[..|c|] && a == s[..|a|] && a == c[..|a|];
    assert b == s[|a|..] && s == a + (c[|a|..] + d);
  }

  lemma {:induction false} LeqBefore(u: string, s: string, t: string)
    requires Leq(s, t)
    ensures Leq(u + s, u + t)
  {
    if u == [] {
      assert u + s == s && u + t == t;
    } else {
      LeqBefore(u[1..], s, t);
      assert (u + s)[1..] == u[1..] + s && (u + t)[1..] == u[1..] + t;
    }
  }

  lemma LeqExtends(v: string, s: string, t: string)
    requires Leq(v, s)
    ensures Leq(v, s + t)
  {
    LeqBefore(s, [], t);
    assert s + [] == s;
    LeqTransitive(v, s, s + t);
  }

  // ---- a join of parts can be undone ----

  /** What follows the first of some parts in their join. */
  function AfterFirst(parts: seq<string>): string
    requires parts != []
  {
    if |parts| == 1 then [] else [SOH] + Join(parts[1..])
  }

  lemma JoinFirst(parts: seq<string>)
    requires parts != []
    ensures Join(parts) == parts[0] + AfterFirst(parts)
  {
  }

  /** When one list's first part is a proper beginning of another's, the longer one's code spells
      the shorter one and something that may follow it. */
  lemma LongerFirst(x: Security, more: seq<string>, y: Security, tail: string)
    returns (rest: string, tail': string)
    requires more != [] && Leq(Part(x), more[0]) && |Part(x)| < |Part(y)|
    requires Part(x) + [SOH] + Join(more) == Part(y) + tail
    requires tail == [] || tail[0] == SOH
    ensures y.code == Spelled(x, rest) && MayFollow(x, rest, y.dataType, tail') && (tail == [] ==> tail' == [])
    ensures Join(more) == rest + ([NUL] + Decimal(y.dataType)) + tail
  {
    var dec := [NUL] + Decimal(y.dataType);
    Overlap(Part(x), [SOH] + Join(more), Part(y), tail);
    assert Part(x) + ([SOH] + Join(more)) == Part(x) + [SOH] + Join(more);
    assert Part(y)[|Part(x)|] == (Part(y)[|Part(x)|..] + tail)[0] == SOH;
    rest := CodeSplitsAt(Part(x), y);
    assert [SOH] + Join(more) == ([SOH] + rest + dec) + tail;
    assert Join(more) == ([SOH] + Join(more))[1..] == rest + dec + tail;
    tail' := FollowsInOrder(x, more, rest, y.dataType, tail);
  }

  lemma CodeSplitsAt(start: string, y: Security) returns (rest: string)
    requires |start| < |Part(y)| && Part(y)[..|start|] == start && Part(y)[|start|] == SOH
    ensures y.code == start + [SOH] + rest
    ensures Part(y)[|start|..] == [SOH] + rest + ([NUL] + Decimal(y.dataType))
  {
    var i, dec := |start|, [NUL] + Decimal(y.dataType);
    assert forall k :: |y.code| <= k < |Part(y)| ==> Part(y)[k] == dec[k - |y.code|];
    assert i < |y.code|;
    rest := y.code[i + 1..];
    assert y.code[..i] == start && y.code[i] == SOH;
  }

  lemma FollowsInOrder(x: Security, more: seq<string>, rest: string, d: DataType, tail: string)
    returns (tail': string)
    requires more != [] && Leq(Part(x), more[0]) && (tail == [] || tail[0] == SOH)
    requires Join(more) == rest + ([NUL] + Decimal(d)) + tail
    ensures MayFollow(x, rest, d, tail') && (tail == [] ==> tail' == [])
  {
    hide Decimal, Leq, Join, Part;
    var w, next := Part(Security(rest, d)), more[0];
    JoinFirst(more);
    PartOf(rest, d);
    if |next| <= |w| {
      Overlap(next, AfterFirst(more), w, tail);
      LeqExtends(Part(x), next, w[|next|..]);
      tail' := [];
      assert w + [] == w;
    } else {
      Overlap(w, tail, next, AfterFirst(more));
      tail' := next[|w|..];
      assert tail'[0] == tail[0];
    }
  }

  lemma PartOf(code: string, d: DataType)
    ensures Part(Security(code, d)) == code + [NUL] + Decimal(d) == code + ([NUL] + Decimal(d))
  {
  }

  /** The parts of clean instruments. */
  ghost predicate CleanPart(x: string) {
    exists s: Security :: x == Part(s) && s.code != "" && !Splits(s.code)
  }

  ghost predicate AllClean(p: seq<string>) {
    forall x :: x in p ==> CleanPart(x)
  }

  lemma FirstsAgree(p: seq<string>, q: seq<string>)
    requires p != [] && q != [] && Sorted(p) && CleanPart(p[0]) && CleanPart(q[0])
    requires Join(p) == Join(q)
    ensures |p[0]| >= |q[0]|
  {
    JoinFirst(p);
    JoinFirst(q);
    if |p[0]| < |q[0]| {
      var x :| p[0] == Part(x) && x.code != "" && !Splits(x.code);
      var y :| q[0] == Part(y) && y.code != "" && !Splits(y.code);
      assert |Join(p)| >= |q[0]| > |p[0]|;
      assert p[0] + [SOH] + Join(p[1..]) == p[0] + AfterFirst(p);
      var rest, tail := LongerFirst(x, p[1..], y, AfterFirst(q));
      assert false;
    }
  }

  /** Joining sorted parts of clean instruments loses nothing. */
  lemma {:induction false} JoinInjective(p: seq<string>, q: seq<string>)
    requires AllClean(p) && AllClean(q) && Sorted(p) && Sorted(q) && Join(p) == Join(q)
    ensures p == q
  {
    hide Leq, CleanPart, Part, Join;
    if p == [] || q == [] {
      OneEmpty(p, q);
    } else {
      SameFirst(p, q);
      TailsAgree(p, q);
      if |p| > 1 {
        SortedTail(p);
        SortedTail(q);
        JoinInjective(p[1..], q[1..]);
      }
      assert p == [p[0]] + p[1..] && q == [q[0]] + q[1..];
    }
  }

  lemma OneEmpty(p: seq<string>, q: seq<string>)
    requires AllClean(p) && AllClean(q) && (p == [] || q == []) && Join(p) == Join(q)
    ensures p == q
  {
    if p != [] {
      assert p[0] in p;
      JoinFirst(p);
    }
    if q != [] {
      assert q[0] in q;
      JoinFirst(q);
    }
  }

  lemma SameFirst(p: seq<string>, q: seq<string>)
    requires p != [] && q != [] && AllClean(p) && AllClean(q) && Sorted(p) && Sorted(q) && Join(p) == Join(q)
    ensures p[0] == q[0] && AfterFirst(p) == AfterFirst(q)
  {
    hide Leq, CleanPart, Join;
    assert p[0] in p && q[0] in q;
    FirstsAgree(p, q);
    FirstsAgree(q, p);
    JoinFirst(p);
    JoinFirst(q);
    Overlap(p[0], AfterFirst(p), q[0], AfterFirst(q));
  }

  lemma SortedTail(p: seq<string>)
    requires p != [] && Sorted(p) && AllClean(p)
    ensures Sorted(p[1..]) && AllClean(p[1..])
  {
    hide Leq, CleanPart;
    assert forall x :: x in p[1..] ==> x in p;
  }

  lemma TailsAgree(p: seq<string>, q: seq<string>)
    requires p != [] && q != [] && AfterFirst(p) == AfterFirst(q)
    ensures |p| == 1 <==> |q| == 1
    ensures |p| > 1 ==> Join(p[1..]) == Join(q[1..])
  {
    if |p| > 1 && |q| > 1 {
      assert Join(p[1..]) == AfterFirst(p)[1..] && Join(q[1..]) == AfterFirst(q)[1..];
    }
  }

  /** Counting a security and counting its part agree, because parts are injective. */
  lemma {:induction false} PartsCount(securities: seq<Security>, s: Security)
    ensures multiset(Parts(securities))[Part(s)] == multiset(securities)[s]
  {
    hide Part;
    if securities != [] {
      var head, tail := securities[0], securities[1..];
      PartsCount(tail, s);
      assert securities == [head] + tail;
      assert multiset(securities) == multiset{head} + multiset(tail);
      assert multiset(Parts(securities)) == multiset{Part(head)} + multiset(Parts(tail));
      if Part(head) == Part(s) {
        PartInjective(head, s);
      }
    }
  }

  lemma PartsMember(a: seq<Security>, b: seq<Security>, x: string)
    requires multiset(a) == multiset(b) && x in Parts(a)
    ensures x in Parts(b)
  {
    var i :| 0 <= i < |Parts(a)| && Parts(a)[i] == x;
    assert a[i] in multiset(b);
    var j :| 0 <= j < |b| && b[j] == a[i];
    assert Parts(b)[j] == x;
  }

  lemma PartsOfMultiset(a: seq<Security>, b: seq<Security>, x: string)
    requires multiset(a) == multiset(b)
    ensures multiset(Parts(a))[x] == multiset(Parts(b))[x]
  {
    if x in Parts(a) {
      var i :| 0 <= i < |Parts(a)| && Parts(a)[i] == x;
      PartsCount(a, a[i]);
      PartsCount(b, a[i]);
    } else if x in Parts(b) {
      PartsMember(b, a, x);
    }
  }

  lemma KeyDeterminesParts(topic: TopicId, a: seq<Security>, topic': TopicId, b: seq<Security>)
    requires Clean(a) && Clean(b) && CanonicalKey(topic, a) == CanonicalKey(topic', b)
    ensures topic == topic' && Sort(Parts(a)) == Sort(Parts(b))
  {
    var p, q := Sort(Parts(a)), Sort(Parts(b));
    SplitAtFirst(Decimal(topic), Join(p), Decimal(topic'), Join(q), NUL);
    DecimalInjective(topic, topic');
    forall x | x in p || x in q ensures CleanPart(x) {
      SortedPartsClean(if x in p then a else b, x);
    }
    SortSorted(Parts(a));
    SortSorted(Parts(b));
    hide Leq, CleanPart;
    JoinInjective(p, q);
  }

  lemma KeyDeterminesContents(topic: TopicId, a: seq<Security>, topic': TopicId, b: seq<Security>)
    requires Clean(a) && Clean(b) && CanonicalKey(topic, a) == CanonicalKey(topic', b)
    ensures topic == topic' && multiset(a) == multiset(b)
  {
    KeyDeterminesParts(topic, a, topic', b);
    assert multiset(Parts(a)) == multiset(Parts(b));
    forall s ensures multiset(a)[s] == multiset(b)[s] {
      PartsCount(a, s);
      PartsCount(b, s);
    }
  }

  lemma SortedPartsClean(a: seq<Security>, x: string)
    requires Clean(a) && x in Sort(Parts(a))
    ensures CleanPart(x)
  {
    assert x in multiset(Sort(Parts(a)));
    var i :| 0 <= i < |Parts(a)| && Parts(a)[i] == x;
    assert a[i] in a;
  }

  lemma ContentsDetermineKey(topic: TopicId, a: seq<Security>, b: seq<Security>)
    requires multiset(a) == multiset(b)
    ensures CanonicalKey(topic, a) == CanonicalKey(topic, b)
  {
    forall x ensures multiset(Parts(a))[x] == multiset(Parts(b))[x] {
      PartsOfMultiset(a, b, x);
    }
    assert multiset(Parts(a)) == multiset(Parts(b));
    SortSorted(Parts(a));
    SortSorted(Parts(b));
    SortedUnique(Sort(Parts(a)), Sort(Parts(b)));
  }

  /** Two subscriptions whose codes do not split share a canonical key exactly when they name the
      same topic and the same instruments, each as often, in any order. That no code splits is
      enough for it; when a given list is ambiguous is CollidesIff below. */
  lemma KeysEqualIff(topic: TopicId, a: seq<Security>, topic': TopicId, b: seq<Security>)
    requires Clean(a) && Clean(b)
    ensures CanonicalKey(topic, a) == CanonicalKey(topic', b) <==> topic == topic' && multiset(a) == multiset(b)
  {
    if CanonicalKey(topic, a) == CanonicalKey(topic', b) {
      KeyDeterminesContents(topic, a, topic', b);
    }
    if topic == topic' && multiset(a) == multiset(b) {
      ContentsDetermineKey(topic, a, b);
    }
  }

  // ---- which lists share a key with a list of other contents ----

  /** Two lists of instruments with codes that differ in content and share every key. */
  ghost predicate Collide(a: seq<Security>, b: seq<Security>) {
    && (forall s :: s in a || s in b ==> s.code != "")
    && multiset(a) != multiset(b)
    && (forall topic :: CanonicalKey(topic, a) == CanonicalKey(topic, b))
  }

  function Joined(a: seq<Security>): string {
    Join(Sort(Parts(a)))
  }

  /** Sharing one key is sharing them all. */
  lemma KeysShared(topic: TopicId, a: seq<Security>, b: seq<Security>)
    ensures CanonicalKey(topic, a) == CanonicalKey(topic, b) <==> Joined(a) == Joined(b)
    ensures Joined(a) == Joined(b) ==> forall topic' :: CanonicalKey(topic', a) == CanonicalKey(topic', b)
  {
    hide Decimal, Join, Sort, Parts;
    if CanonicalKey(topic, a) == CanonicalKey(topic, b) {
      SplitAtFirst(Decimal(topic), Joined(a), Decimal(topic), Joined(b), NUL);
    }
  }

  lemma JoinedOne(r: Security)
    ensures Joined([r]) == Part(r)
  {
    hide Part, Leq;
    assert Parts([r]) == [Part(r)];
    assert Sort([Part(r)]) == [Part(r)];
  }

  lemma JoinedTwo(p: Security, q: Security)
    requires Leq(Part(p), Part(q))
    ensures Joined([p, q]) == Part(p) + [SOH] + Part(q)
  {
    hide Part, Leq;
    assert Parts([p, q]) == [Part(p), Part(q)];
    assert Sort([Part(q)]) == [Part(q)];
    assert [Part(p), Part(q)][1..] == [Part(q)];
    assert Sort([Part(p), Part(q)]) == [Part(p), Part(q)];
    assert Join([Part(q)]) == Part(q);
  }

  lemma CollideIf(a: seq<Security>, b: seq<Security>)
    requires (forall s :: s in a || s in b ==> s.code != "") && |a| != |b| && Joined(a) == Joined(b)
    ensures Collide(a, b)
  {
    hide CanonicalKey, Joined;
    KeysShared(0, a, b);
    assert |multiset(a)| == |a| && |multiset(b)| == |b|;
  }

  /** An instrument that forks collides with the two it can pass for. */
  lemma ForkCollides(p: Security, rest: string, d: DataType)
    requires p.code != "" && rest != "" && MayFollow(p, rest, d, [])
    ensures Collide([Security(Spelled(p, rest), d)], [p, Security(rest, d)])
  {
    var r, q := Security(Spelled(p, rest), d), Security(rest, d);
    assert Part(q) + [] == Part(q);
    assert r.code != "" && Part(r) == Part(p) + [SOH] + Part(q);
    hide Joined, Part, Spelled, Leq;
    JoinedOne(r);
    JoinedTwo(p, q);
    CollideIf([r], [p, q]);
  }

  lemma {:induction false} JoinLast(parts: seq<string>)
    requires |parts| >= 2
    ensures Join(parts) == Join(parts[..|parts| - 1]) + [SOH] + parts[|parts| - 1]
  {
    var n := |parts|;
    var init := parts[..n - 1];
    if n > 2 {
      JoinLast(parts[1..]);
      assert parts[1..][..n - 2] == init[1..];
      assert Join(init) == parts[0] + [SOH] + Join(init[1..]);
    }
  }

  /** The one instrument a list of several can pass for: its code spells out all but the last data
      type. */
  lemma Merge(a: seq<Security>) returns (m: Security)
    requires |a| >= 2
    ensures m.code != "" && Part(m) == Joined(a)
  {
    hide Part, Leq, Decimal;
    var parts := Sort(Parts(a));
    var n := |parts|;
    assert |multiset(parts)| == |parts| == |a|;
    assert parts[n - 1] in multiset(parts);
    var i :| 0 <= i < |a| && Parts(a)[i] == parts[n - 1];
    JoinLast(parts);
    var before := Join(parts[..n - 1]) + [SOH];
    m := Security(before + a[i].code, a[i].dataType);
    PartAfter(before, a[i]);
  }

  lemma PartAfter(before: string, s: Security)
    ensures Part(Security(before + s.code, s.dataType)) == before + Part(s)
  {
  }

  lemma ManyCollide(a: seq<Security>, m: Security)
    requires |a| >= 2 && (forall s :: s in a ==> s.code != "") && m.code != "" && Part(m) == Joined(a)
    ensures Collide(a, [m])
  {
    hide Joined, Part;
    JoinedOne(m);
    CollideIf(a, [m]);
  }

  /** An instrument that shares its key with other contents forks. */
  lemma SoleCollisionForks(s: Security, b: seq<Security>)
    requires Collide([s], b)
    ensures Forks(s)
  {
    hide Leq, Decimal, CanonicalKey;
    var q := Sort(Parts(b));
    KeysShared(0, [s], b);
    JoinedOne(s);
    SortSorted(Parts(b));
    assert |multiset(q)| == |q| == |b|;
    SeveralParts(s, b, q);
    var x := PartIn(b, q[0]);
    var x' := PartIn(b, q[1]);
    assert Part(x) + [SOH] + Join(q[1..]) == Part(s) + [];
    var rest, tail := LongerFirst(x, q[1..], s, []);
    RestIsThere(x', q[1..], rest, s.dataType);
  }

  /** A part of a sorted list is the part of one of its instruments. */
  lemma PartIn(b: seq<Security>, part: string) returns (x: Security)
    requires part in Sort(Parts(b))
    ensures x in b && part == Part(x)
  {
    assert part in multiset(Sort(Parts(b)));
    var i :| 0 <= i < |b| && Parts(b)[i] == part;
    x := b[i];
  }

  lemma SeveralParts(s: Security, b: seq<Security>, q: seq<string>)
    requires Collide([s], b) && q == Sort(Parts(b)) && |q| == |b| && Join(q) == Part(s)
    ensures |q| >= 2 && q[0] in q && q[1] in q
  {
    if |b| == 1 {
      var x := PartIn(b, q[0]);
      PartInjective(x, s);
      assert false;
    }
  }

  lemma RestIsThere(x: Security, more: seq<string>, rest: string, d: DataType)
    requires x.code != "" && more != [] && more[0] == Part(x)
    requires Join(more) == rest + ([NUL] + Decimal(d)) + []
    ensures rest != ""
  {
    hide Decimal, Join, AfterFirst;
    JoinFirst(more);
    var n := |x.code|;
    assert Join(more)[n] == Part(x)[n] == NUL;
    assert forall k :: |rest| < k < |Join(more)| ==> Join(more)[k] == Decimal(d)[k - |rest| - 1] != NUL;
    if rest == "" {
      assert false;
    }
  }

  // ---- counting separators ----

  function Nuls(s: string): nat {
    if s == [] then 0 else (if s[0] == NUL then 1 else 0) + Nuls(s[1..])
  }

  lemma {:induction false} NulsOfConcat(a: string, b: string)
    ensures Nuls(a + b) == Nuls(a) + Nuls(b)
  {
    if a == [] {
      assert a + b == b;
    } else {
      NulsOfConcat(a[1..], b);
      assert (a + b)[1..] == a[1..] + b;
    }
  }

  lemma {:induction false} NoNuls(s: string)
    requires NUL !in s
    ensures Nuls(s) == 0
  {
    if s != [] {
      NoNuls(s[1..]);
    }
  }

  lemma NulsOfPart(s: Security)
    ensures Nuls(Part(s)) == Nuls(s.code) + 1
  {
    hide Decimal;
    var d := [NUL] + Decimal(s.dataType);
    assert Part(s) == s.code + d;
    NulsOfConcat(s.code, d);
    NoNuls(Decimal(s.dataType));
    assert d[1..] == Decimal(s.dataType);
  }

  /** A join holds the separators of each of its parts, and those of the others besides. */
  lemma {:induction false} NulsOfJoin(parts: seq<string>, x: string)
    requires x in parts && forall y :: y in parts ==> Nuls(y) > 0
    ensures Nuls(Join(parts)) >= Nuls(x) + |parts| - 1
  {
    if |parts| > 1 {
      var tail := parts[1..];
      NulsOfConcat(parts[0] + [SOH], Join(tail));
      NulsOfConcat(parts[0], [SOH]);
      assert parts == [parts[0]] + tail;
      assert forall y :: y in tail ==> y in parts;
      assert parts[0] in parts && tail[0] in tail;
      NulsOfJoin(tail, if x == parts[0] then tail[0] else x);
      assert Nuls([SOH]) == 0;
    }
  }

  lemma MergedHasMoreNuls(a: seq<Security>, m: Security, s: Security)
    requires |a| >= 2 && Part(m) == Joined(a) && s in a
    ensures Nuls(m.code) > Nuls(s.code)
  {
    hide Part, Leq, Nuls, Join;
    var parts := Sort(Parts(a));
    assert |multiset(parts)| == |parts| == |a|;
    forall y | y in parts ensures Nuls(y) > 0 {
      var x := PartIn(a, y);
      NulsOfPart(x);
    }
    var i :| 0 <= i < |a| && a[i] == s;
    assert Parts(a)[i] in multiset(Parts(a));
    NulsOfJoin(parts, Part(s));
    NulsOfPart(s);
    NulsOfPart(m);
  }

  lemma SpelledHasMoreNuls(p: Security, rest: string)
    ensures Nuls(Spelled(p, rest)) > Nuls(p.code)
  {
    hide Part, Nuls;
    NulsOfConcat(Part(p) + [SOH], rest);
    NulsOfConcat(Part(p), [SOH]);
    NulsOfPart(p);
  }

  /** A list that collides collides with one that names an instrument it does not, not even by
      another spelling. */
  lemma CollidesApart(a: seq<Security>) returns (b: seq<Security>)
    requires a != [] && (forall s :: s in a ==> s.code != "") && (|a| >= 2 || Forks(a[0]))
    ensures Collide(a, b) && b != [] && forall s :: s in a ==> Nuls(s.code) != Nuls(b[0].code)
  {
    hide Collide, Nuls, Part, Joined, Leq;
    if |a| >= 2 {
      var m := Merge(a);
      ManyCollide(a, m);
      b := [m];
      forall s | s in a ensures Nuls(s.code) != Nuls(m.code) {
        MergedHasMoreNuls(a, m, s);
      }
    } else {
      var p: Security, rest: string :|
        p.code != "" && rest != "" && a[0].code == Spelled(p, rest) && MayFollow(p, rest, a[0].dataType, []);
      ForkCollides(p, rest, a[0].dataType);
      SpelledHasMoreNuls(p, rest);
      b := [p, Security(rest, a[0].dataType)];
      assert a == [Security(Spelled(p, rest), a[0].dataType)];
    }
  }

  /** The exact condition, for every list that is admitted: it shares its keys with a list of other
      contents if and only if it names several instruments, which one code can spell out, or names
      one that can pass for two. */
  lemma CollidesIff(a: seq<Security>)
    requires a != [] && forall s :: s in a ==> s.code != ""
    ensures (exists b :: Collide(a, b)) <==> |a| >= 2 || Forks(a[0])
  {
    hide Collide;
    if |a| >= 2 || Forks(a[0]) {
      var b := CollidesApart(a);
    } else if exists b :: Collide(a, b) {
      var b :| Collide(a, b);
      assert a == [a[0]];
      SoleCollisionForks(a[0], b);
    }
  }
}
