/** Routing keys: what an instrument code is indexed under, and what an update is looked up by. */
module PushRouting {
  import opened Lists
  import opened PushKeys

  predicate IsSpace(c: char) {
    c in " \t\n\r\U{0B}\U{0C}"
  }

  function TrimLeft(s: string): string {
    if s != [] && IsSpace(s[0]) then TrimLeft(s[1..]) else s
  }

  function TrimRight(s: string): string {
    if s != [] && IsSpace(s[|s| - 1]) then TrimRight(s[..|s| - 1]) else s
  }

  function Upper(s: string): (r: string)
    ensures |r| == |s|
  {
    seq(|s|, i requires 0 <= i < |s| => if 'a' <= s[i] <= 'z' then ((s[i] as int) - 32) as char else s[i])
  }

  predicate HasSuffix(s: string, suffix: string) {
    |suffix| <= |s| && s[|s| - |suffix|..] == suffix
  }

  const MARKET_SUFFIXES := [".HK", ".US", ".SZ", ".SH"]

  predicate HasMarketSuffix(u: string) {
    exists i :: 0 <= i < 4 && |u| > 3 && HasSuffix(u, MARKET_SUFFIXES[i])
  }

  function NormaliseRoutingKey(code: string): string {
    var u := Upper(TrimRight(TrimLeft(code)));
    if HasMarketSuffix(u) then u[..|u| - 3] else u
  }

  lemma {:induction false} TrimLeftOf(code: string, suffix: string)
    requires suffix != [] && !IsSpace(suffix[0])
    ensures TrimLeft(code + suffix) == TrimLeft(code) + suffix
    ensures |TrimLeft(code)| <= |code| && TrimLeft(code) == code[|code| - |TrimLeft(code)|..]
    ensures code != [] && !IsSpace(code[|code| - 1]) ==> TrimLeft(code) != []
  {
    if code == [] {
      assert code + suffix == suffix;
    } else if IsSpace(code[0]) {
      TrimLeftOf(code[1..], suffix);
      assert (code + suffix)[1..] == code[1..] + suffix;
    }
  }

  lemma {:induction false} TrimRightOf(s: string)
    ensures |TrimRight(s)| <= |s|
    ensures |TrimRight(s)| == |s| <==> s == [] || !IsSpace(s[|s| - 1])
    ensures s == [] || !IsSpace(s[|s| - 1]) ==> TrimRight(s) == s
  {
    if s != [] && IsSpace(s[|s| - 1]) {
      TrimRightOf(s[..|s| - 1]);
    }
  }

  lemma SuffixDropped(body: string, i: nat)
    requires i < 4
    ensures var u := Upper(body + MARKET_SUFFIXES[i]);
            if body == [] then u == MARKET_SUFFIXES[i] && !HasMarketSuffix(u)
            else HasMarketSuffix(u) && u[..|u| - 3] == Upper(body)
  {
    var u := Upper(body + MARKET_SUFFIXES[i]);
    assert |u| == |body| + 3;
    assert u[|u| - 3..] == MARKET_SUFFIXES[i];
    if body != [] {
      assert HasSuffix(u, MARKET_SUFFIXES[i]);
      assert u[..|u| - 3] == Upper(body);
    }
  }

  lemma KeyWithSuffix(code: string, i: nat)
    requires i < 4
    ensures NormaliseRoutingKey(code + MARKET_SUFFIXES[i]) ==
            if TrimLeft(code) == [] then MARKET_SUFFIXES[i] else Upper(TrimLeft(code))
    ensures |MARKET_SUFFIXES[i]| == 3
  {
    hide TrimLeft, TrimRight, HasMarketSuffix, Upper, IsSpace;
    var suffix, body := MARKET_SUFFIXES[i], TrimLeft(code);
    SuffixShape(i);
    TrimLeftOf(code, suffix);
    assert (body + suffix)[|body| + 2] == suffix[2];
    TrimRightOf(body + suffix);
    SuffixDropped(body, i);
  }

  lemma SuffixShape(i: nat)
    requires i < 4
    ensures var s := MARKET_SUFFIXES[i]; |s| == 3 && !IsSpace(s[0]) && !IsSpace(s[2])
  {
  }

  lemma BareKey(code: string)
    ensures var body, u := TrimLeft(code), Upper(TrimLeft(code));
            if code == [] || IsSpace(code[|code| - 1])
            then |NormaliseRoutingKey(code)| < |body| || (body == [] && NormaliseRoutingKey(code) == [])
            else body != [] && NormaliseRoutingKey(code) == if HasMarketSuffix(u) then u[..|u| - 3] else u
  {
    var body := TrimLeft(code);
    assert !IsSpace("x"[0]);
    hide TrimLeft, TrimRight, Upper, IsSpace, HasMarketSuffix;
    TrimLeftOf(code, "x");
    TrimRightOf(body);
    assert body != [] ==> body[|body| - 1] == code[|code| - 1];
    LongWithSuffix(Upper(TrimRight(body)));
  }

  /** For every code, the spelling with a market suffix and the bare one reach the same key exactly
      when the bare one does not end in a space and, from its first character that is not one,
      does not end in a market suffix of its own. */
  lemma SuffixIsDroppedOnce(code: string, i: nat)
    requires i < 4
    ensures NormaliseRoutingKey(code + MARKET_SUFFIXES[i]) == NormaliseRoutingKey(code)
            <==> code != [] && !IsSpace(code[|code| - 1]) && !HasMarketSuffix(Upper(TrimLeft(code)))
  {
    hide TrimLeft, Upper, HasMarketSuffix, NormaliseRoutingKey, IsSpace;
    KeyWithSuffix(code, i);
    BareKey(code);
    LongWithSuffix(Upper(TrimLeft(code)));
  }

  lemma LongWithSuffix(u: string)
    ensures HasMarketSuffix(u) ==> |u| > 3
  {
  }

  /** The routing keys of an instrument list, as a set. */
  function RoutingKeys(securities: seq<Security>): set<string> {
    set s | s in securities && s.code != "" :: NormaliseRoutingKey(s.code)
  }

  /** Each routing key once, in the order first met. */
  method SecurityKeys(securities: seq<Security>) returns (out: seq<string>)
    ensures Distinct(out)
    ensures forall k :: k in out <==> k in RoutingKeys(securities)
  {
    out := [];
    var seen: set<string> := {};
    for i := 0 to |securities|
      invariant Distinct(out)
      invariant forall k :: k in out <==> k in seen
      invariant seen == RoutingKeys(securities[..i])
    {
      var s := securities[i];
      assert securities[..i + 1] == securities[..i] + [s];
      assert RoutingKeys(securities[..i + 1]) ==
             RoutingKeys(securities[..i]) + (if s.code != "" then {NormaliseRoutingKey(s.code)} else {});
      if s.code == "" {
        continue;
      }
      var k := NormaliseRoutingKey(s.code);
      if k in seen {
        continue;
      }
      seen := seen + {k};
      out := out + [k];
    }
    assert securities[..|securities|] == securities;
  }

  /** The keys of an update are the normal forms of its notify id and of the code in its payload,
      where it has them, each once. */
  method UpdateRoutingKeys(id: string, securityCode: string) returns (out: seq<string>)
    ensures Distinct(out)
    ensures forall k :: k in out <==>
              || (id != "" && k == NormaliseRoutingKey(id))
              || (securityCode != "" && k == NormaliseRoutingKey(securityCode))
  {
    out := [];
    if id != "" {
      out := [NormaliseRoutingKey(id)];
    }
    if securityCode != "" {
      var k := NormaliseRoutingKey(securityCode);
      if k !in out {
        out := out + [k];
      }
    }
  }

  // ---- what the normal form ignores, and what it keeps ----

  predicate AllSpace(s: string) {
    forall c :: c in s ==> IsSpace(c)
  }

  /** The same character, or the same ASCII letter in the other case. */
  predicate SameLetter(c: char, d: char) {
    || c == d
    || ('a' <= c <= 'z' && d as int == c as int - 32)
    || ('a' <= d <= 'z' && c as int == d as int - 32)
  }

  predicate SameLetters(a: string, b: string) {
    |a| == |b| && forall i :: 0 <= i < |a| ==> SameLetter(a[i], b[i])
  }

  lemma SameLettersUpper(a: string, b: string)
    requires SameLetters(a, b)
    ensures Upper(a) == Upper(b)
  {
    forall i | 0 <= i < |a| ensures Upper(a)[i] == Upper(b)[i] {
      assert SameLetter(a[i], b[i]);
    }
  }

  lemma SpacesAreSame(c: char, d: char)
    requires SameLetter(c, d)
    ensures IsSpace(c) <==> IsSpace(d)
  {
  }

  lemma {:induction false} TrimLeftSame(a: string, b: string)
    requires SameLetters(a, b)
    ensures SameLetters(TrimLeft(a), TrimLeft(b))
  {
    hide SameLetter, IsSpace;
    if a != [] {
      SpacesAreSame(a[0], b[0]);
      if IsSpace(a[0]) {
        TrimLeftSame(a[1..], b[1..]);
      }
    }
  }

  lemma {:induction false} TrimRightSame(a: string, b: string)
    requires SameLetters(a, b)
    ensures SameLetters(TrimRight(a), TrimRight(b))
  {
    hide SameLetter, IsSpace;
    if a != [] {
      SpacesAreSame(a[|a| - 1], b[|b| - 1]);
      if IsSpace(a[|a| - 1]) {
        TrimRightSame(a[..|a| - 1], b[..|b| - 1]);
      }
    }
  }

  lemma {:induction false} TrimLeftPadded(pre: string, s: string)
    requires AllSpace(pre)
    ensures TrimLeft(pre + s) == TrimLeft(s)
  {
    hide IsSpace;
    if pre == [] {
      assert pre + s == s;
    } else {
      assert pre[0] in pre;
      TrimLeftPadded(pre[1..], s);
      assert (pre + s)[1..] == pre[1..] + s;
    }
  }

  lemma {:induction false} TrimRightPadded(s: string, post: string)
    requires AllSpace(post)
    ensures TrimRight(s + post) == TrimRight(s)
  {
    hide IsSpace;
    if post == [] {
      assert s + post == s;
    } else {
      var n := |post| - 1;
      assert post[n] in post && (s + post)[|s| + n] == post[n];
      TrimRightPadded(s, post[..n]);
      assert (s + post)[..|s| + n] == s + post[..n];
    }
  }

  /** Trimming either end first comes to the same. */
  lemma {:induction false} TrimPadded(s: string, post: string)
    requires AllSpace(post)
    ensures TrimRight(TrimLeft(s + post)) == TrimRight(TrimLeft(s))
  {
    hide IsSpace, TrimRight;
    if s == [] {
      assert s + post == post + [];
      TrimLeftPadded(post, []);
    } else if IsSpace(s[0]) {
      TrimPadded(s[1..], post);
      assert (s + post)[1..] == s[1..] + post;
    } else {
      TrimRightPadded(s, post);
    }
  }

  /** Codes that differ in ASCII case or in the spaces around them are routed alike. */
  lemma CaseAndSpacesDoNotMatter(pre: string, a: string, post: string, b: string)
    requires AllSpace(pre) && AllSpace(post) && SameLetters(a, b)
    ensures NormaliseRoutingKey(pre + a + post) == NormaliseRoutingKey(b)
  {
    hide AllSpace, SameLetters, TrimLeft, TrimRight, Upper, HasMarketSuffix;
    assert pre + a + post == pre + (a + post);
    TrimLeftPadded(pre, a + post);
    TrimPadded(a, post);
    TrimLeftSame(a, b);
    TrimRightSame(TrimLeft(a), TrimLeft(b));
    SameLettersUpper(TrimRight(TrimLeft(a)), TrimRight(TrimLeft(b)));
  }

  /** A code without those, and without a market suffix, is its own key: nothing else is ignored. */
  lemma PlainCodesAreTheirOwnKeys(code: string)
    requires code != "" ==> !IsSpace(code[0]) && !IsSpace(code[|code| - 1])
    requires forall c :: c in code ==> !('a' <= c <= 'z')
    requires forall i :: 0 <= i < 4 && |code| > 3 ==> code[|code| - 3..] != MARKET_SUFFIXES[i]
    ensures NormaliseRoutingKey(code) == code
  {
    assert forall i :: 0 <= i < |code| ==> code[i] in code;
    assert Upper(code) == code;
  }

  /** Equal canonical keys mean equal routing keys, although the instrument lists may differ in
      order: what is indexed by one holder's list can be removed by another's. */
  lemma SameKeySameRouting(topic: TopicId, a: seq<Security>, topic': TopicId, b: seq<Security>)
    requires Clean(a) && Clean(b) && CanonicalKey(topic, a) == CanonicalKey(topic', b)
    ensures RoutingKeys(a) == RoutingKeys(b)
  {
    KeyDeterminesContents(topic, a, topic', b);
    SameContentsSameRouting(a, b);
  }

  lemma SameContentsSameRouting(a: seq<Security>, b: seq<Security>)
    requires multiset(a) == multiset(b)
    ensures RoutingKeys(a) == RoutingKeys(b)
  {
    forall s ensures s in a <==> s in b {
      assert s in a <==> s in multiset(a);
      assert s in b <==> s in multiset(b);
    }
  }

  // ---- normalising keeps the separators of a code ----

  lemma {:induction false} TrimLeftNuls(s: string)
    ensures Nuls(TrimLeft(s)) == Nuls(s)
  {
    if s != [] && IsSpace(s[0]) {
      TrimLeftNuls(s[1..]);
    }
  }

  lemma {:induction false} TrimRightNuls(s: string)
    ensures Nuls(TrimRight(s)) == Nuls(s)
  {
    if s != [] && IsSpace(s[|s| - 1]) {
      var init, last := s[..|s| - 1], s[|s| - 1..];
      TrimRightNuls(init);
      assert s == init + last && last == [s[|s| - 1]];
      NulsOfConcat(init, last);
      NoNuls(last);
    }
  }

  lemma {:induction false} UpperNuls(s: string)
    ensures Nuls(Upper(s)) == Nuls(s)
  {
    if s != [] {
      UpperNuls(s[1..]);
      assert Upper(s)[1..] == Upper(s[1..]);
    }
  }

  lemma DroppedNuls(u: string, i: nat)
    requires i < 4 && |u| > 3 && HasSuffix(u, MARKET_SUFFIXES[i])
    ensures Nuls(u[..|u| - 3]) == Nuls(u)
  {
    var init, suffix := u[..|u| - 3], MARKET_SUFFIXES[i];
    assert |suffix| == 3 && NUL !in suffix;
    assert u == init + suffix;
    NulsOfConcat(init, suffix);
    NoNuls(suffix);
  }

  lemma NormalNuls(code: string)
    ensures Nuls(NormaliseRoutingKey(code)) == Nuls(code)
  {
    hide TrimLeft, TrimRight, Upper, Nuls, HasSuffix;
    var body := TrimRight(TrimLeft(code));
    var u := Upper(body);
    TrimLeftNuls(code);
    TrimRightNuls(TrimLeft(code));
    UpperNuls(body);
    if HasMarketSuffix(u) {
      var i :| 0 <= i < 4 && |u| > 3 && HasSuffix(u, MARKET_SUFFIXES[i]);
      DroppedNuls(u, i);
    }
  }

  /** An instrument whose code has another number of separators is routed on another key. */
  lemma RoutedApart(a: seq<Security>, q: Security)
    requires forall s :: s in a ==> Nuls(s.code) != Nuls(q.code)
    ensures NormaliseRoutingKey(q.code) !in RoutingKeys(a)
  {
    hide NormaliseRoutingKey, Nuls;
    NormalNuls(q.code);
    forall s | s in a ensures NormaliseRoutingKey(s.code) != NormaliseRoutingKey(q.code) {
      NormalNuls(s.code);
    }
  }
}
