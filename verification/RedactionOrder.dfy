/** The order in which secrets are replaced (infrastructure/logs.py:16, 32-33). Replacing them
    one after the other, longest first, is one pass over the text that takes the longest secret
    at each place, if occurrences are nested or disjoint. */
module RedactionOrder {
  import opened Redaction
  import opened LogStream

  /** A secret comes before the ones it contains. */
  ghost predicate ContainersFirst(secrets: seq<Secret>) {
    forall i, j, k :: 0 <= i < j < |secrets| && At(secrets[j], secrets[i], k) ==> secrets[i] == secrets[j]
  }

  // ----- longest first means containers first

  lemma CharsConcat(a: Bytes, b: Bytes)
    ensures Chars(a + b) == Chars(a) + Chars(b)
  {
    if a == [] {
      assert a + b == b;
    } else {
      assert (a + b)[1..] == a[1..] + b;
      CharsConcat(a[1..], b);
    }
  }

  /** What follows whole characters in whole characters is whole characters. */
  lemma {:induction false} RestIsWhole(a: Bytes, b: Bytes)
    requires WholeCharacters(a) && WholeCharacters(a + b)
    ensures WholeCharacters(b)
    decreases |a|
  {
    if a == [] {
      assert a + b == b;
    } else {
      var n := Width(a[0]);
      assert (a + b)[0] == a[0] && (a + b)[n..] == a[n..] + b;
      RestIsWhole(a[n..], b);
    }
  }

  lemma WholeHasOne(s: Bytes)
    requires s != [] && !IsContinuation(s[0])
    ensures Chars(s) >= 1
  {
  }

  lemma MoreInFront(front: Bytes, t: Bytes, back: Bytes)
    requires front != [] && !IsContinuation(front[0])
    ensures Chars(t) < Chars(front + (t + back))
  {
    CharsConcat(front, t + back);
    CharsConcat(t, back);
    WholeHasOne(front);
  }

  lemma MoreBehind(t: Bytes, back: Bytes)
    requires WholeCharacters(t) && WholeCharacters(t + back) && back != []
    ensures Chars(t) < Chars(t + back)
  {
    CharsConcat(t, back);
    RestIsWhole(t, back);
    WholeHasOne(back);
  }

  lemma InThree(u: Bytes, t: Bytes, k: nat)
    requires At(u, t, k) && t != u
    ensures u == u[..k] + (t + u[k + |t|..]) && (k == 0 ==> u == t + u[|t|..] && u[|t|..] != [])
  {
  }

  /** A text that properly contains another has more characters. */
  lemma ContainerIsLonger(u: Bytes, t: Bytes, k: nat)
    requires WholeCharacters(u) && WholeCharacters(t) && At(u, t, k) && t != u
    ensures Chars(t) < Chars(u)
  {
    var front, back := u[..k], u[k + |t|..];
    InThree(u, t, k);
    if k > 0 {
      assert front[0] == u[0];
      MoreInFront(front, t, back);
    } else {
      MoreBehind(t, back);
    }
  }

  lemma LongestFirstMeansContainersFirst(secrets: seq<Secret>)
    requires LongestFirst(secrets) && forall s :: s in secrets ==> WholeCharacters(s)
    ensures ContainersFirst(secrets)
  {
    forall i, j, k | 0 <= i < j < |secrets| && At(secrets[j], secrets[i], k) ensures secrets[i] == secrets[j] {
      if secrets[i] != secrets[j] {
        ContainerIsLonger(secrets[j], secrets[i], k);
      }
    }
  }

  ghost predicate Separated(text: Bytes, secrets: seq<Secret>) {
    AllClear(secrets) && NestedOrDisjoint(text, secrets)
  }

  lemma SuffixIsSeparated(a: Bytes, b: Bytes, secrets: seq<Secret>)
    requires NestedOrDisjoint(a + b, secrets)
    ensures NestedOrDisjoint(b, secrets)
  {
    forall s, u, i, j | s in secrets && u in secrets && At(b, s, i) && At(b, u, j) && i < j ensures Apart(i, s, j, u) {
      AtConcat(a, b, s, i + |a|);
      AtConcat(a, b, u, j + |a|);
      assert Apart(i + |a|, s, j + |a|, u);
    }
  }

  // ----- one after the other is one pass

  /** The replaced text begins with a secret just when the text did, unless it begins with the
      replaced one. */
  lemma SamePrefixes(text: Bytes, t: Secret, u: Secret)
    requires Clear(u) && !(t <= text)
    requires u <= text ==> NoneInside(text, t, |u|)
    ensures u <= Replace(text, t) <==> u <= text
    ensures u <= text ==> Replace(text, t)[|u|..] == Replace(text[|u|..], t)
  {
    if u <= Replace(text, t) {
      assert u[0..] == u;
      ClearPrefix(text, t, u, 0);
    }
    if u <= text {
      KeptUntil(text, t, |u|);
    }
  }

  /** No occurrence begins before `n`. */
  ghost predicate NoneInside(text: Bytes, t: Bytes, n: nat) {
    forall i :: At(text, t, i) ==> i >= n
  }

  lemma {:induction false} KeptUntil(text: Bytes, t: Secret, n: nat)
    requires n <= |text| && NoneInside(text, t, n)
    ensures Replace(text, t) == text[..n] + Replace(text[n..], t)
    decreases |text|
  {
    if n == 0 {
      assert text[..0] == [] && text[0..] == text;
    } else {
      assert !(t <= text) by { PrefixIsAt(text, t); }
      var tail := text[1..];
      forall i | At(tail, t, i) ensures i >= n - 1 { AtShift(text, t, 1, i + 1); }
      KeptUntil(tail, t, n - 1);
      assert tail[n - 1..] == text[n..];
      HeadFirst(text[..n], Replace(text[n..], t));
      assert text[..n][1..] == tail[..n - 1];
    }
  }

  lemma NotInMarker(rest: Bytes, s: Secret, k: nat)
    requires Clear(s) && k < |MARKER|
    ensures !(s <= MARKER[k..] + rest)
  {
    var text := MARKER + rest;
    assert text[k..] == MARKER[k..] + rest && text[0..|MARKER|] == MARKER;
    if s <= text[k..] {
      PrefixIsAt(text[k..], s);
      AtShift(text, s, k, k);
      ClearIsDisjoint(text, s, k, 0);
      assert false;
    }
  }

  lemma NoneBeginsInMarker(rest: Bytes, secrets: seq<Secret>, k: nat)
    requires AllClear(secrets) && k < |MARKER|
    ensures FirstPrefix(MARKER[k..] + rest, secrets) == |secrets|
  {
    forall m | 0 <= m < |secrets| ensures !(secrets[m] <= MARKER[k..] + rest) {
      assert secrets[m] in secrets;
      NotInMarker(rest, secrets[m], k);
    }
  }

  lemma OnceOverByte(head: Byte, rest: Bytes, secrets: seq<Secret>)
    requires FirstPrefix([head] + rest, secrets) == |secrets|
    ensures RedactOnce([head] + rest, secrets) == [head] + RedactOnce(rest, secrets)
  {
    assert ([head] + rest)[1..] == rest;
  }

  lemma FromHead(s: Bytes, k: nat, rest: Bytes)
    requires k < |s|
    ensures s[k..] + rest == [s[k]] + (s[k + 1..] + rest)
  {
  }

  /** A marker holds nothing to redact. */
  lemma {:induction false} OnceOverMarker(rest: Bytes, secrets: seq<Secret>, k: nat)
    requires AllClear(secrets) && k <= |MARKER|
    ensures RedactOnce(MARKER[k..] + rest, secrets) == MARKER[k..] + RedactOnce(rest, secrets)
    decreases |MARKER| - k
  {
    if k == |MARKER| {
      assert MARKER[k..] + rest == rest;
    } else {
      var head, tail := MARKER[k], MARKER[k + 1..];
      FromHead(MARKER, k, rest);
      NoneBeginsInMarker(rest, secrets, k);
      OnceOverByte(head, tail + rest, secrets);
      OnceOverMarker(rest, secrets, k + 1);
      FromHead(MARKER, k, RedactOnce(rest, secrets));
    }
  }

  lemma HeadFirst(a: Bytes, b: Bytes)
    requires a != []
    ensures [a[0]] + (a[1..] + b) == a + b
  {
  }

  /** The first secret is nowhere inside a later one that the text begins with. */
  lemma NotInsideLater(text: Bytes, secrets: seq<Secret>, j: nat)
    requires 0 < j < |secrets| && secrets[j] <= text && !(secrets[0] <= text)
    requires NestedOrDisjoint(text, secrets) && ContainersFirst(secrets)
    ensures NoneInside(text, secrets[0], |secrets[j]|)
  {
    var t, u := secrets[0], secrets[j];
    PrefixIsAt(text, u);
    forall i | At(text, t, i) ensures i >= |u| {
      if i < |u| {
        PrefixIsAt(text, t);
        assert Apart(0, u, i, t);
        assert At(u, t, i) by { assert text[i..i + |t|] == u[i..i + |t|]; }
      }
    }
  }

  lemma {:induction false} SameFirst(text: Bytes, other: Bytes, secrets: seq<Secret>)
    requires forall j :: 0 <= j < |secrets| ==> (secrets[j] <= other <==> secrets[j] <= text)
    ensures FirstPrefix(text, secrets) == FirstPrefix(other, secrets)
  {
    if secrets != [] {
      SameFirst(text, other, secrets[1..]);
    }
  }

  lemma SameAfterFirst(text: Bytes, secrets: seq<Secret>)
    requires secrets != [] && !(secrets[0] <= text) && Separated(text, secrets) && ContainersFirst(secrets)
    ensures var other, rest := Replace(text, secrets[0]), secrets[1..]; var k := FirstPrefix(text, rest);
      && FirstPrefix(other, rest) == k
      && (k < |rest| ==> other[|rest[k]|..] == Replace(text[|rest[k]|..], secrets[0]))
  {
    var t, rest := secrets[0], secrets[1..];
    forall j | 0 <= j < |rest| ensures rest[j] <= Replace(text, t) <==> rest[j] <= text
      ensures rest[j] <= text ==> Replace(text, t)[|rest[j]|..] == Replace(text[|rest[j]|..], t)
    {
      assert rest[j] == secrets[j + 1];
      if rest[j] <= text { NotInsideLater(text, secrets, j + 1); }
      SamePrefixes(text, t, rest[j]);
    }
    SameFirst(text, Replace(text, t), rest);
  }

  /** With its occurrences separated, a secret that is contained in no later one can be replaced
      first. */
  lemma {:induction false} ReplaceFirst(text: Bytes, secrets: seq<Secret>)
    requires secrets != [] && Separated(text, secrets) && ContainersFirst(secrets)
    ensures RedactOnce(text, secrets) == RedactOnce(Replace(text, secrets[0]), secrets[1..])
    decreases |text|
  {
    if text != [] {
      var t, rest := secrets[0], secrets[1..];
      var k := FirstPrefix(text, secrets);
      var n := if k < |secrets| then |secrets[k]| else 1;
      SuffixIsSeparated(text[..n], text[n..], secrets) by {
        assert text == text[..n] + text[n..];
      }
      ReplaceFirst(text[n..], secrets);
      if k == 0 {
        OnceOverMarker(Replace(text[n..], t), rest, 0);
        assert MARKER[0..] == MARKER;
      } else {
        SameAfterFirst(text, secrets);
      }
    }
  }

  /** Two overlapping texts that cannot overlap a marker make one that cannot either. */
  lemma OverlapIsClear(text: Bytes, s: Bytes, i: nat, u: Bytes, j: nat)
    requires Clear(s) && Clear(u) && At(text, s, i) && At(text, u, j) && i <= j <= i + |s| <= j + |u|
    ensures Clear(text[i..j + |u|])
  {
    var w := text[i..j + |u|];
    forall d | -|w| < d < |MARKER| ensures Differs(w, d) {
      if d > -|s| {
        assert Differs(s, d);
        var k :| 0 <= k < |MARKER| && d <= k < d + |s| && MARKER[k] != s[k - d];
        assert w[k - d] == text[i..i + |s|][k - d];
      } else {
        var e := d + (j - i);
        assert Differs(u, e);
        var k :| 0 <= k < |MARKER| && e <= k < e + |u| && MARKER[k] != u[k - e];
        assert w[k - d] == text[j..j + |u|][k - e];
      }
    }
  }

  lemma AtInPart(text: Bytes, i: nat, n: nat, s: Bytes, d: nat)
    requires 0 <= d && i + n <= |text| && d + |s| <= n
    ensures At(text, s, i + d) <==> At(text[i..i + n], s, d)
  {
    var inner, outer := text[i..i + n][d..d + |s|], text[i + d..i + d + |s|];
    assert forall k :: 0 <= k < |s| ==> inner[k] == outer[k];
    assert inner == outer;
  }

  lemma OverlapMoves(r: Bytes, text: Bytes, i: nat, p: nat, n: nat, s: Bytes, u: Bytes, d: nat)
    requires i + n <= |r| && p + n <= |text| && text[p..p + n] == r[i..i + n] && |s| <= n && d + |u| <= n
    requires At(r, s, i) && At(r, u, i + d)
    ensures At(text, s, p) && At(text, u, p + d)
  {
    AtInPart(r, i, n, s, 0);
    AtInPart(r, i, n, u, d);
    AtInPart(text, p, n, s, 0);
    AtInPart(text, p, n, u, d);
  }

  lemma OverlapWasThere(text: Bytes, t: Secret, s: Secret, i: nat, u: Secret, j: nat) returns (p: nat)
    requires Clear(s) && Clear(u) && At(Replace(text, t), s, i) && At(Replace(text, t), u, j)
    requires i < j < i + |s| < j + |u|
    ensures At(text, s, p) && At(text, u, p + (j - i))
  {
    var r := Replace(text, t);
    OverlapIsClear(r, s, i, u, j);
    p := ReplaceInventsNothing(text, t, r[i..j + |u|], i);
    OverlapMoves(r, text, i, p, j + |u| - i, s, u, j - i);
  }

  /** A replacement brings no overlaps about. */
  lemma ReplaceKeepsSeparation(text: Bytes, t: Secret, secrets: seq<Secret>)
    requires Separated(text, secrets)
    ensures Separated(Replace(text, t), secrets)
  {
    var r := Replace(text, t);
    forall s, u, i, j | s in secrets && u in secrets && At(r, s, i) && At(r, u, j) && i < j ensures Apart(i, s, j, u) {
      if !Apart(i, s, j, u) {
        var p := OverlapWasThere(text, t, s, i, u, j);
        assert false;
      }
    }
  }

  lemma {:induction false} NoSecretsNoChange(text: Bytes)
    ensures RedactOnce(text, []) == text
    decreases |text|
  {
    if text != [] {
      NoSecretsNoChange(text[1..]);
      assert text == [text[0]] + text[1..];
    }
  }

  /** Replacing the secrets one after the other is a single pass that takes, at each place, the
      first of them that matches. */
  lemma {:induction false} RedactAllIsRedactOnce(text: Bytes, secrets: seq<Secret>)
    requires Separated(text, secrets) && ContainersFirst(secrets)
    ensures RedactAll(text, secrets) == RedactOnce(text, secrets)
    decreases |secrets|
  {
    if secrets == [] {
      NoSecretsNoChange(text);
    } else {
      var t, rest := secrets[0], secrets[1..];
      ReplaceFirst(text, secrets);
      ReplaceKeepsSeparation(text, t, rest);
      assert ContainersFirst(rest) by {
        forall i, j, k | 0 <= i < j < |rest| && At(rest[j], rest[i], k) ensures rest[i] == rest[j] {
          assert At(secrets[j + 1], secrets[i + 1], k);
        }
      }
      RedactAllIsRedactOnce(Replace(text, t), rest);
    }
  }

  // ----- secrets of equal length may come in any order

  /** Two orders of the same secrets, both longest first. */
  ghost predicate SameSecrets(a: seq<Secret>, b: seq<Secret>) {
    && LongestFirst(a) && LongestFirst(b)
    && (forall s :: s in a <==> s in b)
    && (forall s :: s in a ==> WholeCharacters(s))
  }

  /** No secret that the text begins with is longer than the first. */
  lemma FirstIsLongest(text: Bytes, a: seq<Secret>, s: Secret)
    requires LongestFirst(a) && s in a && s <= text
    ensures var i := FirstPrefix(text, a); i < |a| && Chars(a[i]) >= Chars(s)
  {
    var k :| 0 <= k < |a| && a[k] == s;
    assert FirstPrefix(text, a) <= k;
  }

  /** Of two lists of the same secrets, longest first, both take the same one at a place. */
  lemma SameChoice(text: Bytes, a: seq<Secret>, b: seq<Secret>)
    requires SameSecrets(a, b)
    ensures var i, j := FirstPrefix(text, a), FirstPrefix(text, b);
      (i < |a| <==> j < |b|) && (i < |a| ==> a[i] == b[j])
  {
    var i, j := FirstPrefix(text, a), FirstPrefix(text, b);
    if i < |a| { FirstIsLongest(text, b, a[i]); }
    if j < |b| { FirstIsLongest(text, a, b[j]); }
    if i < |a| { SameLength(text, a[i], b[j]); }
  }

  lemma SameLength(text: Bytes, t: Bytes, u: Bytes)
    requires t <= text && u <= text && Chars(t) == Chars(u) && WholeCharacters(t) && WholeCharacters(u)
    ensures t == u
  {
    if |t| <= |u| { PrefixOfPrefix(text, t, u); } else { PrefixOfPrefix(text, u, t); }
  }

  lemma PrefixOfPrefix(text: Bytes, t: Bytes, u: Bytes)
    requires t <= text && u <= text && |t| <= |u| && Chars(t) == Chars(u)
    requires WholeCharacters(t) && WholeCharacters(u)
    ensures t == u
  {
    assert t <= u;
    PrefixIsAt(u, t);
    if t != u { ContainerIsLonger(u, t, 0); }
  }

  lemma {:induction false} SamePass(text: Bytes, a: seq<Secret>, b: seq<Secret>)
    requires SameSecrets(a, b)
    ensures RedactOnce(text, a) == RedactOnce(text, b)
    decreases |text|
  {
    if text != [] {
      SameChoice(text, a, b);
      var i := FirstPrefix(text, a);
      SamePass(text[if i < |a| then |a[i]| else 1..], a, b);
    }
  }

  /** Streaming is one pass over the whole stream that takes the longest secret at each place;
      the order that a set happens to give secrets of equal length does not show. */
  lemma StreamingIsLongestMatch(raw: seq<Bytes>, order: seq<Secret>, limit: nat, writes: seq<Chunk>, x: Stream)
    requires LastIsLast(writes, x) && Closed(writes, x) && NoneRaises(Ordered(raw), limit, EMPTY, writes)
    requires Separated(Data(writes, x), Ordered(raw))
    requires LongestFirst(order) && (forall s :: s in order <==> s in Ordered(raw))
    requires forall s :: s in order ==> WholeCharacters(s)
    ensures Recorded(AfterAll(Ordered(raw), limit, EMPTY, writes).lines, x) == RedactOnce(Data(writes, x), order)
  {
    var secrets := Ordered(raw);
    SeparatedIsApart(Data(writes, x), secrets);
    StreamingRefinesWhole(secrets, limit, writes, x);
    LongestFirstMeansContainersFirst(secrets);
    RedactAllIsRedactOnce(Data(writes, x), secrets);
    SamePass(Data(writes, x), secrets, order);
  }
}
