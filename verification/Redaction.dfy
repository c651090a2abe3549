/** Streaming redaction (infrastructure/logs.py). The log redacts a stream chunk by chunk,
    holding back a bounded tail; this is proved equal to redacting the whole stream once. */
module Redaction {

  type Byte = x: int | 0 <= x < 256

  type Bytes = seq<Byte>

  /** Empty secrets are dropped when the log is opened. */
  type Secret = s: Bytes | s != [] witness [0]

  /** `[REDACTED]` in ASCII. */
  const MARKER: Bytes := [91, 82, 69, 68, 65, 67, 84, 69, 68, 93]

  // ----- occurrences

  predicate At(text: Bytes, t: Bytes, i: int) {
    0 <= i && i + |t| <= |text| && text[i..i + |t|] == t
  }

  ghost predicate Occurs(text: Bytes, t: Bytes) {
    exists i :: At(text, t, i)
  }

  /** An occurrence that begins before `cut` and ends after it. */
  predicate Straddles(i: int, t: Bytes, cut: int) {
    i < cut < i + |t|
  }

  ghost predicate NoneStraddles(text: Bytes, t: Bytes, cut: int) {
    forall i :: At(text, t, i) ==> !Straddles(i, t, cut)
  }

  /** `buffer.find(t, from)`: the first occurrence at or after `from`, or -1. */
  function Find(text: Bytes, t: Bytes, from: nat): (r: int)
    ensures r == -1 || (from <= r && At(text, t, r))
    ensures forall i :: from <= i && At(text, t, i) ==> 0 <= r <= i
    decreases |text| - from
  {
    if from + |t| > |text| then -1
    else if At(text, t, from) then from
    else Find(text, t, from + 1)
  }

  /** `text.replace(t, MARKER)`: leftmost matches, one after the other. */
  function Replace(text: Bytes, t: Secret): Bytes
    decreases |text|
  {
    if text == [] then []
    else if t <= text then MARKER + Replace(text[|t|..], t)
    else [text[0]] + Replace(text[1..], t)
  }

  /** All secrets, one after the other. */
  function RedactAll(text: Bytes, secrets: seq<Secret>): Bytes
    decreases |secrets|
  {
    if secrets == [] then text else RedactAll(Replace(text, secrets[0]), secrets[1..])
  }

  /** The same in a single pass: at each position the first secret of the list that matches
      there is replaced and skipped. */
  function RedactOnce(text: Bytes, secrets: seq<Secret>): Bytes
    decreases |text|
  {
    if text == [] then []
    else
      var k := FirstPrefix(text, secrets);
      if k < |secrets| then assert |secrets[k]| > 0; MARKER + RedactOnce(text[|secrets[k]|..], secrets)
      else [text[0]] + RedactOnce(text[1..], secrets)
  }

  /** The first secret of the list that the text begins with. */
  function FirstPrefix(text: Bytes, secrets: seq<Secret>): (k: nat)
    ensures k <= |secrets|
    ensures k < |secrets| ==> secrets[k] <= text
    ensures forall i :: 0 <= i < k ==> !(secrets[i] <= text)
  {
    if secrets == [] then 0
    else if secrets[0] <= text then 0
    else 1 + FirstPrefix(text, secrets[1..])
  }

  // ----- cutting where nothing is cut through

  lemma PrefixIsAt(text: Bytes, t: Bytes)
    ensures t <= text <==> At(text, t, 0)
  {
  }

  lemma AtShift(text: Bytes, t: Bytes, d: nat, i: int)
    requires d <= |text| && d <= i
    ensures At(text, t, i) <==> At(text[d..], t, i - d)
  {
    if i + |t| <= |text| {
      assert text[i..i + |t|] == text[d..][i - d..i - d + |t|];
    }
  }

  lemma AtConcat(a: Bytes, b: Bytes, t: Bytes, i: int)
    ensures i + |t| <= |a| ==> (At(a + b, t, i) <==> At(a, t, i))
    ensures i >= |a| ==> (At(a + b, t, i) <==> At(b, t, i - |a|))
  {
    if 0 <= i && i + |t| <= |a| {
      assert (a + b)[i..i + |t|] == a[i..i + |t|];
    }
    if |a| <= i && i + |t| <= |a + b| {
      assert (a + b)[i..i + |t|] == b[i - |a|..i - |a| + |t|];
    }
  }

  lemma Associative(a: Bytes, b: Bytes, c: Bytes)
    ensures (a + b) + c == a + (b + c)
  {
  }

  /** Replacement respects a cut that no occurrence straddles. */
  lemma {:induction false} ReplaceSplits(a: Bytes, b: Bytes, t: Secret)
    requires NoneStraddles(a + b, t, |a|)
    ensures Replace(a + b, t) == Replace(a, t) + Replace(b, t)
    decreases |a|
  {
    if a == [] {
      assert a + b == b;
    } else {
      PrefixIsAt(a + b, t);
      PrefixIsAt(a, t);
      AtConcat(a, b, t, 0);
      if t <= a + b { assert !Straddles(0, t, |a|); }
      var n := if t <= a then |t| else 1;
      var head := if t <= a then MARKER else [a[0]];
      assert (a + b)[n..] == a[n..] + b && (a + b)[0] == a[0];
      forall i | At(a[n..] + b, t, i) ensures !Straddles(i, t, |a[n..]|) {
        AtShift(a + b, t, n, i + n);
        assert At(a + b, t, i + n);
      }
      ReplaceSplits(a[n..], b, t);
      assert Replace(a + b, t) == head + Replace(a[n..] + b, t);
      Associative(head, Replace(a[n..], t), Replace(b, t));
    }
  }

  // ----- secrets that cannot overlap the marker

  /** Laid `d` bytes behind the beginning of a marker, `u` differs from it where they overlap. */
  predicate Differs(u: Bytes, d: int) {
    exists k :: 0 <= k < |MARKER| && d <= k < d + |u| && MARKER[k] != u[k - d]
  }

  /** Laid over a marker at any offset, the secret differs from it. */
  predicate Clear(u: Bytes) {
    forall d :: -|u| < d < |MARKER| ==> Differs(u, d)
  }

  predicate Disjoint(i: int, u: Bytes, j: int, v: Bytes) {
    i + |u| <= j || j + |v| <= i
  }

  lemma OverlapAgrees(text: Bytes, u: Bytes, i: int, j: int)
    requires At(text, u, i) && At(text, MARKER, j) && !Disjoint(i, u, j, MARKER)
    ensures !Differs(u, i - j)
  {
    forall k | 0 <= k < |MARKER| && i - j <= k < i - j + |u| ensures MARKER[k] == u[k - (i - j)] {
      assert text[j..j + |MARKER|][k] == text[i..i + |u|][k - (i - j)];
    }
  }

  lemma ClearIsDisjoint(text: Bytes, u: Bytes, i: int, j: int)
    requires Clear(u) && At(text, u, i) && At(text, MARKER, j)
    ensures Disjoint(i, u, j, MARKER)
  {
    if !Disjoint(i, u, j, MARKER) {
      OverlapAgrees(text, u, i, j);
      assert false;
    }
  }

  /** The marker with `u` laid over it, for an offset at which they agree. */
  function Overlay(u: Bytes, d: int): Bytes
    requires -|u| < d < |MARKER|
  {
    Before(u, d) + MARKER + Behind(u, d)
  }

  /** The part of `u` before the marker, and the part behind it. */
  function Before(u: Bytes, d: int): Bytes
    requires -|u| < d
  {
    if d < 0 then u[..-d] else []
  }

  function Behind(u: Bytes, d: int): Bytes
    requires d < |MARKER|
  {
    if d + |u| > |MARKER| then u[|MARKER| - d..] else []
  }

  lemma OverlayHasBoth(u: Bytes, d: int)
    requires -|u| < d < |MARKER| && !Differs(u, d)
    ensures At(Overlay(u, d), u, if d < 0 then 0 else d) && At(Overlay(u, d), MARKER, if d < 0 then -d else 0)
  {
    var o, i, j := Overlay(u, d), if d < 0 then 0 else d, if d < 0 then -d else 0;
    forall m | 0 <= m < |u| ensures o[i + m] == u[m] {
      var k := m + d;
      if 0 <= k < |MARKER| { assert MARKER[k] == u[k - d]; }
    }
    assert o[i..i + |u|] == u;
    assert o[j..j + |MARKER|] == MARKER;
  }

  /** Such a secret shares no byte with a marker in any text, and only such a secret. */
  lemma ClearMeansDisjoint(u: Secret)
    ensures Clear(u) <==> forall text, i, j :: At(text, u, i) && At(text, MARKER, j) ==> Disjoint(i, u, j, MARKER)
  {
    if Clear(u) {
      forall text, i, j | At(text, u, i) && At(text, MARKER, j) ensures Disjoint(i, u, j, MARKER) {
        ClearIsDisjoint(text, u, i, j);
      }
    } else {
      var d :| -|u| < d < |MARKER| && !Differs(u, d);
      OverlayHasBoth(u, d);
      assert !Disjoint(if d < 0 then 0 else d, u, if d < 0 then -d else 0, MARKER);
    }
  }

  lemma SameSplit(head: Bytes, tail: Bytes, x: Bytes, u: Bytes)
    requires head + tail == x + u && |head| <= |x|
    ensures x == head + x[|head|..] && tail == x[|head|..] + u
  {
    assert (head + tail)[..|head|] == (x + u)[..|head|];
    assert (head + tail)[|head|..] == (x + u)[|head|..];
  }

  lemma BeginningAgrees(tail: Bytes, x: Bytes, left: Bytes, u: Bytes)
    requires left <= u && MARKER + tail == x + left && |x| < |MARKER|
    ensures !Differs(u, |x|)
  {
    forall k | 0 <= k < |MARKER| && |x| <= k < |x| + |u| ensures MARKER[k] == u[k - |x|] {
      assert (MARKER + tail)[k] == (x + left)[k];
    }
  }

  lemma PartAgrees(u: Bytes, p: nat, r: Bytes)
    requires p < |u| && MARKER <= r && (u[p..] <= r || (p + |r| <= |u| && u[p..p + |r|] == r))
    ensures !Differs(u, 0 - p)
  {
    forall k | 0 <= k < |MARKER| && 0 - p <= k < 0 - p + |u| ensures MARKER[k] == u[k + p] {
      if u[p..] <= r {
        assert u[p..][k] == r[k];
      } else {
        assert u[p..p + |r|][k] == r[k];
      }
    }
  }

  /** A secret that begins in the text does not begin inside a marker. */
  lemma MarkerBlocks(tail: Bytes, x: Bytes, left: Bytes, u: Secret)
    requires Clear(u) && left <= u && MARKER + tail == x + left
    ensures |MARKER| <= |x|
  {
    if |x| < |MARKER| {
      BeginningAgrees(tail, x, left, u);
      assert false;
    }
  }

  /** A replaced text that is part of the secret is the original. */
  lemma {:induction false} KeptInside(a: Bytes, t: Secret, u: Secret, p: nat)
    requires Clear(u) && p + |Replace(a, t)| <= |u| && u[p..p + |Replace(a, t)|] == Replace(a, t)
    ensures Replace(a, t) == a
    decreases |a|
  {
    if a != [] {
      var r := Replace(a, t);
      ReplacedHead(a, t);
      if t <= a {
        PartAgrees(u, p, r);
        assert false;
      } else {
        assert r[1..] == Replace(a[1..], t) && u[p + 1..p + |r|] == r[1..];
        KeptInside(a[1..], t, u, p + 1);
        assert a == [a[0]] + a[1..];
      }
    }
  }

  /** A secret that begins in the replaced text and runs to its end began in the original. */
  lemma {:induction false} ClearSuffix(a: Bytes, t: Secret, x: Bytes, left: Bytes, u: Secret) returns (y: Bytes)
    requires Clear(u) && left <= u && Replace(a, t) == x + left
    ensures a == y + left
    decreases |a|
  {
    if a == [] || x == [] {
      assert x + left == left || left == [];
      if a != [] {
        assert u[0..0 + |left|] == left;
        KeptInside(a, t, u, 0);
      }
      y := [];
    } else {
      var n := if t <= a then |t| else 1;
      var head := if t <= a then MARKER else [a[0]];
      var tail := Replace(a[n..], t);
      if t <= a { MarkerBlocks(tail, x, left, u); }
      SameSplit(head, tail, x, left);
      y := ClearSuffix(a[n..], t, x[|head|..], left, u);
      Associative(a[..n], y, left);
      assert a == a[..n] + a[n..];
      y := a[..n] + y;
    }
  }

  /** Likewise for a secret of which the replaced text begins with the end. */
  lemma {:induction false} ClearPrefix(b: Bytes, t: Secret, u: Secret, p: nat)
    requires Clear(u) && p <= |u| && u[p..] <= Replace(b, t)
    ensures u[p..] <= b
    decreases |b|
  {
    if b != [] && p < |u| {
      NoMarkerAhead(b, t, u, p);
      ReplacedHead(b, t);
      assert Replace(b, t)[0] == u[p..][0] && Replace(b, t)[1..] == Replace(b[1..], t);
      assert u[p..][1..] == u[p + 1..];
      ClearPrefix(b[1..], t, u, p + 1);
      assert u[p..] == [u[p]] + u[p + 1..] && b == [b[0]] + b[1..];
    }
  }

  lemma NoMarkerAhead(b: Bytes, t: Secret, u: Secret, p: nat)
    requires Clear(u) && p < |u| && b != [] && u[p..] <= Replace(b, t)
    ensures !(t <= b)
  {
    var r := Replace(b, t);
    ReplacedHead(b, t);
    if t <= b {
      PartAgrees(u, p, r);
      assert false;
    }
  }

  /** The replaced text begins with a marker exactly where the secret was. */
  lemma ReplacedHead(a: Bytes, t: Secret)
    requires a != []
    ensures Replace(a, t) != []
    ensures t <= a ==> MARKER <= Replace(a, t)
    ensures !(t <= a) ==> Replace(a, t)[0] == a[0]
  {
  }

  lemma SeamParts(a: Bytes, b: Bytes, u: Bytes, i: nat)
    requires At(a + b, u, i) && i <= |a| <= i + |u|
    ensures a == a[..i] + u[..|a| - i] && u[|a| - i..] <= b
  {
    var p := |a| - i;
    assert u[..p] == (a + b)[i..i + p] == a[i..];
    assert u[p..] == (a + b)[i + p..i + |u|] == b[..|u| - p];
  }

  lemma SeamJoins(x: Bytes, b: Bytes, u: Bytes, p: nat)
    requires p <= |u| && u[p..] <= b
    ensures At(x + u[..p] + b, u, |x|)
  {
    var whole := x + u[..p] + b;
    assert whole[|x|..|x| + |u|] == u[..p] + b[..|u| - p];
  }

  /** A secret around the seam of two replaced texts was there before. */
  lemma ClearSeam(a: Bytes, b: Bytes, t: Secret, u: Secret, i: nat) returns (j: nat)
    requires Clear(u) && At(Replace(a, t) + Replace(b, t), u, i) && i <= |Replace(a, t)| <= i + |u|
    ensures At(a + b, u, j) && |a| - j == |Replace(a, t)| - i
  {
    var p := |Replace(a, t)| - i;
    SeamParts(Replace(a, t), Replace(b, t), u, i);
    var y := ClearSuffix(a, t, Replace(a, t)[..i], u[..p], u);
    ClearPrefix(b, t, u, p);
    SeamJoins(y, b, u, p);
    j := |y|;
  }

  /** Replacing one secret cannot make another one straddle the cut. */
  lemma ReplaceKeepsCut(a: Bytes, b: Bytes, t: Secret, u: Secret)
    requires Clear(u) && NoneStraddles(a + b, u, |a|)
    ensures NoneStraddles(Replace(a, t) + Replace(b, t), u, |Replace(a, t)|)
  {
    var ra, rb := Replace(a, t), Replace(b, t);
    if i :| At(ra + rb, u, i) && Straddles(i, u, |ra|) {
      var j := ClearSeam(a, b, t, u, i);
      assert false;
    }
  }

  ghost predicate AllClear(secrets: seq<Secret>) {
    forall s :: s in secrets ==> Clear(s)
  }

  /** No occurrence of any secret straddles the cut. */
  ghost predicate SafeCut(text: Bytes, secrets: seq<Secret>, cut: int) {
    forall s :: s in secrets ==> NoneStraddles(text, s, cut)
  }

  /** Redaction respects a safe cut: the two sides can be redacted separately. */
  lemma {:induction false} RedactAllSplits(a: Bytes, b: Bytes, secrets: seq<Secret>)
    requires AllClear(secrets) && SafeCut(a + b, secrets, |a|)
    ensures RedactAll(a + b, secrets) == RedactAll(a, secrets) + RedactAll(b, secrets)
    decreases |secrets|
  {
    if secrets != [] {
      var t, rest := secrets[0], secrets[1..];
      ReplaceSplits(a, b, t);
      forall u | u in rest ensures u in secrets && NoneStraddles(Replace(a, t) + Replace(b, t), u, |Replace(a, t)|) {
        ReplaceKeepsCut(a, b, t, u);
      }
      RedactAllSplits(Replace(a, t), Replace(b, t), rest);
    }
  }

  // ----- nothing secret is left

  /** A secret that occurs after a replacement occurred before it. */
  lemma {:induction false} ReplaceInventsNothing(text: Bytes, t: Secret, u: Secret, i: nat) returns (j: nat)
    requires Clear(u) && At(Replace(text, t), u, i)
    ensures At(text, u, j) && u != t
    decreases |text|
  {
    var r := Replace(text, t);
    var n := if t <= text then |t| else 1;
    var head := if t <= text then MARKER else [text[0]];
    var rest := Replace(text[n..], t);
    assert r == head + rest;
    if i >= |head| {
      AtConcat(head, rest, u, i);
      var k := ReplaceInventsNothing(text[n..], t, u, i - |head|);
      j := k + n;
      AtShift(text, u, n, j);
    } else {
      BeginsOutside(text, t, u, i);
      j := 0;
      assert u[0..] == u && u <= r;
      ClearPrefix(text, t, u, 0);
    }
  }

  lemma BeginsOutside(text: Bytes, t: Secret, u: Secret, i: nat)
    requires Clear(u) && text != [] && At(Replace(text, t), u, i)
    requires i < if t <= text then |MARKER| else 1
    ensures i == 0 && !(t <= text)
  {
    var r := Replace(text, t);
    ReplacedHead(text, t);
    if t <= text {
      assert r[0..|MARKER|] == MARKER;
      ClearIsDisjoint(r, u, i, 0);
      assert false;
    }
  }

  lemma ReplaceKeepsAbsent(text: Bytes, t: Secret, u: Secret)
    requires Clear(u) && (u == t || !Occurs(text, u))
    ensures !Occurs(Replace(text, t), u)
  {
    if Occurs(Replace(text, t), u) {
      var i :| At(Replace(text, t), u, i);
      var j := ReplaceInventsNothing(text, t, u, i);
    }
  }

  lemma {:induction false} AbsentStaysAbsent(text: Bytes, secrets: seq<Secret>, u: Secret)
    requires Clear(u) && !Occurs(text, u)
    ensures !Occurs(RedactAll(text, secrets), u)
    decreases |secrets|
  {
    if secrets != [] {
      ReplaceKeepsAbsent(text, secrets[0], u);
      AbsentStaysAbsent(Replace(text, secrets[0]), secrets[1..], u);
    }
  }

  /** The redacted text contains no secret that cannot overlap a marker, whatever the others are. */
  lemma {:induction false} RedactAllHides(text: Bytes, secrets: seq<Secret>, u: Secret)
    requires Clear(u) && u in secrets
    ensures !Occurs(RedactAll(text, secrets), u)
    decreases |secrets|
  {
    ReplaceKeepsAbsent(text, u, u);
    if secrets[0] == u {
      AbsentStaysAbsent(Replace(text, u), secrets[1..], u);
    } else {
      RedactAllHides(Replace(text, secrets[0]), secrets[1..], u);
    }
  }

  /** What was said of one replacement holds of all: a secret that begins in the redacted text and
      runs to its end began in the original; */
  lemma {:induction false} SuffixWasThere(a: Bytes, secrets: seq<Secret>, x: Bytes, left: Bytes, s: Secret)
    returns (y: Bytes)
    requires Clear(s) && left <= s && RedactAll(a, secrets) == x + left
    ensures a == y + left
    decreases |secrets|
  {
    if secrets == [] {
      y := x;
    } else {
      y := SuffixWasThere(Replace(a, secrets[0]), secrets[1..], x, left, s);
      y := ClearSuffix(a, secrets[0], y, left, s);
    }
  }

  /** likewise for a secret of which it begins with the end; */
  lemma {:induction false} PrefixWasThere(b: Bytes, secrets: seq<Secret>, s: Secret, p: nat)
    requires Clear(s) && p <= |s| && s[p..] <= RedactAll(b, secrets)
    ensures s[p..] <= b
    decreases |secrets|
  {
    if secrets != [] {
      PrefixWasThere(Replace(b, secrets[0]), secrets[1..], s, p);
      ClearPrefix(b, secrets[0], s, p);
    }
  }

  /** and if it is part of the secret, it is the original. */
  lemma {:induction false} InsideIsKept(a: Bytes, secrets: seq<Secret>, s: Secret, p: nat)
    requires Clear(s) && p + |RedactAll(a, secrets)| <= |s|
    requires s[p..p + |RedactAll(a, secrets)|] == RedactAll(a, secrets)
    ensures RedactAll(a, secrets) == a
    decreases |secrets|
  {
    if secrets != [] {
      InsideIsKept(Replace(a, secrets[0]), secrets[1..], s, p);
      KeptInside(a, secrets[0], s, p);
    }
  }

  lemma AbsentInTail(text: Bytes, t: Bytes)
    requires text != [] && !Occurs(text, t)
    ensures !Occurs(text[1..], t)
  {
    if i :| At(text[1..], t, i) {
      AtShift(text, t, 1, i + 1);
      assert false;
    }
  }

  lemma {:induction false} AbsentIsKept(text: Bytes, t: Secret)
    requires !Occurs(text, t)
    ensures Replace(text, t) == text
    decreases |text|
  {
    if text != [] {
      PrefixIsAt(text, t);
      assert !At(text, t, 0);
      AbsentInTail(text, t);
      AbsentIsKept(text[1..], t);
      assert text == [text[0]] + text[1..];
    }
  }

  lemma {:induction false} AbsentAreKept(text: Bytes, secrets: seq<Secret>)
    requires forall u :: u in secrets ==> !Occurs(text, u)
    ensures RedactAll(text, secrets) == text
    decreases |secrets|
  {
    if secrets != [] {
      AbsentIsKept(text, secrets[0]);
      AbsentAreKept(text, secrets[1..]);
    }
  }

  lemma ByteAbsent(text: Bytes, b: Byte)
    requires b !in text
    ensures !Occurs(text, [b])
  {
    forall i ensures !At(text, [b], i) {
      if 0 <= i < |text| { assert text[i] in text && text[i..i + 1] == [text[i]]; }
    }
  }

  /** A one-byte secret between two texts that do not contain it. */
  lemma OneReplaced(a: Bytes, b: Byte, c: Bytes)
    requires b !in a && b !in c
    ensures Replace(a + [b] + c, [b]) == a + MARKER + c
  {
    var t: Secret := [b];
    ReplaceSplits(a, [b] + c, t);
    ByteAbsent(a, b);
    AbsentIsKept(a, t);
    ByteAbsent(c, b);
    AbsentIsKept(c, t);
    assert a + [b] + c == a + ([b] + c) && ([b] + c)[1..] == c;
    Associative(a, MARKER, c);
  }

  /** A secret that can overlap a marker, and a text in which redaction leaves it: the rest of the
      secret stands around another one that is replaced later. */
  lemma UnclearIsLeft(u: Secret, b: Byte) returns (text: Bytes)
    requires !Clear(u) && b !in u
    ensures Occurs(RedactAll(text, [u, [b]]), u)
  {
    var d :| -|u| < d < |MARKER| && !Differs(u, d);
    var x, y, t: Secret := Before(u, d), Behind(u, d), [b];
    text := x + [b] + y;
    MissesByte(x, b, y, u);
    AbsentIsKept(text, u);
    OneReplaced(x, b, y);
    RedactTwo(text, u, t);
    OverlayHasBoth(u, d);
  }

  /** A text is not found across a byte it lacks. */
  lemma MissesByte(x: Bytes, b: Byte, y: Bytes, u: Bytes)
    requires b !in u && |x| < |u| && |y| < |u|
    ensures !Occurs(x + [b] + y, u)
  {
    var text := x + [b] + y;
    if i :| At(text, u, i) {
      HasItsBytes(text, u, i, |x|);
      assert false;
    }
  }

  lemma HasItsBytes(text: Bytes, u: Bytes, i: int, m: nat)
    requires At(text, u, i) && i <= m < i + |u|
    ensures text[m] in u
  {
    assert text[i..i + |u|][m - i] == text[m];
  }

  lemma RedactTwo(text: Bytes, t: Secret, u: Secret)
    ensures RedactAll(text, [t, u]) == Replace(Replace(text, t), u)
  {
    assert [t, u][1..] == [u] && [u][1..] == [];
    assert RedactAll(Replace(text, t), [u]) == Replace(Replace(text, t), u);
  }

  /** Exactly the secrets that cannot overlap a marker are hidden in every text, whatever other
      secrets are redacted with them. No encoded text contains every byte. */
  lemma HiddenExactlyWhenClear(u: Secret, b: Byte)
    requires b !in u
    ensures Clear(u) <==> forall text, secrets :: Hidden(text, secrets, u)
  {
    if Clear(u) {
      forall text, secrets ensures Hidden(text, secrets, u) {
        if u in secrets { RedactAllHides(text, secrets, u); }
      }
    } else {
      var text := UnclearIsLeft(u, b);
      assert !Hidden(text, [u, [b]], u);
    }
  }

  ghost predicate Hidden(text: Bytes, secrets: seq<Secret>, u: Secret) {
    u in secrets ==> !Occurs(RedactAll(text, secrets), u)
  }

  /** A given list may still hide a secret that can overlap a marker, if it hides a part of it:
      `x` after `]x`. */
  lemma PartHidesWhole(text: Bytes, secrets: seq<Secret>, u: Secret, part: Secret)
    requires Clear(part) && part in secrets && Occurs(u, part)
    ensures !Occurs(RedactAll(text, secrets), u)
  {
    RedactAllHides(text, secrets, part);
    var r := RedactAll(text, secrets);
    var k :| At(u, part, k);
    if i :| At(r, u, i) {
      AtInside(r, u, i, part, k);
      assert false;
    }
  }

  lemma AtInside(text: Bytes, u: Bytes, i: int, part: Bytes, k: int)
    requires At(text, u, i) && At(u, part, k)
    ensures At(text, part, i + k)
  {
    var inner, outer := u[k..k + |part|], text[i + k..i + k + |part|];
    assert forall m :: 0 <= m < |part| ==> outer[m] == text[i..i + |u|][k + m];
    assert inner == outer;
  }

  // ----- where to cut

  /** The inner loop over the occurrences of one secret: the cut steps back in front of each
      one that it would split. */
  function CutForOne(buffer: Bytes, t: Secret, cut: nat, from: nat): (c: nat)
    requires from <= |buffer|
    ensures c <= cut
    decreases |buffer| - from
  {
    var o := Find(buffer, t, from);
    if o < 0 then cut else CutForOne(buffer, t, if Straddles(o, t, cut) then o else cut, o + 1)
  }

  function CutForAll(buffer: Bytes, secrets: seq<Secret>, cut: nat): (c: nat)
    ensures c <= cut
    decreases |secrets|
  {
    if secrets == [] then cut else CutForAll(buffer, secrets[1..], CutForOne(buffer, secrets[0], cut, 0))
  }

  predicate Apart(i: int, s: Bytes, j: int, u: Bytes) {
    i + |s| <= j || j + |u| <= i + |s|
  }

  /** No occurrence of `t` begins inside one of `s` and ends behind it. */
  ghost predicate NoneOverruns(text: Bytes, s: Bytes, t: Bytes) {
    forall i, j :: At(text, s, i) && At(text, t, j) && i < j ==> Apart(i, s, j, t)
  }

  /** The secret number `m` is overrun neither by itself nor by a later one. */
  ghost predicate NotOverrun(text: Bytes, secrets: seq<Secret>, m: nat)
    requires m < |secrets|
  {
    forall n :: m <= n < |secrets| ==> NoneOverruns(text, secrets[m], secrets[n])
  }

  /** So are all of them. */
  ghost predicate ApartInOrder(text: Bytes, secrets: seq<Secret>) {
    forall m :: 0 <= m < |secrets| ==> NotOverrun(text, secrets, m)
  }

  /** In whatever order: of two occurrences, either the second begins after the first ends, or it
      lies inside the first. */
  ghost predicate NestedOrDisjoint(text: Bytes, secrets: seq<Secret>) {
    forall s, u, i, j :: s in secrets && u in secrets && At(text, s, i) && At(text, u, j) && i < j ==>
      Apart(i, s, j, u)
  }

  /** The same of the secrets themselves, which can be checked when the log is opened: one does not
      end, properly, the way the other properly begins. */
  predicate NeverMeet(s: Bytes, u: Bytes) {
    forall k :: 0 < k < |s| && k < |u| ==> s[|s| - k..] != u[..k]
  }

  predicate NeverMeetsLater(secrets: seq<Secret>, m: nat)
    requires m < |secrets|
  {
    forall n :: m <= n < |secrets| ==> NeverMeet(secrets[m], secrets[n])
  }

  predicate NeverMeetInOrder(secrets: seq<Secret>) {
    forall m :: 0 <= m < |secrets| ==> NeverMeetsLater(secrets, m)
  }

  predicate NeverOverlap(secrets: seq<Secret>) {
    forall i, j :: 0 <= i < |secrets| && 0 <= j < |secrets| ==> NeverMeet(secrets[i], secrets[j])
  }

  lemma MeetingOverlaps(s: Bytes, u: Bytes, k: nat)
    requires 0 < k < |s| && k < |u| && s[|s| - k..] == u[..k]
    ensures At(s + u[k..], s, 0) && At(s + u[k..], u, |s| - k) && !Apart(0, s, |s| - k, u)
  {
    assert (s + u[k..])[|s| - k..|s| - k + |u|] == u[..k] + u[k..];
  }

  lemma OverlappingMeet(text: Bytes, s: Bytes, i: int, u: Bytes, j: int)
    requires At(text, s, i) && At(text, u, j) && i < j && !Apart(i, s, j, u)
    ensures !NeverMeet(s, u)
  {
    var k := i + |s| - j;
    assert text[i..i + |s|][|s| - k..] == text[j..i + |s|] == text[j..j + |u|][..k];
  }

  /** Two secrets never meet if and only if the second overruns the first in no text. */
  lemma NeverMeetMeansNoneOverruns(s: Secret, u: Secret)
    ensures NeverMeet(s, u) <==> forall text :: NoneOverruns(text, s, u)
  {
    if NeverMeet(s, u) {
      forall text, i, j | At(text, s, i) && At(text, u, j) && i < j ensures Apart(i, s, j, u) {
        if !Apart(i, s, j, u) { OverlappingMeet(text, s, i, u, j); }
      }
    } else {
      var k :| 0 < k < |s| && k < |u| && s[|s| - k..] == u[..k];
      MeetingOverlaps(s, u, k);
      assert !NoneOverruns(s + u[k..], s, u);
    }
  }

  /** So the test on the secrets is equivalent to what the loops need in every text. */
  lemma NeverMeetMeansApart(secrets: seq<Secret>)
    ensures NeverMeetInOrder(secrets) <==> forall text :: ApartInOrder(text, secrets)
  {
    if NeverMeetInOrder(secrets) {
      forall text, m, n | 0 <= m <= n < |secrets| ensures NoneOverruns(text, secrets[m], secrets[n]) {
        assert NeverMeetsLater(secrets, m);
        NeverMeetMeansNoneOverruns(secrets[m], secrets[n]);
      }
    } else {
      var m :| 0 <= m < |secrets| && !NeverMeetsLater(secrets, m);
      var n :| m <= n < |secrets| && !NeverMeet(secrets[m], secrets[n]);
      NeverMeetMeansNoneOverruns(secrets[m], secrets[n]);
      var text :| !NoneOverruns(text, secrets[m], secrets[n]);
      assert !NotOverrun(text, secrets, m);
      assert !ApartInOrder(text, secrets);
    }
  }

  /** And the test without regard to the order to separation in every text. */
  lemma NeverOverlapMeansSeparated(secrets: seq<Secret>)
    ensures NeverOverlap(secrets) <==> forall text :: NestedOrDisjoint(text, secrets)
  {
    if NeverOverlap(secrets) {
      forall text, s, u, i, j | s in secrets && u in secrets && At(text, s, i) && At(text, u, j) && i < j
        ensures Apart(i, s, j, u)
      {
        var m :| 0 <= m < |secrets| && secrets[m] == s;
        var n :| 0 <= n < |secrets| && secrets[n] == u;
        if !Apart(i, s, j, u) { OverlappingMeet(text, s, i, u, j); }
      }
    } else {
      var i, j :| 0 <= i < |secrets| && 0 <= j < |secrets| && !NeverMeet(secrets[i], secrets[j]);
      var s, u := secrets[i], secrets[j];
      var k :| 0 < k < |s| && k < |u| && s[|s| - k..] == u[..k];
      MeetingOverlaps(s, u, k);
      assert !NestedOrDisjoint(s + u[k..], secrets);
    }
  }

  lemma SeparatedIsApart(text: Bytes, secrets: seq<Secret>)
    requires NestedOrDisjoint(text, secrets)
    ensures ApartInOrder(text, secrets)
  {
    forall m, n | 0 <= m <= n < |secrets| ensures NoneOverruns(text, secrets[m], secrets[n]) {
      assert secrets[m] in secrets && secrets[n] in secrets;
    }
  }

  /** What a cut spares is still spared when the cut steps back in front of an occurrence it split:
      what the new cut splits would contain that occurrence, and the old cut would have split it. */
  lemma StepBackSpares(buffer: Bytes, s: Secret, i: int, t: Secret, o: int, cut: int)
    requires NoneOverruns(buffer, s, t)
    requires At(buffer, s, i) && At(buffer, t, o) && Straddles(o, t, cut) && !Straddles(i, s, cut)
    ensures !Straddles(i, s, o)
  {
    if i < o { assert Apart(i, s, o, t); }
  }

  /** The loop over a later secret keeps an earlier one spared. */
  lemma {:induction false} CutForOneKeeps(buffer: Bytes, s: Secret, t: Secret, cut: nat, from: nat)
    requires from <= |buffer| && NoneOverruns(buffer, s, t) && NoneStraddles(buffer, s, cut)
    ensures NoneStraddles(buffer, s, CutForOne(buffer, t, cut, from))
    decreases |buffer| - from
  {
    var o := Find(buffer, t, from);
    if o >= 0 {
      if Straddles(o, t, cut) {
        forall i | At(buffer, s, i) ensures !Straddles(i, s, o) { StepBackSpares(buffer, s, i, t, o, cut); }
      }
      CutForOneKeeps(buffer, s, t, if Straddles(o, t, cut) then o else cut, o + 1);
    }
  }

  /** The loop over a secret spares it. */
  lemma {:induction false} CutForOneSpares(buffer: Bytes, s: Secret, cut: nat, from: nat)
    requires from <= |buffer| && NoneOverruns(buffer, s, s)
    requires forall i :: i < from && At(buffer, s, i) ==> !Straddles(i, s, cut)
    ensures NoneStraddles(buffer, s, CutForOne(buffer, s, cut, from))
    decreases |buffer| - from
  {
    var o := Find(buffer, s, from);
    if o >= 0 {
      if Straddles(o, s, cut) {
        forall i | i < o && At(buffer, s, i) ensures !Straddles(i, s, o) { StepBackSpares(buffer, s, i, s, o, cut); }
      }
      CutForOneSpares(buffer, s, if Straddles(o, s, cut) then o else cut, o + 1);
    }
  }

  lemma {:induction false} CutForRestKeeps(buffer: Bytes, s: Secret, rest: seq<Secret>, cut: nat)
    requires (forall n :: 0 <= n < |rest| ==> NoneOverruns(buffer, s, rest[n])) && NoneStraddles(buffer, s, cut)
    ensures NoneStraddles(buffer, s, CutForAll(buffer, rest, cut))
    decreases |rest|
  {
    if rest != [] {
      CutForOneKeeps(buffer, s, rest[0], cut, 0);
      CutForRestKeeps(buffer, s, rest[1..], CutForOne(buffer, rest[0], cut, 0));
    }
  }

  /** The final cut spares each secret that neither itself nor a later one overruns. */
  lemma {:induction false} CutForAllSpares(buffer: Bytes, secrets: seq<Secret>, m: nat, cut: nat)
    requires m < |secrets| && NotOverrun(buffer, secrets, m)
    ensures NoneStraddles(buffer, secrets[m], CutForAll(buffer, secrets, cut))
    decreases |secrets|
  {
    var next, rest := CutForOne(buffer, secrets[0], cut, 0), secrets[1..];
    if m == 0 {
      CutForOneSpares(buffer, secrets[0], cut, 0);
      CutForRestKeeps(buffer, secrets[0], rest, next);
    } else {
      CutForAllSpares(buffer, rest, m - 1, next);
    }
  }

  /** So without such overlaps it is safe for every secret. */
  lemma CutForAllIsSafe(buffer: Bytes, secrets: seq<Secret>, cut: nat)
    requires ApartInOrder(buffer, secrets)
    ensures SafeCut(buffer, secrets, CutForAll(buffer, secrets, cut))
  {
    forall s | s in secrets ensures NoneStraddles(buffer, s, CutForAll(buffer, secrets, cut)) {
      var m :| 0 <= m < |secrets| && secrets[m] == s;
      CutForAllSpares(buffer, secrets, m, cut);
    }
  }

  lemma {:induction false} CutForOneIsLargest(buffer: Bytes, t: Secret, cut: nat, from: nat, p: nat)
    requires from <= |buffer| && p <= cut && NoneStraddles(buffer, t, p)
    ensures p <= CutForOne(buffer, t, cut, from)
    decreases |buffer| - from
  {
    var o := Find(buffer, t, from);
    if o >= 0 {
      assert !Straddles(o, t, p);
      CutForOneIsLargest(buffer, t, if Straddles(o, t, cut) then o else cut, o + 1, p);
    }
  }

  /** No safe position up to the wanted cut is passed over: nothing is held back needlessly. */
  lemma {:induction false} CutForAllIsLargest(buffer: Bytes, secrets: seq<Secret>, cut: nat, p: nat)
    requires p <= cut && SafeCut(buffer, secrets, p)
    ensures p <= CutForAll(buffer, secrets, cut)
    decreases |secrets|
  {
    if secrets != [] {
      assert secrets[0] in secrets;
      CutForOneIsLargest(buffer, secrets[0], cut, 0, p);
      CutForAllIsLargest(buffer, secrets[1..], CutForOne(buffer, secrets[0], cut, 0), p);
    }
  }
}
