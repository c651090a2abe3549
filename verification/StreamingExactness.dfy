/** Exactly when streaming redaction is what it is meant to be (infrastructure/logs.py:22-40): when
    the record is the redaction of the whole stream, and when no secret stands in it. */
module StreamingExactness {
  import opened Prelude
  import opened Redaction
  import opened LogStream
  import opened RedactionOrder

  // ----- two writes

  /** A stream that is written at once and then closed, without a line that counts. */
  function TwoWrites(text: Bytes): seq<Chunk> {
    [Chunk(Stdout, text, false, 0)] + [Chunk(Stdout, [], true, 0)]
  }

  lemma TwoWritesAreClosed(text: Bytes)
    ensures LastIsLast(TwoWrites(text), Stdout) && Closed(TwoWrites(text), Stdout)
    ensures Data(TwoWrites(text), Stdout) == text
  {
    var writes := TwoWrites(text);
    assert writes[1..] == [Chunk(Stdout, [], true, 0)] && writes[1..][1..] == [];
    assert writes[1].stream == Stdout && writes[1].last;
    assert Data(writes[1..], Stdout) == [] + [] == [] && text + [] == text;
  }

  lemma AfterOne(secrets: seq<Secret>, limit: nat, log: Log, b: Chunk)
    ensures AfterAll(secrets, limit, log, [b]) == After(secrets, limit, log, b)
    ensures NoneRaises(secrets, limit, log, [b]) <==> !Raises(secrets, limit, log, b)
  {
    assert [b][1..] == [];
  }

  lemma AfterTwo(secrets: seq<Secret>, limit: nat, log: Log, log1: Log, a: Chunk, b: Chunk)
    requires log1 == After(secrets, limit, log, a) && !Raises(secrets, limit, log, a)
    ensures AfterAll(secrets, limit, log, [a] + [b]) == After(secrets, limit, log1, b)
    ensures NoneRaises(secrets, limit, log, [a] + [b]) <==> !Raises(secrets, limit, log1, b)
  {
    assert ([a] + [b])[0] == a && ([a] + [b])[1..] == [b];
    AfterOne(secrets, limit, log1, b);
  }

  /** A write without size never breaks the limit. */
  lemma NoSizeNoRaise(secrets: seq<Secret>, limit: nat, log: Log, w: Chunk)
    requires w.size == 0 && log.written == 0
    ensures !Raises(secrets, limit, log, w) && After(secrets, limit, log, w).written == 0
  {
  }

  /** Its record: what comes before the first cut and what comes behind it, redacted each. */
  lemma TwoWritesRecord(secrets: seq<Secret>, limit: nat, text: Bytes)
    ensures NoneRaises(secrets, limit, EMPTY, TwoWrites(text))
    ensures var cut := Cut(text, secrets, false);
      Recorded(AfterAll(secrets, limit, EMPTY, TwoWrites(text)).lines, Stdout)
      == RedactAll(text[..cut], secrets) + RedactAll(text[cut..], secrets)
  {
    var a, b := Chunk(Stdout, text, false, 0), Chunk(Stdout, [], true, 0);
    var cut, log1 := Cut(text, secrets, false), After(secrets, limit, EMPTY, a);
    NoSizeNoRaise(secrets, limit, EMPTY, a);
    NoSizeNoRaise(secrets, limit, log1, b);
    AfterTwo(secrets, limit, EMPTY, log1, a, b);
    assert [] + text == text;
    WriteRecords(secrets, limit, EMPTY, a, Stdout);
    assert text[cut..] + [] == text[cut..];
    CutOfLast(text[cut..], secrets);
    assert text[cut..][..|text[cut..]|] == text[cut..];
    WriteRecords(secrets, limit, log1, b, Stdout);
    var first := RedactAll(text[..cut], secrets);
    assert [] + first == first;
  }

  // ----- what the loops do to the cut

  lemma {:induction false} CutForOneStays(buffer: Bytes, t: Secret, cut: nat, from: nat)
    requires from <= |buffer| && forall j :: j >= from && At(buffer, t, j) ==> !Straddles(j, t, cut)
    ensures CutForOne(buffer, t, cut, from) == cut
    decreases |buffer| - from
  {
    var o := Find(buffer, t, from);
    if o >= 0 { CutForOneStays(buffer, t, cut, o + 1); }
  }

  /** An occurrence that straddles the cut is reached or passed. */
  lemma {:induction false} CutForOneReaches(buffer: Bytes, t: Secret, cut: nat, from: nat, o: nat)
    requires from <= o <= |buffer| && At(buffer, t, o) && Straddles(o, t, cut)
    ensures CutForOne(buffer, t, cut, from) <= o
    decreases |buffer| - from
  {
    var f := Find(buffer, t, from);
    if f < o && !Straddles(f, t, cut) { CutForOneReaches(buffer, t, cut, f + 1, o); }
  }

  /** It is reached exactly, if no occurrence before it straddles the cut. */
  lemma {:induction false} CutForOneIs(buffer: Bytes, t: Secret, cut: nat, from: nat, o: nat)
    requires from <= o <= |buffer| && At(buffer, t, o) && Straddles(o, t, cut)
    requires forall j :: from <= j < o && At(buffer, t, j) ==> !Straddles(j, t, cut)
    ensures CutForOne(buffer, t, cut, from) == o
    decreases |buffer| - from
  {
    var f := Find(buffer, t, from);
    if f < o { CutForOneIs(buffer, t, cut, f + 1, o); } else { CutForOneStays(buffer, t, o, o + 1); }
  }

  /** The cut does not step back to the beginning unless an occurrence there straddles it. */
  lemma {:induction false} CutForOneAdvances(buffer: Bytes, t: Secret, cut: nat, from: nat)
    requires from <= |buffer| && cut > 0 && (from > 0 || !At(buffer, t, 0) || !Straddles(0, t, cut))
    ensures CutForOne(buffer, t, cut, from) > 0
    decreases |buffer| - from
  {
    var f := Find(buffer, t, from);
    if f >= 0 { CutForOneAdvances(buffer, t, if Straddles(f, t, cut) then f else cut, f + 1); }
  }

  // ----- what redaction leaves in front

  /** `b` keeps the first `p` bytes of `a` and goes on with a marker, or it is `a`. */
  predicate KeepsThenMarks(a: Bytes, b: Bytes, p: nat) {
    p <= |a| && a[..p] <= b && ((p == |a| && b == a) || MARKER <= b[p..])
  }

  lemma {:induction false} ReplacedFrom(text: Bytes, t: Secret, o: nat)
    requires At(text, t, o) && forall i :: At(text, t, i) ==> i >= o
    ensures text[..o] <= Replace(text, t) && MARKER <= Replace(text, t)[o..]
    ensures Replace(text, t) == text[..o] + MARKER + Replace(text[o + |t|..], t)
  {
    KeptUntil(text, t, o);
    assert t <= text[o..] && text[o..][|t|..] == text[o + |t|..];
    Associative(text[..o], MARKER, Replace(text[o + |t|..], t));
  }

  lemma ReplaceKeepsForm(a: Bytes, b: Bytes, p: nat, t: Secret) returns (q: nat)
    requires Clear(t) && KeepsThenMarks(a, b, p)
    ensures KeepsThenMarks(a, Replace(b, t), q)
    ensures p > 0 && !(t <= b) ==> q > 0
  {
    var o := Find(b, t, 0);
    if o < 0 {
      AbsentIsKept(b, t);
      q := p;
    } else {
      ReplacedFrom(b, t, o);
      PrefixIsAt(b, t);
      if o < p {
        q := o;
        assert a[..o] == a[..p][..o] == b[..o];
      } else {
        q := p;
        BehindMarker(b, t, p, o);
      }
    }
  }

  /** An occurrence behind a point where a marker stands comes behind the marker. */
  lemma BehindMarker(b: Bytes, t: Secret, p: nat, o: nat)
    requires Clear(t) && At(b, t, o) && p <= o && MARKER <= b[p..] && (forall i :: At(b, t, i) ==> i >= o)
    ensures b[..p] <= Replace(b, t) && MARKER <= Replace(b, t)[p..]
  {
    assert At(b, MARKER, p) by { assert b[p..p + |MARKER|] == b[p..][..|MARKER|]; }
    ClearIsDisjoint(b, t, o, p);
    ReplacedFrom(b, t, o);
    var r := Replace(b, t);
    assert b[..o] == r[..o];
    assert r[p..][..|MARKER|] == r[..o][p..p + |MARKER|] == b[p..p + |MARKER|];
    assert b[..p] == b[..o][..p] == r[..p];
  }

  lemma {:induction false} RedactionKeepsForm(a: Bytes, b: Bytes, p: nat, secrets: seq<Secret>) returns (q: nat)
    requires AllClear(secrets) && KeepsThenMarks(a, b, p)
    ensures KeepsThenMarks(a, RedactAll(b, secrets), q)
    ensures p > 0 && (forall t :: t in secrets ==> !(t <= b)) ==> q > 0
    decreases |secrets|
  {
    if secrets == [] {
      q := p;
    } else {
      assert secrets[0] in secrets;
      q := ReplaceKeepsForm(a, b, p, secrets[0]);
      forall t | t in secrets[1..] && !(t <= b) ensures !(t <= Replace(b, secrets[0])) {
        if t <= Replace(b, secrets[0]) {
          assert t[0..] == t;
          ClearPrefix(b, secrets[0], t, 0);
        }
      }
      assert forall t :: t in secrets[1..] ==> t in secrets;
      q := RedactionKeepsForm(a, Replace(b, secrets[0]), q, secrets[1..]);
    }
  }

  /** A text that begins with a secret of the list, its first, is redacted to one that begins with
      a marker. */
  lemma {:induction false} MarkerStaysFirst(b: Bytes, secrets: seq<Secret>)
    requires AllClear(secrets) && MARKER <= b
    ensures MARKER <= RedactAll(b, secrets)
    decreases |secrets|
  {
    if secrets != [] {
      var t, o := secrets[0], Find(b, secrets[0], 0);
      assert b[0..] == b;
      if o < 0 { AbsentIsKept(b, t); } else { BehindMarker(b, t, 0, o); }
      assert Replace(b, t)[0..] == Replace(b, t);
      MarkerStaysFirst(Replace(b, t), secrets[1..]);
    }
  }

  lemma FirstIsMarked(text: Bytes, secrets: seq<Secret>)
    requires AllClear(secrets) && secrets != [] && secrets[0] <= text
    ensures MARKER <= RedactAll(text, secrets)
  {
    ReplacedHead(text, secrets[0]);
    MarkerStaysFirst(Replace(text, secrets[0]), secrets[1..]);
  }

  lemma MarkerOnce(r: Bytes, p: nat)
    requires 0 < p < |MARKER| && p <= |r|
    ensures MARKER <= r ==> !(MARKER <= r[p..])
  {
    assert MARKER[p] != MARKER[0];
    assert p < |r| ==> r[p..][0] == r[p];
  }

  lemma FrontAgrees(text: Bytes, s: Bytes)
    requires s <= text && MARKER <= text
    ensures !Differs(s, 0)
  {
    forall k | 0 <= k < |MARKER| && 0 <= k < 0 + |s| ensures MARKER[k] == s[k - 0] {
      assert text[k] == s[k] && text[k] == MARKER[k];
    }
  }

  /** A text of which a byte or more is kept in front does not begin with a marker, if it began with
      a secret that cannot overlap one. */
  lemma KeptIsNotMarked(text: Bytes, s: Secret, r: Bytes, p: nat)
    requires Clear(s) && s <= text && p > 0 && KeepsThenMarks(text, r, p)
    ensures !(MARKER <= r)
  {
    if p < |MARKER| {
      MarkerOnce(r, p);
    } else if MARKER <= r {
      assert MARKER == r[..p][..|MARKER|] == text[..|MARKER|];
      FrontAgrees(text, s);
      assert false;
    }
  }

  lemma FormsJoin(text: Bytes, r: nat, a: Bytes, p: nat, b: Bytes, q: nat) returns (n: nat)
    requires r <= |text| && KeepsThenMarks(text[..r], a, p) && KeepsThenMarks(text[r..], b, q)
    ensures n >= p && KeepsThenMarks(text, a + b, n)
  {
    if p == r && a == text[..r] {
      n := r + q;
      assert (a + b)[..n] == a + b[..q] == text[..r] + text[r..][..q] == text[..n];
      assert (a + b)[n..] == b[q..];
      assert text == text[..r] + text[r..];
    } else {
      n := p;
      assert text[..p] == text[..r][..p] == a[..p] == (a + b)[..p];
      assert a[p..] <= (a + b)[p..];
    }
  }

  // ----- the record of a stream is the redaction of the stream

  /** The list is taken from the secrets, in their order, from these places. */
  ghost predicate TakenAt(list: seq<Secret>, secrets: seq<Secret>, places: seq<nat>) {
    && |places| == |list| && (forall i :: 0 <= i < |list| ==> places[i] < |secrets| && secrets[places[i]] == list[i])
    && forall i, j :: 0 <= i < j < |list| ==> places[i] < places[j]
  }

  ghost predicate Taken(list: seq<Secret>, secrets: seq<Secret>) {
    exists places :: TakenAt(list, secrets, places)
  }

  ghost predicate RecordedAsWhole(list: seq<Secret>, limit: nat, writes: seq<Chunk>, x: Stream) {
    LastIsLast(writes, x) && Closed(writes, x) && NoneRaises(list, limit, EMPTY, writes) ==>
      Recorded(AfterAll(list, limit, EMPTY, writes).lines, x) == RedactAll(Data(writes, x), list)
  }

  /** Every closed stream that breaks no limit is recorded as its redaction. */
  ghost predicate Exact(list: seq<Secret>) {
    forall limit, writes, x :: RecordedAsWhole(list, limit, writes, x)
  }

  /** Either a secret that meets itself, alone, or one that does not, with another that it meets. */
  predicate Meeting(list: seq<Secret>, s: Secret, u: Secret, k: nat) {
    && 0 < k < |s| && k < |u| && s[|s| - k..] == u[..k]
    && ((list == [s] && u == s) || (list == [s, u] && NeverMeet(s, s)))
  }

  lemma MeetingIsNoPrefix(list: seq<Secret>, s: Secret, u: Secret, k: nat, text: Bytes)
    requires Meeting(list, s, u, k) && list == [s, u] && s <= text
    ensures !(u <= text)
  {
    assert s[..k] == text[..k] && s[..k] != s[|s| - k..];
    PrefixesAgree(text, u, k);
  }

  lemma PrefixesAgree(text: Bytes, u: Bytes, k: nat)
    requires k <= |u| && k <= |text|
    ensures u <= text ==> u[..k] == text[..k]
  {
  }

  /** The two overlapping, and so much behind them that the first cut is wanted between them. */
  function MeetingText(list: seq<Secret>, s: Secret, u: Secret, k: nat): (text: Bytes)
    requires Meeting(list, s, u, k)
    ensures |text| == |s| + Keep(list) && s <= text && At(text, u, |s| - k)
  {
    assert u in list;
    var pad := seq(Keep(list) + k - |u|, _ => 0);
    var text := s + u[k..] + pad;
    MeetingOverlaps(s, u, k);
    AtConcat(s + u[k..], pad, u, |s| - k);
    text
  }

  lemma CutOfList(buffer: Bytes, list: seq<Secret>, cut: nat)
    ensures |list| == 1 ==> CutForAll(buffer, list, cut) == CutForOne(buffer, list[0], cut, 0)
    ensures |list| == 2 ==>
      CutForAll(buffer, list, cut) == CutForOne(buffer, list[1], CutForOne(buffer, list[0], cut, 0), 0)
  {
  }

  lemma NoOtherStraddles(text: Bytes, s: Secret)
    requires s <= text && NeverMeet(s, s)
    ensures NoneStraddles(text, s, |s|)
  {
    PrefixIsAt(text, s);
    forall j | At(text, s, j) ensures !Straddles(j, s, |s|) {
      if 0 < j < |s| {
        OverlappingMeet(text, s, 0, s, j);
        assert false;
      }
    }
  }

  /** The loops then cut through the first. */
  lemma MeetingIsCut(list: seq<Secret>, s: Secret, u: Secret, k: nat)
    requires Meeting(list, s, u, k)
    ensures 0 < Cut(MeetingText(list, s, u, k), list, false) < |s|
  {
    var text := MeetingText(list, s, u, k);
    assert WantedCut(text, list, false) == |s|;
    CutOfList(text, list, |s|);
    if list == [s, u] {
      NoOtherStraddles(text, s);
      CutForOneStays(text, s, |s|, 0);
      PrefixIsAt(text, u);
      MeetingIsNoPrefix(list, s, u, k, text);
    }
    CutForOneReaches(text, u, |s|, 0, |s| - k);
    CutForOneAdvances(text, u, |s|, 0);
  }

  lemma NoneBegins(list: seq<Secret>, s: Secret, u: Secret, k: nat, text: Bytes, r: nat)
    requires Meeting(list, s, u, k) && s <= text && r < |s|
    ensures forall t :: t in list ==> !(t <= text[..r])
  {
    if list == [s, u] { MeetingIsNoPrefix(list, s, u, k, text); }
    forall t | t in list ensures !(t <= text[..r]) {
      assert t <= text[..r] ==> t <= text;
    }
  }

  /** A stream whose record is not its redaction: that would begin with a marker, and the record does
      not. */
  lemma OverlapsDiffer(list: seq<Secret>, s: Secret, u: Secret, k: nat, limit: nat)
    requires AllClear(list) && Meeting(list, s, u, k)
    ensures !RecordedAsWhole(list, limit, TwoWrites(MeetingText(list, s, u, k)), Stdout)
  {
    var text := MeetingText(list, s, u, k);
    var cut := Cut(text, list, false);
    MeetingIsCut(list, s, u, k);
    NoneBegins(list, s, u, k, text, cut);
    var p := RedactionKeepsForm(text[..cut], text[..cut], cut, list);
    var q := RedactionKeepsForm(text[cut..], text[cut..], |text| - cut, list);
    var n := FormsJoin(text, cut, RedactAll(text[..cut], list), p, RedactAll(text[cut..], list), q);
    assert s in list;
    KeptIsNotMarked(text, s, RedactAll(text[..cut], list) + RedactAll(text[cut..], list), n);
    FirstIsMarked(text, list);
    TwoWritesAreClosed(text);
    TwoWritesRecord(list, limit, text);
  }

  lemma TakenNeverMeets(list: seq<Secret>, secrets: seq<Secret>)
    requires Taken(list, secrets) && NeverMeetInOrder(secrets)
    ensures NeverMeetInOrder(list)
  {
    var places :| TakenAt(list, secrets, places);
    forall m, n | 0 <= m <= n < |list| ensures NeverMeet(list[m], list[n]) {
      assert NeverMeetsLater(secrets, places[m]);
      assert m < n ==> places[m] < places[n];
    }
  }

  lemma NeverMeetIsExact(list: seq<Secret>)
    requires AllClear(list) && NeverMeetInOrder(list)
    ensures Exact(list)
  {
    forall limit, writes, x ensures RecordedAsWhole(list, limit, writes, x) {
      if LastIsLast(writes, x) && Closed(writes, x) && NoneRaises(list, limit, EMPTY, writes) {
        NeverMeetMeansApart(list);
        assert ApartInOrder(Data(writes, x), list);
        StreamingRefinesWhole(list, limit, writes, x);
      }
    }
  }

  /** Of secrets that fail the test, one or two make a list that is not exact. */
  lemma MeetingInOrder(secrets: seq<Secret>) returns (list: seq<Secret>)
    requires AllClear(secrets) && !NeverMeetInOrder(secrets)
    ensures Taken(list, secrets) && !Exact(list)
  {
    var m :| 0 <= m < |secrets| && !NeverMeetsLater(secrets, m);
    var n :| m <= n < |secrets| && !NeverMeet(secrets[m], secrets[n]);
    var s := secrets[m];
    var u := if NeverMeet(s, s) then secrets[n] else s;
    list := if NeverMeet(s, s) then [s, u] else [s];
    assert TakenAt(list, secrets, if NeverMeet(s, s) then [m, n] else [m]);
    var k :| 0 < k < |s| && k < |u| && s[|s| - k..] == u[..k];
    assert forall t :: t in list ==> t in secrets;
    OverlapsDiffer(list, s, u, k, 0);
  }

  /** Exactly when streaming is exact for whatever is taken of the secrets, in their order: when
      none ends the way it or a later one begins. */
  lemma ExactExactlyWhen(secrets: seq<Secret>)
    requires AllClear(secrets)
    ensures NeverMeetInOrder(secrets) <==> forall list :: Taken(list, secrets) ==> Exact(list)
  {
    if NeverMeetInOrder(secrets) {
      forall list | Taken(list, secrets) ensures Exact(list) {
        TakenNeverMeets(list, secrets);
        var places :| TakenAt(list, secrets, places);
        assert forall t :: t in list ==> t in secrets;
        NeverMeetIsExact(list);
      }
    } else {
      var list := MeetingInOrder(secrets);
    }
  }

  /** What is taken of secrets that are longest first is longest first, so a log can be opened with
      it. */
  lemma TakenIsLongestFirst(list: seq<Secret>, secrets: seq<Secret>)
    requires Taken(list, secrets) && LongestFirst(secrets)
    ensures LongestFirst(list)
  {
    var places :| TakenAt(list, secrets, places);
    assert forall i, j :: 0 <= i < j < |list| ==> Chars(secrets[places[i]]) >= Chars(secrets[places[j]]);
  }

  // ----- no secret stands in the record of a stream

  /** The record of no stream contains the secret. */
  ghost predicate KeptOut(list: seq<Secret>, s: Secret) {
    forall limit, writes, x :: NotRecorded(list, s, limit, writes, x)
  }

  ghost predicate NotRecorded(list: seq<Secret>, s: Secret, limit: nat, writes: seq<Chunk>, x: Stream) {
    LastIsLast(writes, x) ==> !Occurs(Recorded(AfterAll(list, limit, EMPTY, writes).lines, x), s)
  }

  /** A list keeps a secret out that does not end the way it or a later one begins. */
  lemma NeverMeetsIsKeptOut(list: seq<Secret>, m: nat)
    requires m < |list| && Clear(list[m]) && NeverMeetsLater(list, m)
    ensures KeptOut(list, list[m])
  {
    forall limit, writes, x ensures NotRecorded(list, list[m], limit, writes, x) {
      if LastIsLast(writes, x) {
        forall n | m <= n < |list| ensures NoneOverruns(Data(writes, x), list[m], list[n]) {
          NeverMeetMeansNoneOverruns(list[m], list[n]);
        }
        RecordHidesSecrets(list, m, limit, writes, x);
      }
    }
  }

  function Filler(z: Byte, n: nat): (f: Bytes)
    ensures |f| == n && forall i :: 0 <= i < n ==> f[i] == z
  {
    seq(n, _ => z)
  }

  /** The end of a secret, and a byte that is not in it. */
  predicate SplitOff(s: Secret, k: nat, z: Byte) {
    0 < k < |s| && z !in s && z !in MARKER
  }

  function Longer(s: Secret, z: Byte): (v: Secret) {
    Filler(z, |s| + 1)
  }

  function Across(s: Secret, k: nat, z: Byte): (u: Secret)
    requires SplitOff(s, k, z)
  {
    s[|s| - k..] + [z]
  }

  /** A list that reveals the secret: first a longer one, `v`, and last one, `u`, that begins with
      the end of the secret and goes on with the beginning of `v`. */
  function Revealing(s: Secret, k: nat, z: Byte): seq<Secret>
    requires SplitOff(s, k, z)
  {
    [Longer(s, z), s, Across(s, k, z)]
  }

  lemma LongerIsOnce(s: Secret, z: Byte, front: Bytes)
    requires z !in front
    ensures var text := front + Longer(s, z);
      At(text, Longer(s, z), |front|) && forall j :: At(text, Longer(s, z), j) ==> j == |front|
  {
    var v := Longer(s, z);
    var text := front + v;
    assert forall q :: 0 <= q < |front| ==> text[q] == front[q];
    forall j | At(text, v, j) ensures j == |front| {
      assert text[j..j + |v|][0] == z;
    }
  }

  lemma SecretIsWhole(s: Secret, z: Byte)
    requires z !in s
    ensures NoneStraddles(s + Longer(s, z), s, |s|)
  {
    var text := s + Longer(s, z);
    forall j | At(text, s, j) ensures !Straddles(j, s, |s|) {
      assert text[j..j + |s|][|s| - 1] == s[|s| - 1];
    }
  }

  lemma AcrossIsOnce(s: Secret, k: nat, z: Byte)
    requires SplitOff(s, k, z)
    ensures var text := s + Longer(s, z);
      At(text, Across(s, k, z), |s| - k) && forall j :: At(text, Across(s, k, z), j) ==> j == |s| - k
  {
    var u, v := Across(s, k, z), Longer(s, z);
    var text := s + v;
    assert text[|s| - k..|s| + 1] == u;
    forall j | At(text, u, j) ensures j == |s| - k {
      var part := text[j..j + |u|];
      assert part[k] == z && part[k - 1] == s[|s| - 1] && part[k - 1] == text[j + k - 1] && part[k] == text[j + k];
    }
  }

  /** The cut steps in front of `v`, where it splits nothing, and then back into the secret, at which
      nobody looks again. */
  lemma RevealingCut(s: Secret, k: nat, z: Byte)
    requires SplitOff(s, k, z)
    ensures Cut(s + Longer(s, z), Revealing(s, k, z), false) == |s| - k
  {
    var v, u, list := Longer(s, z), Across(s, k, z), Revealing(s, k, z);
    var text := s + v;
    KeepOfRevealing(s, k, z);
    assert WantedCut(text, list, false) == |s| + 1;
    LongerIsOnce(s, z, s);
    CutForOneIs(text, v, |s| + 1, 0, |s|);
    SecretIsWhole(s, z);
    CutForOneStays(text, s, |s|, 0);
    AcrossIsOnce(s, k, z);
    CutForOneIs(text, u, |s|, 0, |s| - k);
    CutOfThree(text, v, s, u, |s| + 1);
  }

  lemma CutOfThree(buffer: Bytes, v: Secret, s: Secret, u: Secret, cut: nat)
    ensures CutForAll(buffer, [v, s, u], cut)
      == CutForOne(buffer, u, CutForOne(buffer, s, CutForOne(buffer, v, cut, 0), 0), 0)
  {
    assert [v, s, u][1..] == [s, u];
    CutOfList(buffer, [s, u], CutForOne(buffer, v, cut, 0));
  }

  lemma KeepOfRevealing(s: Secret, k: nat, z: Byte)
    requires SplitOff(s, k, z)
    ensures Keep(Revealing(s, k, z)) == |s|
  {
    var list := Revealing(s, k, z);
    assert list[1..] == [s, Across(s, k, z)] && list[1..][1..] == [Across(s, k, z)];
    assert [Across(s, k, z)][1..] == [];
    assert Keep([Across(s, k, z)]) == k && Keep(list[1..]) == |s| - 1;
  }

  lemma ByteIsThere(text: Bytes, t: Bytes, i: int, k: nat)
    requires At(text, t, i) && k < |t|
    ensures t[k] in text
  {
    assert text[i..i + |t|][k] == text[i + k];
  }

  lemma ByteIsMissing(text: Bytes, t: Bytes, z: Byte)
    requires z in t && z !in text
    ensures !Occurs(text, t)
  {
    var k :| 0 <= k < |t| && t[k] == z;
    forall i ensures !At(text, t, i) {
      if At(text, t, i) {
        ByteIsThere(text, t, i, k);
        assert false;
      }
    }
  }

  lemma FirstLineIsKept(s: Secret, k: nat, z: Byte)
    requires SplitOff(s, k, z)
    ensures RedactAll(s[..|s| - k], Revealing(s, k, z)) == s[..|s| - k]
  {
    var front, list := s[..|s| - k], Revealing(s, k, z);
    forall t | t in list ensures !Occurs(front, t) {
      if t != s {
        assert z in t by { assert t == Longer(s, z) ==> t[0] == z; assert t == Across(s, k, z) ==> t[k] == z; }
        ByteIsMissing(front, t, z);
      }
    }
    AbsentAreKept(front, list);
  }

  lemma SecondLineIsSplit(s: Secret, k: nat, z: Byte)
    requires SplitOff(s, k, z) && Clear(s)
    ensures RedactAll(s[|s| - k..] + Longer(s, z), Revealing(s, k, z)) == s[|s| - k..] + MARKER
  {
    var w, v, list := s[|s| - k..], Longer(s, z), Revealing(s, k, z);
    var r := w + MARKER;
    LongerIsOnce(s, z, w);
    ReplacedFrom(w + v, v, k);
    assert (w + v)[..k] == w && (w + v)[k + |v|..] == [];
    assert Replace([], v) == [] && w + MARKER + [] == r;
    assert !Occurs(r, s) by { EndIsNotWhole(s, k); }
    ByteIsMissing(r, Across(s, k, z), z) by { assert Across(s, k, z)[k] == z; }
    assert list[1..] == [s, Across(s, k, z)];
    AbsentAreKept(r, list[1..]);
  }

  lemma EndIsNotWhole(s: Secret, k: nat)
    requires Clear(s) && 0 < k < |s|
    ensures !Occurs(s[|s| - k..] + MARKER, s)
  {
    var r := s[|s| - k..] + MARKER;
    assert At(r, MARKER, k);
    forall i ensures !At(r, s, i) {
      if At(r, s, i) {
        ClearIsDisjoint(r, s, i, k);
        assert false;
      }
    }
  }

  lemma RevealingLines(s: Secret, k: nat, z: Byte, list: seq<Secret>, text: Bytes)
    requires SplitOff(s, k, z) && Clear(s) && list == Revealing(s, k, z) && text == s + Longer(s, z)
    ensures var cut := Cut(text, list, false);
      && RedactAll(text[..cut], list) == s[..|s| - k]
      && RedactAll(text[cut..], list) == s[|s| - k..] + MARKER
  {
    RevealingCut(s, k, z);
    TwoParts(s, |s| - k, Longer(s, z));
    FirstLineIsKept(s, k, z);
    SecondLineIsSplit(s, k, z);
  }

  /** The record is the secret, whole, and a marker. */
  lemma SecretIsRevealed(s: Secret, k: nat, z: Byte, limit: nat)
    requires SplitOff(s, k, z) && Clear(s)
    ensures Recorded(AfterAll(Revealing(s, k, z), limit, EMPTY, TwoWrites(s + Longer(s, z))).lines, Stdout) == s + MARKER
  {
    var front, end, list, text := s[..|s| - k], s[|s| - k..], Revealing(s, k, z), s + Longer(s, z);
    RevealingLines(s, k, z, list, text);
    TwoLines(list, limit, text, front, end + MARKER);
    assert front + (end + MARKER) == s + MARKER by {
      TwoParts(s, |s| - k, []);
      Associative(front, end, MARKER);
    }
  }

  lemma TwoParts(s: Bytes, q: nat, v: Bytes)
    requires q <= |s|
    ensures (s + v)[..q] == s[..q] && (s + v)[q..] == s[q..] + v && s[..q] + s[q..] == s
  {
  }

  lemma TwoLines(list: seq<Secret>, limit: nat, text: Bytes, a: Bytes, b: Bytes)
    requires var cut := Cut(text, list, false); RedactAll(text[..cut], list) == a && RedactAll(text[cut..], list) == b
    ensures Recorded(AfterAll(list, limit, EMPTY, TwoWrites(text)).lines, Stdout) == a + b
  {
    TwoWritesRecord(list, limit, text);
  }

  /** The redaction of the whole stream hides it. */
  lemma RevealingLosesWhatRedactionHides(s: Secret, k: nat, z: Byte)
    requires SplitOff(s, k, z) && Clear(s)
    ensures s in Revealing(s, k, z) && !KeptOut(Revealing(s, k, z), s)
    ensures !Occurs(RedactAll(s + Longer(s, z), Revealing(s, k, z)), s)
  {
    var list, text := Revealing(s, k, z), s + Longer(s, z);
    assert list[1] == s;
    RedactAllHides(text, list, s);
    TwoWritesAreClosed(text);
    SecretIsRevealed(s, k, z, 0);
    assert At(s + MARKER, s, 0);
    assert !NotRecorded(list, s, 0, TwoWrites(text), Stdout);
  }

  /** A secret that cannot overlap a marker is kept out of every record by every list it is on if and
      only if it is a single byte. */
  lemma KeptOutExactlyWhenByte(s: Secret, z: Byte)
    requires Clear(s) && z !in s && z !in MARKER
    ensures |s| == 1 <==> forall list :: s in list ==> KeptOut(list, s)
  {
    if |s| == 1 {
      forall list | s in list ensures KeptOut(list, s) {
        var m :| 0 <= m < |list| && list[m] == s;
        NeverMeetsIsKeptOut(list, m);
      }
    } else {
      RevealingLosesWhatRedactionHides(s, 1, z);
    }
  }

  // ----- the same of secrets that are encoded text

  /** What a log can be opened with: distinct secrets of whole characters, longest first. */
  ghost predicate OfText(list: seq<Secret>) {
    LongestFirst(list) && Distinct(list) && forall t :: t in list ==> WholeCharacters(t)
  }

  lemma {:induction false} NoCharacters(s: Bytes)
    requires Chars(s) == 0
    ensures forall j :: 0 <= j < |s| ==> IsContinuation(s[j])
    decreases |s|
  {
    if s != [] {
      NoCharacters(s[1..]);
      assert forall j :: 1 <= j < |s| ==> s[j] == s[1..][j - 1];
    }
  }

  /** No text begins inside a character. */
  lemma OneCharacterMeetsNone(s: Secret, u: Secret)
    requires WholeCharacters(s) && WholeCharacters(u) && Chars(s) == 1
    ensures NeverMeet(s, u)
  {
    NoCharacters(s[1..]);
    forall k | 0 < k < |s| && k < |u| ensures s[|s| - k..] != u[..k] {
      assert IsContinuation(s[1..][|s| - k - 1]);
      assert s[|s| - k..][0] == s[1..][|s| - k - 1] && u[..k][0] == u[0];
    }
  }

  lemma {:induction false} AtMostBytes(s: Bytes)
    ensures Chars(s) <= |s|
    decreases |s|
  {
    if s != [] { AtMostBytes(s[1..]); }
  }

  lemma {:induction false} OnlyContinuations(s: Bytes)
    requires forall j :: 0 <= j < |s| ==> IsContinuation(s[j])
    ensures Chars(s) == 0
    decreases |s|
  {
    if s != [] { OnlyContinuations(s[1..]); }
  }

  /** The last character begins `k` bytes before the end. */
  lemma {:induction false} LastCharacter(s: Bytes) returns (k: nat)
    requires WholeCharacters(s) && s != []
    ensures 0 < k <= |s| && WholeCharacters(s[|s| - k..]) && Chars(s[|s| - k..]) == 1
    decreases |s|
  {
    var n := Width(s[0]);
    if n == |s| {
      k := n;
      assert s[0..] == s;
      assert forall j :: 0 <= j < |s[1..]| ==> s[1..][j] == s[j + 1];
      OnlyContinuations(s[1..]);
    } else {
      k := LastCharacter(s[n..]);
      assert s[n..][|s| - n - k..] == s[|s| - k..];
    }
  }

  lemma WholeFirst(a: Bytes, b: Bytes, n: nat)
    requires n <= |a|
    ensures (a + b)[n..] == a[n..] + b && forall k :: 0 <= k < n ==> (a + b)[k] == a[k]
  {
  }

  lemma {:induction false} WholeConcat(a: Bytes, b: Bytes)
    requires WholeCharacters(a) && WholeCharacters(b)
    ensures WholeCharacters(a + b)
    decreases |a|
  {
    if a == [] {
      assert a + b == b;
    } else {
      var n := Width(a[0]);
      WholeConcat(a[n..], b);
      WholeFirst(a, b, n);
    }
  }

  lemma {:induction false} FillerIsWhole(z: Byte, n: nat)
    requires z < 0x80
    ensures WholeCharacters(Filler(z, n)) && Chars(Filler(z, n)) == n
    decreases n
  {
    if n > 0 {
      FillerIsWhole(z, n - 1);
      assert Filler(z, n)[1..] == Filler(z, n - 1);
    }
  }

  lemma AcrossIsWhole(s: Secret, k: nat, z: Byte)
    requires SplitOff(s, k, z) && z < 0x80 && WholeCharacters(s[|s| - k..]) && Chars(s[|s| - k..]) == 1
    ensures WholeCharacters(Across(s, k, z)) && Chars(Across(s, k, z)) == 2
  {
    FillerIsWhole(z, 1);
    assert Filler(z, 1) == [z];
    WholeConcat(s[|s| - k..], [z]);
    CharsConcat(s[|s| - k..], [z]);
  }

  lemma ThreeAreOfText(v: Secret, s: Secret, u: Secret)
    requires WholeCharacters(v) && WholeCharacters(s) && WholeCharacters(u) && Chars(v) >= Chars(s) >= Chars(u)
    requires v != s && s != u && v != u
    ensures OfText([v, s, u])
  {
    var list: seq<Secret> := [v, s, u];
    assert list[0] == v && list[1] == s && list[2] == u;
  }

  lemma ThreeAreDistinct(s: Secret, k: nat, z: Byte)
    requires SplitOff(s, k, z)
    ensures Longer(s, z) != s && s != Across(s, k, z) && Longer(s, z) != Across(s, k, z)
  {
    assert z in Across(s, k, z) by { assert Across(s, k, z)[k] == z; }
  }

  lemma RevealingIsOfText(s: Secret, k: nat, z: Byte)
    requires SplitOff(s, k, z) && z < 0x80 && WholeCharacters(s) && Chars(s) >= 2
    requires WholeCharacters(s[|s| - k..]) && Chars(s[|s| - k..]) == 1
    ensures OfText(Revealing(s, k, z))
  {
    AcrossIsWhole(s, k, z);
    FillerIsWhole(z, |s| + 1);
    AtMostBytes(s);
    ThreeAreDistinct(s, k, z);
    ThreeAreOfText(Longer(s, z), s, Across(s, k, z));
  }

  /** A secret that cannot overlap a marker is kept out of every record by every list that a log can
      be opened with if and only if it is a single character. */
  lemma KeptOutExactlyWhenCharacter(s: Secret, z: Byte)
    requires Clear(s) && WholeCharacters(s) && z < 0x80 && z !in s && z !in MARKER
    ensures Chars(s) == 1 <==> forall list :: OfText(list) && s in list ==> KeptOut(list, s)
  {
    if Chars(s) == 1 {
      forall list | OfText(list) && s in list ensures KeptOut(list, s) {
        var m :| 0 <= m < |list| && list[m] == s;
        forall n | m <= n < |list| ensures NeverMeet(s, list[n]) { OneCharacterMeetsNone(s, list[n]); }
        NeverMeetsIsKeptOut(list, m);
      }
    } else {
      var k := LastCharacter(s);
      assert s[0..] == s;
      WholeHasOne(s);
      RevealingIsOfText(s, k, z);
      RevealingLosesWhatRedactionHides(s, k, z);
    }
  }
}
