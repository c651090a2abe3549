/** The captured log of a run (infrastructure/logs.py): interleaved writes to two streams, each
    redacted in pieces with a bounded tail held back, under one limit on what is recorded. */
module LogStream {
  import opened Prelude
  import opened Redaction

  datatype Stream = Stdout | Stderr

  /** `size` is the length of the log line the write would record; rendering lines is not part
      of the model. */
  datatype Chunk = Chunk(stream: Stream, data: Bytes, last: bool, size: nat)

  datatype Line = Line(stream: Stream, text: Bytes, size: nat)

  datatype Log = Log(pending: map<Stream, Bytes>, written: nat, lines: seq<Line>)

  const NONE_HELD: map<Stream, Bytes> := map[Stdout := [], Stderr := []]

  const EMPTY := Log(NONE_HELD, 0, [])

  function Pending(log: Log, x: Stream): Bytes {
    if x in log.pending then log.pending[x] else []
  }

  function WithPending(log: Log, x: Stream, held: Bytes): Log {
    log.(pending := log.pending[x := held])
  }

  // ----- the order of the secrets

  predicate IsContinuation(b: Byte) {
    0x80 <= b < 0xC0
  }

  /** The length of an encoded character by its first byte. */
  function Width(lead: Byte): nat {
    if lead < 0x80 then 1 else if lead < 0xE0 then 2 else if lead < 0xF0 then 3 else 4
  }

  /** Whole characters, each a first byte and its continuation bytes (UTF-8). */
  ghost predicate WholeCharacters(s: Bytes)
    decreases |s|
  {
    s == [] || (
      && !IsContinuation(s[0]) && Width(s[0]) <= |s|
      && (forall k :: 1 <= k < Width(s[0]) ==> IsContinuation(s[k]))
      && WholeCharacters(s[Width(s[0])..]))
  }

  /** The length of the secret as the program sees it: in characters. */
  function Chars(s: Bytes): nat {
    if s == [] then 0 else (if IsContinuation(s[0]) then 0 else 1) + Chars(s[1..])
  }

  predicate LongestFirst(secrets: seq<Secret>) {
    forall i, j :: 0 <= i < j < |secrets| ==> Chars(secrets[i]) >= Chars(secrets[j])
  }

  /** Inserts behind all that are at least as long. */
  function Insert(s: Secret, sorted: seq<Secret>): (r: seq<Secret>)
    requires LongestFirst(sorted)
    ensures LongestFirst(r) && |r| == |sorted| + 1
    ensures forall u :: u in r <==> u == s || u in sorted
    decreases |sorted|
  {
    if sorted == [] then [s]
    else if Chars(sorted[0]) < Chars(s) then [s] + sorted
    else
      var tail := Insert(s, sorted[1..]);
      assert forall u :: u in tail ==> u == s || u in sorted[1..];
      assert forall j :: 0 <= j < |tail| ==> tail[j] in tail;
      assert forall u :: u in sorted <==> u == sorted[0] || u in sorted[1..];
      [sorted[0]] + tail
  }

  /** `sorted(set(secrets), key=len, reverse=True)` without the empty one. */
  function Ordered(secrets: seq<Bytes>): (r: seq<Secret>)
    ensures LongestFirst(r)
    ensures forall s: Secret :: s in r <==> s in secrets
    decreases |secrets|
  {
    if secrets == [] then []
    else
      var tail := Ordered(secrets[1..]);
      assert forall s: Secret :: s in secrets <==> s == secrets[0] || s in secrets[1..];
      if secrets[0] == [] || secrets[0] in tail then tail else Insert(secrets[0], tail)
  }

  /** How much is held back: one byte less than the longest secret. */
  function Keep(secrets: seq<Secret>): (k: nat)
    ensures forall s :: s in secrets ==> |s| <= k + 1
    decreases |secrets|
  {
    if secrets == [] then 0
    else
      var k := Keep(secrets[1..]);
      assert forall s :: s in secrets ==> s == secrets[0] || s in secrets[1..];
      if |secrets[0]| - 1 > k then |secrets[0]| - 1 else k
  }

  /** And no more than is needed for the longest of them. */
  lemma {:induction false} KeepIsNeeded(secrets: seq<Secret>)
    ensures Keep(secrets) > 0 ==> exists s :: s in secrets && |s| == Keep(secrets) + 1
    decreases |secrets|
  {
    if secrets != [] {
      KeepIsNeeded(secrets[1..]);
      assert secrets[0] in secrets;
    }
  }

  // ----- one write

  function WantedCut(buffer: Bytes, secrets: seq<Secret>, last: bool): (c: nat)
    ensures c <= |buffer|
  {
    if last then |buffer| else if |buffer| > Keep(secrets) then |buffer| - Keep(secrets) else 0
  }

  function Cut(buffer: Bytes, secrets: seq<Secret>, last: bool): (c: nat)
    ensures c <= |buffer|
  {
    CutForAll(buffer, secrets, WantedCut(buffer, secrets, last))
  }

  /** What a write releases, redacted. */
  function Ready(secrets: seq<Secret>, log: Log, w: Chunk): Bytes {
    var buffer := Pending(log, w.stream) + w.data;
    RedactAll(buffer[..Cut(buffer, secrets, w.last)], secrets)
  }

  /** Records a line unless there is nothing to record or the limit is broken; what breaks the
      limit is still counted. */
  function Recording(limit: nat, log: Log, x: Stream, ready: Bytes, size: nat): Log {
    if ready == [] then log
    else if log.written + size > limit then log.(written := log.written + size)
    else log.(written := log.written + size, lines := log.lines + [Line(x, ready, size)])
  }

  /** What a write holds back. */
  function Held(secrets: seq<Secret>, log: Log, w: Chunk): Bytes {
    var buffer := Pending(log, w.stream) + w.data;
    buffer[Cut(buffer, secrets, w.last)..]
  }

  /** The log after a write. The tail is set aside before the limit is looked at. */
  function After(secrets: seq<Secret>, limit: nat, log: Log, w: Chunk): Log {
    Recording(limit, WithPending(log, w.stream, Held(secrets, log, w)), w.stream, Ready(secrets, log, w), w.size)
  }

  /** A write raises `OUTPUT_LIMIT` when it has something to record and takes the total beyond
      the limit. */
  predicate Raises(secrets: seq<Secret>, limit: nat, log: Log, w: Chunk) {
    Ready(secrets, log, w) != [] && log.written + w.size > limit
  }

  function AfterAll(secrets: seq<Secret>, limit: nat, log: Log, writes: seq<Chunk>): Log
    decreases |writes|
  {
    if writes == [] then log else AfterAll(secrets, limit, After(secrets, limit, log, writes[0]), writes[1..])
  }

  // ----- what was written and what was recorded

  function Data(writes: seq<Chunk>, x: Stream): Bytes {
    if writes == [] then []
    else (if writes[0].stream == x then writes[0].data else []) + Data(writes[1..], x)
  }

  function Recorded(lines: seq<Line>, x: Stream): Bytes {
    if lines == [] then []
    else
      var line := lines[|lines| - 1];
      Recorded(lines[..|lines| - 1], x) + (if line.stream == x then line.text else [])
  }

  predicate NothingFor(writes: seq<Chunk>, x: Stream) {
    forall i :: 0 <= i < |writes| ==> writes[i].stream != x
  }

  /** Only the last write to the stream is marked as the last one. */
  predicate LastIsLast(writes: seq<Chunk>, x: Stream) {
    writes == [] || (
      && (writes[0].stream == x && writes[0].last ==> NothingFor(writes[1..], x))
      && LastIsLast(writes[1..], x))
  }

  predicate Closed(writes: seq<Chunk>, x: Stream) {
    exists i :: 0 <= i < |writes| && writes[i].stream == x && writes[i].last
  }

  ghost predicate WellSeparated(text: Bytes, secrets: seq<Secret>) {
    AllClear(secrets) && ApartInOrder(text, secrets)
  }

  lemma NothingMeansNoData(writes: seq<Chunk>, x: Stream)
    requires NothingFor(writes, x)
    ensures Data(writes, x) == []
  {
    if writes != [] {
      assert writes[0].stream != x;
      forall i | 0 <= i < |writes[1..]| ensures writes[1..][i].stream != x { assert writes[i + 1].stream != x; }
      NothingMeansNoData(writes[1..], x);
    }
  }

  // ----- the cut is safe in the whole stream

  lemma PartsAreNotOverrun(a: Bytes, b: Bytes, secrets: seq<Secret>, m: nat)
    requires m < |secrets| && NotOverrun(a + b, secrets, m)
    ensures NotOverrun(a, secrets, m) && NotOverrun(b, secrets, m)
  {
    var s := secrets[m];
    forall n, i, j | m <= n < |secrets| && At(a, s, i) && At(a, secrets[n], j) && i < j
      ensures Apart(i, s, j, secrets[n])
    {
      AtConcat(a, b, s, i);
      AtConcat(a, b, secrets[n], j);
      assert NoneOverruns(a + b, s, secrets[n]);
    }
    forall n, i, j | m <= n < |secrets| && At(b, s, i) && At(b, secrets[n], j) && i < j
      ensures Apart(i, s, j, secrets[n])
    {
      AtConcat(a, b, s, i + |a|);
      AtConcat(a, b, secrets[n], j + |a|);
      assert NoneOverruns(a + b, s, secrets[n]) && Apart(i + |a|, s, j + |a|, secrets[n]);
    }
  }

  lemma SuffixIsApart(a: Bytes, b: Bytes, secrets: seq<Secret>)
    requires ApartInOrder(a + b, secrets)
    ensures ApartInOrder(b, secrets)
  {
    forall m | 0 <= m < |secrets| ensures NotOverrun(b, secrets, m) {
      assert NotOverrun(a + b, secrets, m);
      PartsAreNotOverrun(a, b, secrets, m);
    }
  }

  /** What has not arrived yet cannot complete a secret that begins before the cut: so much of
      the tail is held back. The cut spares a secret that neither itself nor a later one overruns. */
  lemma CutSpares(buffer: Bytes, future: Bytes, secrets: seq<Secret>, last: bool, m: nat)
    requires m < |secrets| && NotOverrun(buffer + future, secrets, m) && (last ==> future == [])
    ensures NoneStraddles(buffer + future, secrets[m], Cut(buffer, secrets, last))
  {
    var s, cut := secrets[m], Cut(buffer, secrets, last);
    PartsAreNotOverrun(buffer, future, secrets, m);
    CutForAllSpares(buffer, secrets, m, WantedCut(buffer, secrets, last));
    assert s in secrets;
    forall i | At(buffer + future, s, i) ensures !Straddles(i, s, cut) {
      if i < cut {
        assert i + |s| <= |buffer| by { if !last { assert i < |buffer| - Keep(secrets); } }
        AtConcat(buffer, future, s, i);
      }
    }
  }

  lemma CutIsSafe(buffer: Bytes, future: Bytes, secrets: seq<Secret>, last: bool)
    requires ApartInOrder(buffer + future, secrets) && (last ==> future == [])
    ensures SafeCut(buffer + future, secrets, Cut(buffer, secrets, last))
  {
    forall s | s in secrets ensures NoneStraddles(buffer + future, s, Cut(buffer, secrets, last)) {
      var m :| 0 <= m < |secrets| && secrets[m] == s;
      assert NotOverrun(buffer + future, secrets, m);
      CutSpares(buffer, future, secrets, last, m);
    }
  }

  /** The last write holds nothing back. */
  lemma CutOfLast(buffer: Bytes, secrets: seq<Secret>)
    ensures Cut(buffer, secrets, true) == |buffer|
  {
    forall s, i | s in secrets && At(buffer, s, i) ensures !Straddles(i, s, |buffer|) {}
    CutForAllIsLargest(buffer, secrets, |buffer|, |buffer|);
  }

  /** A write divides its stream at a place where redaction can be divided too. */
  lemma WriteDivides(secrets: seq<Secret>, buffer: Bytes, future: Bytes, last: bool)
    requires WellSeparated(buffer + future, secrets) && (last ==> future == [])
    ensures var cut := Cut(buffer, secrets, last);
      && WellSeparated(buffer[cut..] + future, secrets)
      && RedactAll(buffer + future, secrets)
        == RedactAll(buffer[..cut], secrets) + RedactAll(buffer[cut..] + future, secrets)
  {
    var cut := Cut(buffer, secrets, last);
    var head, tail := buffer[..cut], buffer[cut..] + future;
    assert buffer + future == head + tail;
    CutIsSafe(buffer, future, secrets, last);
    SuffixIsApart(head, tail, secrets);
    RedactAllSplits(head, tail, secrets);
  }

  lemma RecordingAdds(limit: nat, log: Log, w: Stream, ready: Bytes, size: nat, x: Stream)
    ensures Recorded(Recording(limit, log, w, ready, size).lines, x) == Recorded(log.lines, x)
      + (if x == w && !(ready != [] && log.written + size > limit) then ready else [])
  {
    var lines := log.lines + [Line(w, ready, size)];
    assert lines[..|log.lines|] == log.lines;
    assert Recorded(log.lines, x) + [] == Recorded(log.lines, x);
  }

  /** A write that does not raise adds what it made ready to the recorded text of its stream. */
  lemma WriteRecords(secrets: seq<Secret>, limit: nat, log: Log, w: Chunk, x: Stream)
    ensures var log' := After(secrets, limit, log, w); var buffer := Pending(log, w.stream) + w.data;
      && Pending(log', w.stream) == buffer[Cut(buffer, secrets, w.last)..]
      && (x != w.stream ==> Pending(log', x) == Pending(log, x))
      && Recorded(log'.lines, x) == Recorded(log.lines, x)
        + (if x == w.stream && !Raises(secrets, limit, log, w) then Ready(secrets, log, w) else [])
  {
    var held := WithPending(log, w.stream, Held(secrets, log, w));
    RecordingAdds(limit, held, w.stream, Ready(secrets, log, w), w.size, x);
  }

  // ----- whole runs

  predicate NoneRaises(secrets: seq<Secret>, limit: nat, log: Log, writes: seq<Chunk>)
    decreases |writes|
  {
    writes == [] || (
      && !Raises(secrets, limit, log, writes[0])
      && NoneRaises(secrets, limit, After(secrets, limit, log, writes[0]), writes[1..]))
  }

  /** The recorded text of a stream followed by the redaction of all that is still to come. */
  function Total(secrets: seq<Secret>, log: Log, x: Stream, future: Bytes): Bytes {
    Recorded(log.lines, x) + RedactAll(Pending(log, x) + future, secrets)
  }

  ghost predicate Separable(secrets: seq<Secret>, log: Log, x: Stream, future: Bytes) {
    WellSeparated(Pending(log, x) + future, secrets)
  }

  lemma Regroup(held: Bytes, data: Bytes, future: Bytes, cut: nat)
    requires cut <= |held + data|
    ensures held + (data + future) == (held + data) + future == (held + data)[..cut] + ((held + data)[cut..] + future)
  {
  }

  lemma WriteKeepsTotal(secrets: seq<Secret>, limit: nat, log: Log, w: Chunk, future: Bytes)
    requires Separable(secrets, log, w.stream, w.data + future) && (w.last ==> future == [])
    requires !Raises(secrets, limit, log, w)
    ensures Separable(secrets, After(secrets, limit, log, w), w.stream, future)
    ensures Total(secrets, After(secrets, limit, log, w), w.stream, future) == Total(secrets, log, w.stream, w.data + future)
  {
    var log' := After(secrets, limit, log, w);
    var x, buffer := w.stream, Pending(log, w.stream) + w.data;
    var cut := Cut(buffer, secrets, w.last);
    var ready, later := RedactAll(buffer[..cut], secrets), RedactAll(buffer[cut..] + future, secrets);
    Regroup(Pending(log, x), w.data, future, cut);
    WriteDivides(secrets, buffer, future, w.last);
    assert Pending(log', x) == buffer[cut..] && Recorded(log'.lines, x) == Recorded(log.lines, x) + ready by {
      WriteRecords(secrets, limit, log, w, x);
    }
    Associative(Recorded(log.lines, x), ready, later);
  }

  lemma StepKeepsTotal(secrets: seq<Secret>, limit: nat, log: Log, w: Chunk, rest: seq<Chunk>, x: Stream)
    requires !Raises(secrets, limit, log, w) && (w.stream == x && w.last ==> NothingFor(rest, x))
    requires Separable(secrets, log, x, Data([w] + rest, x))
    ensures Separable(secrets, After(secrets, limit, log, w), x, Data(rest, x))
    ensures Total(secrets, After(secrets, limit, log, w), x, Data(rest, x)) == Total(secrets, log, x, Data([w] + rest, x))
  {
    assert ([w] + rest)[1..] == rest;
    if w.stream == x {
      if w.last { NothingMeansNoData(rest, x); }
      WriteKeepsTotal(secrets, limit, log, w, Data(rest, x));
    } else {
      WriteRecords(secrets, limit, log, w, x);
      assert Recorded(log.lines, x) + [] == Recorded(log.lines, x);
      assert [] + Data(rest, x) == Data(rest, x);
    }
  }

  /** Whatever the chunks and however the two streams interleave, the text recorded for a
      stream together with its redacted rest is the redaction of the whole stream. */
  lemma {:induction false} TotalIsKept(secrets: seq<Secret>, limit: nat, log: Log, writes: seq<Chunk>, x: Stream)
    requires LastIsLast(writes, x) && NoneRaises(secrets, limit, log, writes)
    requires Separable(secrets, log, x, Data(writes, x))
    ensures Total(secrets, AfterAll(secrets, limit, log, writes), x, []) == Total(secrets, log, x, Data(writes, x))
    decreases |writes|
  {
    if writes != [] {
      assert writes == [writes[0]] + writes[1..];
      StepKeepsTotal(secrets, limit, log, writes[0], writes[1..], x);
      TotalIsKept(secrets, limit, After(secrets, limit, log, writes[0]), writes[1..], x);
    }
  }

  lemma {:induction false} NothingChangesNothing(secrets: seq<Secret>, limit: nat, log: Log, writes: seq<Chunk>, x: Stream)
    requires NothingFor(writes, x)
    ensures Pending(AfterAll(secrets, limit, log, writes), x) == Pending(log, x)
    decreases |writes|
  {
    if writes != [] {
      assert writes[0].stream != x;
      forall i | 0 <= i < |writes[1..]| ensures writes[1..][i].stream != x { assert writes[i + 1].stream != x; }
      WriteRecords(secrets, limit, log, writes[0], x);
      NothingChangesNothing(secrets, limit, After(secrets, limit, log, writes[0]), writes[1..], x);
    }
  }

  lemma {:induction false} ClosedHoldsNothing(secrets: seq<Secret>, limit: nat, log: Log, writes: seq<Chunk>, x: Stream)
    requires LastIsLast(writes, x) && Closed(writes, x)
    ensures Pending(AfterAll(secrets, limit, log, writes), x) == []
    decreases |writes|
  {
    var w, rest := writes[0], writes[1..];
    var log1 := After(secrets, limit, log, w);
    if w.stream == x && w.last {
      CutOfLast(Pending(log, x) + w.data, secrets);
      WriteRecords(secrets, limit, log, w, x);
      NothingChangesNothing(secrets, limit, log1, rest, x);
    } else {
      var i :| 0 <= i < |writes| && writes[i].stream == x && writes[i].last;
      assert rest[i - 1] == writes[i];
      ClosedHoldsNothing(secrets, limit, log1, rest, x);
    }
  }

  lemma TotalAtStart(secrets: seq<Secret>, x: Stream, text: Bytes)
    ensures Total(secrets, EMPTY, x, text) == RedactAll(text, secrets)
    ensures WellSeparated(text, secrets) ==> Separable(secrets, EMPTY, x, text)
  {
    assert Pending(EMPTY, x) + text == text;
    var redacted := RedactAll(text, secrets);
    assert Recorded(EMPTY.lines, x) == [] && [] + redacted == redacted;
  }

  lemma TotalAtEnd(secrets: seq<Secret>, log: Log, x: Stream)
    requires Pending(log, x) == []
    ensures Total(secrets, log, x, []) == Recorded(log.lines, x)
  {
    EmptyRedacts(secrets);
  }

  /** Streaming refines redacting the whole stream once. */
  lemma StreamingRefinesWhole(secrets: seq<Secret>, limit: nat, writes: seq<Chunk>, x: Stream)
    requires LastIsLast(writes, x) && Closed(writes, x) && NoneRaises(secrets, limit, EMPTY, writes)
    requires WellSeparated(Data(writes, x), secrets)
    ensures Recorded(AfterAll(secrets, limit, EMPTY, writes).lines, x) == RedactAll(Data(writes, x), secrets)
  {
    var log' := AfterAll(secrets, limit, EMPTY, writes);
    TotalAtStart(secrets, x, Data(writes, x));
    TotalIsKept(secrets, limit, EMPTY, writes, x);
    ClosedHoldsNothing(secrets, limit, EMPTY, writes, x);
    TotalAtEnd(secrets, log', x);
  }

  lemma {:induction false} EmptyRedacts(secrets: seq<Secret>)
    ensures RedactAll([], secrets) == []
    decreases |secrets|
  {
    if secrets != [] {
      assert Replace([], secrets[0]) == [];
      EmptyRedacts(secrets[1..]);
    }
  }

  /** Nothing is recorded any more once the limit is broken. */
  lemma {:induction false} BrokenLimitStops(secrets: seq<Secret>, limit: nat, log: Log, writes: seq<Chunk>)
    requires log.written > limit
    ensures AfterAll(secrets, limit, log, writes).lines == log.lines
    decreases |writes|
  {
    if writes != [] {
      BrokenLimitStops(secrets, limit, After(secrets, limit, log, writes[0]), writes[1..]);
    }
  }

  lemma {:induction false} RecordedIsPartOfTotal(secrets: seq<Secret>, limit: nat, log: Log, writes: seq<Chunk>, x: Stream)
    requires LastIsLast(writes, x) && Separable(secrets, log, x, Data(writes, x))
    ensures Recorded(AfterAll(secrets, limit, log, writes).lines, x) <= Total(secrets, log, x, Data(writes, x))
    decreases |writes|
  {
    if writes != [] {
      assert writes == [writes[0]] + writes[1..];
      var log' := After(secrets, limit, log, writes[0]);
      if Raises(secrets, limit, log, writes[0]) {
        BrokenLimitStops(secrets, limit, log', writes[1..]);
      } else {
        StepKeepsTotal(secrets, limit, log, writes[0], writes[1..], x);
        RecordedIsPartOfTotal(secrets, limit, log', writes[1..], x);
      }
    }
  }

  /** Broken off or cut short by the limit, a stream's record is the beginning of its redaction. */
  lemma RecordedIsPrefix(secrets: seq<Secret>, limit: nat, writes: seq<Chunk>, x: Stream)
    requires LastIsLast(writes, x) && WellSeparated(Data(writes, x), secrets)
    ensures Recorded(AfterAll(secrets, limit, EMPTY, writes).lines, x) <= RedactAll(Data(writes, x), secrets)
  {
    TotalAtStart(secrets, x, Data(writes, x));
    RecordedIsPartOfTotal(secrets, limit, EMPTY, writes, x);
  }

  ghost predicate LinesHide(lines: seq<Line>, s: Secret) {
    forall i :: 0 <= i < |lines| ==> !Occurs(lines[i].text, s)
  }

  /** No single line contains a secret that cannot overlap a marker, whatever the other secrets are
      and whether or not occurrences overlap. */
  lemma {:induction false} EachLineHides(secrets: seq<Secret>, limit: nat, log: Log, writes: seq<Chunk>, s: Secret)
    requires Clear(s) && s in secrets && LinesHide(log.lines, s)
    ensures LinesHide(AfterAll(secrets, limit, log, writes).lines, s)
    decreases |writes|
  {
    if writes != [] {
      var w := writes[0];
      var buffer := Pending(log, w.stream) + w.data;
      RedactAllHides(buffer[..Cut(buffer, secrets, w.last)], secrets, s);
      EachLineHides(secrets, limit, After(secrets, limit, log, w), writes[1..], s);
    }
  }

  // ----- no secret across lines

  /** What the record ends with and what is still to come do not make up a secret together. */
  ghost predicate NoneBetween(r: Bytes, rest: Bytes, s: Secret) {
    !Occurs(r, s) && NoneStraddles(r + rest, s, |r|)
  }

  lemma NotAcross(r: Bytes, h: Bytes, t: Bytes, secrets: seq<Secret>, s: Secret)
    requires Clear(s) && s in secrets && NoneBetween(r, h + t, s)
    ensures !Occurs(r + RedactAll(h, secrets), s)
  {
    var ready := RedactAll(h, secrets);
    RedactAllHides(h, secrets, s);
    forall i ensures !At(r + ready, s, i) {
      if At(r + ready, s, i) {
        AtConcat(r, ready, s, i);
        var p := |r| - i;
        SeamParts(r, ready, s, i);
        PrefixWasThere(h, secrets, s, p);
        assert s[p..] <= h + t;
        SeamJoins(r[..i], h + t, s, p);
        assert false;
      }
    }
  }

  lemma NotAhead(r: Bytes, h: Bytes, t: Bytes, secrets: seq<Secret>, s: Secret, i: nat)
    requires Clear(s) && NoneBetween(r, h + t, s) && NoneStraddles(h + t, s, |h|)
    ensures var r' := r + RedactAll(h, secrets); !(At(r' + t, s, i) && Straddles(i, s, |r'|))
  {
    var ready := RedactAll(h, secrets);
    var r' := r + ready;
    if At(r' + t, s, i) && Straddles(i, s, |r'|) {
      var p := |r'| - i;
      SeamParts(r', t, s, i);
      if i >= |r| {
        assert ready == r'[|r|..] == r'[|r|..i] + s[..p];
        var y := SuffixWasThere(h, secrets, r'[|r|..i], s[..p], s);
        SeamJoins(y, t, s, p);
      } else {
        var q := |r| - i;
        assert s[..p] == r'[i..] == r[i..] + ready;
        assert s[q..q + |ready|] == ready && s[..q] == r[i..];
        InsideIsKept(h, secrets, s, q);
        assert s[q..] == h + s[p..] && r == r[..i] + s[..q];
        SeamJoins(r[..i], h + t, s, q);
      }
      assert false;
    }
  }

  /** Releasing and redacting a part that ends where the secret is not split keeps that so. */
  lemma SeamMoves(r: Bytes, h: Bytes, t: Bytes, secrets: seq<Secret>, s: Secret)
    requires Clear(s) && s in secrets && NoneBetween(r, h + t, s) && NoneStraddles(h + t, s, |h|)
    ensures NoneBetween(r + RedactAll(h, secrets), t, s)
  {
    NotAcross(r, h, t, secrets, s);
    forall i | At(r + RedactAll(h, secrets) + t, s, i) ensures !Straddles(i, s, |r + RedactAll(h, secrets)|) {
      NotAhead(r, h, t, secrets, s, i);
    }
  }

  ghost predicate Guarded(secrets: seq<Secret>, m: nat, log: Log, x: Stream, future: Bytes)
    requires m < |secrets|
  {
    && NoneBetween(Recorded(log.lines, x), Pending(log, x) + future, secrets[m])
    && NotOverrun(Pending(log, x) + future, secrets, m)
  }

  /** A write divides its stream where the secret is not split. */
  lemma DivideKeepsGuard(secrets: seq<Secret>, m: nat, r: Bytes, buffer: Bytes, future: Bytes, last: bool, h: Bytes,
      t: Bytes)
    requires m < |secrets| && Clear(secrets[m]) && (last ==> future == [])
    requires buffer + future == h + t && |h| == Cut(buffer, secrets, last)
    requires NoneBetween(r, h + t, secrets[m]) && NotOverrun(h + t, secrets, m)
    ensures NoneBetween(r + RedactAll(h, secrets), t, secrets[m]) && NotOverrun(t, secrets, m)
  {
    CutSpares(buffer, future, secrets, last, m);
    SeamMoves(r, h, t, secrets, secrets[m]);
    PartsAreNotOverrun(h, t, secrets, m);
  }

  lemma WriteKeepsGuarded(secrets: seq<Secret>, m: nat, limit: nat, log: Log, w: Chunk, future: Bytes)
    requires m < |secrets| && Clear(secrets[m]) && !Raises(secrets, limit, log, w) && (w.last ==> future == [])
    requires Guarded(secrets, m, log, w.stream, w.data + future)
    ensures Guarded(secrets, m, After(secrets, limit, log, w), w.stream, future)
  {
    var buffer := Pending(log, w.stream) + w.data;
    var cut := Cut(buffer, secrets, w.last);
    var h, t := buffer[..cut], buffer[cut..] + future;
    Regroup(Pending(log, w.stream), w.data, future, cut);
    DivideKeepsGuard(secrets, m, Recorded(log.lines, w.stream), buffer, future, w.last, h, t);
    WriteRecords(secrets, limit, log, w, w.stream);
  }

  lemma StepKeepsGuarded(secrets: seq<Secret>, m: nat, limit: nat, log: Log, w: Chunk, rest: seq<Chunk>, x: Stream)
    requires m < |secrets| && Clear(secrets[m]) && !Raises(secrets, limit, log, w)
    requires w.stream == x && w.last ==> NothingFor(rest, x)
    requires Guarded(secrets, m, log, x, Data([w] + rest, x))
    ensures Guarded(secrets, m, After(secrets, limit, log, w), x, Data(rest, x))
  {
    assert ([w] + rest)[1..] == rest;
    if w.stream == x {
      if w.last { NothingMeansNoData(rest, x); }
      WriteKeepsGuarded(secrets, m, limit, log, w, Data(rest, x));
    } else {
      WriteRecords(secrets, limit, log, w, x);
      assert Recorded(log.lines, x) + [] == Recorded(log.lines, x);
      assert [] + Data(rest, x) == Data(rest, x);
    }
  }

  lemma GuardedNow(secrets: seq<Secret>, m: nat, log: Log, x: Stream, future: Bytes)
    requires m < |secrets| && Guarded(secrets, m, log, x, future)
    ensures !Occurs(Recorded(log.lines, x), secrets[m])
  {
  }

  lemma BrokenKeepsRecord(secrets: seq<Secret>, limit: nat, log: Log, writes: seq<Chunk>, x: Stream)
    requires writes != [] && Raises(secrets, limit, log, writes[0])
    ensures Recorded(AfterAll(secrets, limit, log, writes).lines, x) == Recorded(log.lines, x)
  {
    BrokenLimitStops(secrets, limit, After(secrets, limit, log, writes[0]), writes[1..]);
  }

  lemma {:induction false} GuardedIsHidden(secrets: seq<Secret>, m: nat, limit: nat, log: Log, writes: seq<Chunk>, x: Stream)
    requires m < |secrets| && Clear(secrets[m]) && LastIsLast(writes, x)
    requires Guarded(secrets, m, log, x, Data(writes, x))
    ensures !Occurs(Recorded(AfterAll(secrets, limit, log, writes).lines, x), secrets[m])
    decreases |writes|
  {
    GuardedNow(secrets, m, log, x, Data(writes, x));
    if writes != [] {
      if Raises(secrets, limit, log, writes[0]) {
        BrokenKeepsRecord(secrets, limit, log, writes, x);
      } else {
        assert writes == [writes[0]] + writes[1..];
        StepKeepsGuarded(secrets, m, limit, log, writes[0], writes[1..], x);
        GuardedIsHidden(secrets, m, limit, After(secrets, limit, log, writes[0]), writes[1..], x);
      }
    }
  }

  /** The record of a stream does not contain a secret, in no line nor across lines, that cannot
      overlap a marker and that neither itself nor a later secret overruns in the stream. */
  lemma RecordHidesSecrets(secrets: seq<Secret>, m: nat, limit: nat, writes: seq<Chunk>, x: Stream)
    requires m < |secrets| && Clear(secrets[m]) && LastIsLast(writes, x) && NotOverrun(Data(writes, x), secrets, m)
    ensures !Occurs(Recorded(AfterAll(secrets, limit, EMPTY, writes).lines, x), secrets[m])
  {
    assert Pending(EMPTY, x) + Data(writes, x) == Data(writes, x);
    assert Recorded(EMPTY.lines, x) == [] && [] + Data(writes, x) == Data(writes, x);
    GuardedIsHidden(secrets, m, limit, EMPTY, writes, x);
  }

  /** All of this holds of every stream, whatever it carries, if the secrets alone pass a test: none
      can overlap a marker, and none ends the way it or a later one begins. */
  lemma StreamingIsSafeForSecrets(raw: seq<Bytes>, limit: nat, writes: seq<Chunk>, x: Stream)
    requires AllClear(Ordered(raw)) && NeverMeetInOrder(Ordered(raw)) && LastIsLast(writes, x)
    ensures var text := Recorded(AfterAll(Ordered(raw), limit, EMPTY, writes).lines, x);
      && (forall s: Secret :: s in raw ==> !Occurs(text, s))
      && (Closed(writes, x) && NoneRaises(Ordered(raw), limit, EMPTY, writes) ==>
        text == RedactAll(Data(writes, x), Ordered(raw)))
  {
    var secrets := Ordered(raw);
    NeverMeetMeansApart(secrets);
    assert ApartInOrder(Data(writes, x), secrets);
    forall s: Secret | s in raw ensures !Occurs(Recorded(AfterAll(secrets, limit, EMPTY, writes).lines, x), s) {
      var m :| 0 <= m < |secrets| && secrets[m] == s;
      RecordHidesSecrets(secrets, m, limit, writes, x);
    }
    if Closed(writes, x) && NoneRaises(secrets, limit, EMPTY, writes) {
      StreamingRefinesWhole(secrets, limit, writes, x);
    }
  }

  // ----- no more than the limit

  function SizeOf(lines: seq<Line>): nat {
    if lines == [] then 0 else SizeOf(lines[..|lines| - 1]) + lines[|lines| - 1].size
  }

  predicate Bounded(log: Log, limit: nat) {
    SizeOf(log.lines) <= limit && (log.written <= limit ==> SizeOf(log.lines) == log.written)
  }

  /** The lines recorded never exceed the limit, whatever is written. */
  lemma {:induction false} RecordIsBounded(secrets: seq<Secret>, limit: nat, log: Log, writes: seq<Chunk>)
    requires Bounded(log, limit)
    ensures Bounded(AfterAll(secrets, limit, log, writes), limit)
    decreases |writes|
  {
    if writes != [] {
      var log' := After(secrets, limit, log, writes[0]);
      if log'.lines != log.lines {
        assert log'.lines[..|log'.lines| - 1] == log.lines;
      }
      RecordIsBounded(secrets, limit, log', writes[1..]);
    }
  }

  // ----- the log as an object

  datatype LogError = OutputLimit

  class RedactedLog {
    const secrets: seq<Secret>
    const keep: nat
    const limit: nat
    var pending: map<Stream, Bytes>
    var bytesWritten: nat
    var lines: seq<Line>

    ghost predicate Valid()
      reads this
    {
      keep == Keep(secrets) && Stdout in pending && Stderr in pending
    }

    ghost function State(): Log
      reads this
    {
      Log(pending, bytesWritten, lines)
    }

    constructor (raw: seq<Bytes>, maxBytes: nat)
      ensures Valid() && secrets == Ordered(raw) && limit == maxBytes
      ensures State() == EMPTY
    {
      secrets := Ordered(raw);
      keep := Keep(Ordered(raw));
      limit := maxBytes;
      pending := NONE_HELD;
      bytesWritten := 0;
      lines := [];
    }

    method Write(stream: Stream, data: Bytes, last: bool, size: nat) returns (r: Result<(), LogError>)
      requires Valid()
      modifies this
      ensures Valid()
      ensures var w := Chunk(stream, data, last, size);
        && State() == After(secrets, limit, old(State()), w)
        && r == if Raises(secrets, limit, old(State()), w) then Err(OutputLimit) else Ok(())
    {
      ghost var before, w := State(), Chunk(stream, data, last, size);
      var buffer := pending[stream] + data;
      var wanted: nat := if last then |buffer| else if |buffer| > keep then |buffer| - keep else 0;
      assert wanted == WantedCut(buffer, secrets, last) && buffer == Pending(before, stream) + data;
      var cut := SafeCutIn(buffer, wanted);
      var ready, held := buffer[..cut], buffer[cut..];
      assert held == Held(secrets, before, w);
      pending := pending[stream := held];
      assert State() == WithPending(before, stream, held);
      ready := Replaced(ready);
      r := Record(stream, ready, size);
    }

    /** The end of a write: records what is ready, within the limit. */
    method Record(stream: Stream, ready: Bytes, size: nat) returns (r: Result<(), LogError>)
      requires Valid()
      modifies this`bytesWritten, this`lines
      ensures Valid() && State() == Recording(limit, old(State()), stream, ready, size)
      ensures r == if ready != [] && old(bytesWritten) + size > limit then Err(OutputLimit) else Ok(())
    {
      if ready != [] {
        bytesWritten := bytesWritten + size;
        if bytesWritten > limit {
          return Err(OutputLimit);
        }
        lines := lines + [Line(stream, ready, size)];
      }
      return Ok(());
    }

    /** The loops that move the cut. */
    method SafeCutIn(buffer: Bytes, wanted: nat) returns (cut: nat)
      ensures cut == CutForAll(buffer, secrets, wanted)
    {
      cut := wanted;
      for i := 0 to |secrets|
        invariant CutForAll(buffer, secrets[i..], cut) == CutForAll(buffer, secrets, wanted)
      {
        assert secrets[i..][0] == secrets[i] && secrets[i..][1..] == secrets[i + 1..];
        ghost var target := CutForOne(buffer, secrets[i], cut, 0);
        var from: nat := 0;
        var offset := Find(buffer, secrets[i], from);
        while offset >= 0
          invariant from <= |buffer| && offset == Find(buffer, secrets[i], from)
          invariant CutForOne(buffer, secrets[i], cut, from) == target
          decreases |buffer| - from
        {
          if offset < cut < offset + |secrets[i]| {
            cut := offset;
          }
          from := offset + 1;
          offset := Find(buffer, secrets[i], from);
        }
      }
    }

    /** The loop that replaces one secret after the other. */
    method Replaced(text: Bytes) returns (ready: Bytes)
      ensures ready == RedactAll(text, secrets)
    {
      ready := text;
      for i := 0 to |secrets|
        invariant RedactAll(ready, secrets[i..]) == RedactAll(text, secrets)
      {
        assert secrets[i..][0] == secrets[i] && secrets[i..][1..] == secrets[i + 1..];
        ready := Replace(ready, secrets[i]);
      }
    }
  }
}
