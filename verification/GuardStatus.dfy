/** The worker's reading of the guardian's status pipe (infrastructure/process.py:21-42): lines
    arrive in whatever pieces the pipe hands over. */
module GuardStatus {
  import opened Prelude
  import R = Redaction

  type Bytes = R.Bytes

  const NEWLINE: R.Byte := 10

  /** `pid:` */
  const PID: Bytes := [112, 105, 100, 58]

  /** `GUARD_FAILED` */
  const FAILED: Bytes := [71, 85, 65, 82, 68, 95, 70, 65, 73, 76, 69, 68]

  const MOST := 256

  datatype Status = Status(childPid: Option<int>, result: Bytes, pending: Bytes, received: nat)

  const FRESH := Status(None, FAILED, [], 0)

  /** `Bad` is any of the errors a malformed or excessive status raises. */
  datatype Outcome = Good(status: Status) | Bad

  /** The position of the first newline, or the length. */
  function LineEnd(text: Bytes): (i: nat)
    ensures i <= |text| && NEWLINE !in text[..i]
    ensures i < |text| ==> text[i] == NEWLINE
  {
    if text == [] || text[0] == NEWLINE then 0
    else
      var i := 1 + LineEnd(text[1..]);
      assert text[..i] == [text[0]] + text[1..][..i - 1];
      i
  }

  predicate IsAscii(line: Bytes) {
    forall i :: 0 <= i < |line| ==> line[i] < 128
  }

  /** One line; `number` is the program's reading of a decimal number. */
  function OneLine(number: Bytes -> Option<int>, s: Status, line: Bytes): Outcome {
    if !IsAscii(line) then Bad
    else if PID <= line then
      var pid := number(line[|PID|..]);
      if pid.None? || pid.value <= 1 || s.childPid.Some? then Bad else Good(s.(childPid := pid))
    else Good(s.(result := line))
  }

  /** Takes the first line. */
  function TakeOne(number: Bytes -> Option<int>, s: Status): (o: Outcome)
    requires LineEnd(s.pending) < |s.pending|
    ensures o.Good? ==> |o.status.pending| < |s.pending|
  {
    var i := LineEnd(s.pending);
    OneLine(number, s.(pending := s.pending[i + 1..]), s.pending[..i])
  }

  function TakeLines(number: Bytes -> Option<int>, s: Status): Outcome
    decreases |s.pending|
  {
    if LineEnd(s.pending) == |s.pending| then Good(s)
    else
      match TakeOne(number, s)
      case Bad => Bad
      case Good(s') => TakeLines(number, s')
  }

  function With(s: Status, more: Bytes, received: nat): Status {
    s.(pending := s.pending + more, received := received)
  }

  function Fed(number: Bytes -> Option<int>, s: Status, data: Bytes): Outcome {
    var received := s.received + |data|;
    if received > MOST then Bad else TakeLines(number, With(s, data, received))
  }

  function FedAll(number: Bytes -> Option<int>, s: Status, chunks: seq<Bytes>): Outcome
    decreases |chunks|
  {
    if chunks == [] then Good(s)
    else
      match Fed(number, s, chunks[0])
      case Bad => Bad
      case Good(s') => FedAll(number, s', chunks[1..])
  }

  function Concat(chunks: seq<Bytes>): Bytes {
    if chunks == [] then [] else chunks[0] + Concat(chunks[1..])
  }

  // ----- pieces do not matter

  lemma {:induction false} LineEndOfConcat(a: Bytes, b: Bytes)
    ensures LineEnd(a + b) == if LineEnd(a) < |a| then LineEnd(a) else |a| + LineEnd(b)
  {
    if a == [] {
      assert a + b == b;
    } else {
      assert (a + b)[0] == a[0] && (a + b)[1..] == a[1..] + b;
      LineEndOfConcat(a[1..], b);
    }
  }

  function Then(number: Bytes -> Option<int>, o: Outcome, more: Bytes, received: nat): Outcome {
    match o
    case Bad => Bad
    case Good(s) => TakeLines(number, With(s, more, received))
  }

  /** A line that is complete already is the same line when more has arrived. */
  lemma LineInTwo(s: Status, more: Bytes, received: nat)
    requires LineEnd(s.pending) < |s.pending|
    ensures var i, w := LineEnd(s.pending), With(s, more, received);
      && LineEnd(w.pending) == i < |w.pending| && w.pending[..i] == s.pending[..i]
      && w.(pending := w.pending[i + 1..]) == With(s.(pending := s.pending[i + 1..]), more, received)
  {
    var i, a := LineEnd(s.pending), s.pending;
    LineEndOfConcat(a, more);
    assert (a + more)[..i] == a[..i] && (a + more)[i + 1..] == a[i + 1..] + more;
  }

  lemma TakeOneInTwo(number: Bytes -> Option<int>, s: Status, more: Bytes, received: nat)
    requires LineEnd(s.pending) < |s.pending|
    ensures LineEnd(With(s, more, received).pending) < |With(s, more, received).pending|
    ensures TakeOne(number, With(s, more, received))
      == match TakeOne(number, s) case Bad => Bad case Good(s') => Good(With(s', more, received))
  {
    LineInTwo(s, more, received);
  }

  /** Lines taken early are the lines that would be taken later. */
  lemma {:induction false} TakeInTwo(number: Bytes -> Option<int>, s: Status, more: Bytes, received: nat)
    ensures TakeLines(number, With(s, more, received))
      == Then(number, TakeLines(number, s), more, received)
    decreases |s.pending|
  {
    if LineEnd(s.pending) < |s.pending| {
      TakeOneInTwo(number, s, more, received);
      var next := TakeOne(number, s);
      if next.Good? {
        TakeInTwo(number, next.status, more, received);
      }
    }
  }

  lemma {:induction false} TakeKeepsReceived(number: Bytes -> Option<int>, s: Status)
    ensures TakeLines(number, s).Good? ==> TakeLines(number, s).status.received == s.received
    decreases |s.pending|
  {
    var i := LineEnd(s.pending);
    if i < |s.pending| {
      var next := OneLine(number, s.(pending := s.pending[i + 1..]), s.pending[..i]);
      if next.Good? { TakeKeepsReceived(number, next.status); }
    }
  }

  function AndFed(number: Bytes -> Option<int>, o: Outcome, data: Bytes): Outcome {
    match o
    case Bad => Bad
    case Good(s) => Fed(number, s, data)
  }

  lemma ThenIsFed(number: Bytes -> Option<int>, o: Outcome, more: Bytes, first: nat)
    requires o.Good? ==> o.status.received == first
    ensures AndFed(number, o, more) == if first + |more| > MOST && o.Good? then Bad else Then(number, o, more, first + |more|)
  {
  }

  lemma FeedWhole(number: Bytes -> Option<int>, s: Status, a: Bytes, b: Bytes)
    ensures var first := s.received + |a|; var o := TakeLines(number, With(s, a, first));
      Fed(number, s, a + b) == if first + |b| > MOST then Bad else Then(number, o, b, first + |b|)
  {
    var first := s.received + |a|;
    TakeInTwo(number, With(s, a, first), b, first + |b|);
    WithTwo(s, a, first, b, first + |b|);
  }

  lemma FeedInTwo(number: Bytes -> Option<int>, s: Status, a: Bytes, b: Bytes)
    ensures Fed(number, s, a + b) == AndFed(number, Fed(number, s, a), b)
  {
    var first := s.received + |a|;
    TakeKeepsReceived(number, With(s, a, first));
    ThenIsFed(number, TakeLines(number, With(s, a, first)), b, first);
    FeedWhole(number, s, a, b);
  }

  lemma WithTwo(s: Status, a: Bytes, first: nat, b: Bytes, all: nat)
    ensures With(s, a + b, all) == With(With(s, a, first), b, all)
  {
    assert s.pending + (a + b) == s.pending + a + b;
  }

  /** However the pipe cuts the status into pieces, the worker reads the same from it. */
  lemma {:induction false} ChunksDoNotMatter(number: Bytes -> Option<int>, s: Status, chunks: seq<Bytes>)
    requires s.received <= MOST && LineEnd(s.pending) == |s.pending|
    ensures FedAll(number, s, chunks) == Fed(number, s, Concat(chunks))
    decreases |chunks|
  {
    if chunks == [] {
      assert s.pending + [] == s.pending;
    } else {
      FeedInTwo(number, s, chunks[0], Concat(chunks[1..]));
      var next := Fed(number, s, chunks[0]);
      if next.Good? {
        FeedLeavesNoLine(number, s, chunks[0]);
        ChunksDoNotMatter(number, next.status, chunks[1..]);
      }
    }
  }

  predicate IsProcess(pid: Option<int>) {
    pid.Some? ==> pid.value > 1
  }

  lemma {:induction false} TakeLeavesNoLine(number: Bytes -> Option<int>, s: Status)
    requires TakeLines(number, s).Good?
    ensures var s' := TakeLines(number, s).status; LineEnd(s'.pending) == |s'.pending|
    ensures s.childPid.Some? ==> TakeLines(number, s).status.childPid == s.childPid
    ensures s.childPid.None? ==> IsProcess(TakeLines(number, s).status.childPid)
    decreases |s.pending|
  {
    var i := LineEnd(s.pending);
    if i < |s.pending| {
      TakeLeavesNoLine(number, OneLine(number, s.(pending := s.pending[i + 1..]), s.pending[..i]).status);
    }
  }

  /** A reported process is a real one, and never replaced by another. */
  lemma FeedLeavesNoLine(number: Bytes -> Option<int>, s: Status, data: Bytes)
    requires Fed(number, s, data).Good?
    ensures var s' := Fed(number, s, data).status;
      && LineEnd(s'.pending) == |s'.pending| && s'.received <= MOST
      && (if s.childPid.Some? then s'.childPid == s.childPid else IsProcess(s'.childPid))
  {
    var s1 := With(s, data, s.received + |data|);
    TakeLeavesNoLine(number, s1);
    TakeKeepsReceived(number, s1);
  }

  // ----- what is written is what is read

  function Joined(lines: seq<Bytes>): Bytes {
    if lines == [] then [] else lines[0] + [NEWLINE] + Joined(lines[1..])
  }

  predicate IsLine(line: Bytes) {
    NEWLINE !in line
  }

  /** The lines that name a process, and the others. */
  function PidLines(lines: seq<Bytes>): (p: seq<Bytes>)
    ensures forall l :: l in p <==> l in lines && PID <= l
  {
    if lines == [] then []
    else
      assert forall l :: l in lines <==> l == lines[0] || l in lines[1..];
      (if PID <= lines[0] then [lines[0]] else []) + PidLines(lines[1..])
  }

  function LastOther(lines: seq<Bytes>, otherwise: Bytes): Bytes {
    if lines == [] then otherwise
    else if PID <= lines[|lines| - 1] then LastOther(lines[..|lines| - 1], otherwise)
    else lines[|lines| - 1]
  }

  lemma {:induction false} LastOtherFirst(lines: seq<Bytes>, otherwise: Bytes)
    requires lines != []
    ensures LastOther(lines, otherwise) == LastOther(lines[1..], if PID <= lines[0] then otherwise else lines[0])
  {
    if |lines| > 1 {
      assert lines[1..][..|lines| - 2] == lines[..|lines| - 1][1..] && lines[1..][|lines| - 2] == lines[|lines| - 1];
      LastOtherFirst(lines[..|lines| - 1], otherwise);
    } else {
      assert lines[..0] == [] && lines[1..] == [];
    }
  }

  lemma {:induction false} LineEndAt(line: Bytes, rest: Bytes)
    requires IsLine(line)
    ensures LineEnd(line + [NEWLINE] + rest) == |line|
    decreases |line|
  {
    var text := line + [NEWLINE] + rest;
    if line != [] {
      assert text[0] == line[0] && line[0] in line;
      assert text[1..] == line[1..] + [NEWLINE] + rest;
      LineEndAt(line[1..], rest);
    }
  }

  lemma {:induction false} NoLineEnd(rest: Bytes)
    requires IsLine(rest)
    ensures LineEnd(rest) == |rest|
    decreases |rest|
  {
    if rest != [] {
      assert rest[0] in rest;
      NoLineEnd(rest[1..]);
    }
  }

  function NumberOf(number: Bytes -> Option<int>, line: Bytes): Option<int> {
    if PID <= line then number(line[|PID|..]) else None
  }

  /** These process lines are acceptable after that many others: they name one real process. */
  predicate NamesOne(number: Bytes -> Option<int>, pids: seq<Bytes>, already: nat) {
    already + |pids| <= 1 && forall l :: l in pids ==> IsReal(NumberOf(number, l))
  }

  predicate IsReal(pid: Option<int>) {
    pid.Some? && pid.value > 1
  }

  function CountOf(pid: Option<int>): nat {
    if pid.Some? then 1 else 0
  }

  /** What complete lines tell: they are accepted exactly if all are ASCII and they name one real
      process at most; then that is the process, and the last other line is the result. */
  ghost predicate Tells(number: Bytes -> Option<int>, s: Status, lines: seq<Bytes>, rest: Bytes, o: Outcome) {
    var pids := PidLines(lines);
    && (o.Good? <==> (forall l :: l in lines ==> IsAscii(l)) && NamesOne(number, pids, CountOf(s.childPid)))
    && (o.Good? ==>
          && o.status.childPid == (if pids == [] then s.childPid else NumberOf(number, pids[0]))
          && o.status.result == LastOther(lines, s.result) && o.status.pending == rest && o.status.received == s.received)
  }

  lemma FirstLine(number: Bytes -> Option<int>, s: Status, lines: seq<Bytes>, rest: Bytes)
    requires lines != [] && (forall l :: l in lines ==> IsLine(l)) && s.pending == Joined(lines) + rest
    ensures LineEnd(s.pending) < |s.pending|
    ensures TakeOne(number, s) == OneLine(number, s.(pending := Joined(lines[1..]) + rest), lines[0])
  {
    var line, tail := lines[0], Joined(lines[1..]) + rest;
    assert s.pending == line + [NEWLINE] + tail;
    LineEndAt(line, tail);
    assert s.pending[..|line|] == line && s.pending[|line| + 1..] == tail;
  }

  lemma TellsFirst(number: Bytes -> Option<int>, s: Status, s': Status, lines: seq<Bytes>, rest: Bytes, o: Outcome)
    requires lines != [] && OneLine(number, s, lines[0]) == Good(s') && Tells(number, s', lines[1..], rest, o)
    ensures Tells(number, s, lines, rest, o)
  {
    var pids := PidLines(lines[1..]);
    assert forall l :: l in lines <==> l == lines[0] || l in lines[1..];
    LastOtherFirst(lines, s.result);
    if PID <= lines[0] {
      assert PidLines(lines) == [lines[0]] + pids;
    } else {
      assert PidLines(lines) == [] + pids == pids;
    }
  }

  lemma BadFirst(number: Bytes -> Option<int>, s: Status, lines: seq<Bytes>, rest: Bytes)
    requires lines != [] && OneLine(number, s, lines[0]) == Bad
    ensures Tells(number, s, lines, rest, Bad)
  {
    assert lines[0] in lines;
    if IsAscii(lines[0]) {
      assert PidLines(lines) == [lines[0]] + PidLines(lines[1..]);
      assert lines[0] in PidLines(lines);
    }
  }

  lemma {:induction false} LinesTell(number: Bytes -> Option<int>, s: Status, lines: seq<Bytes>, rest: Bytes)
    requires (forall l :: l in lines ==> IsLine(l)) && IsLine(rest) && s.pending == Joined(lines) + rest
    ensures Tells(number, s, lines, rest, TakeLines(number, s))
    decreases |lines|
  {
    if lines == [] {
      assert s.pending == rest;
      NoLineEnd(rest);
    } else {
      FirstLine(number, s, lines, rest);
      var first := s.(pending := Joined(lines[1..]) + rest);
      var next := OneLine(number, first, lines[0]);
      if next.Good? {
        LinesTell(number, next.status, lines[1..], rest);
        TellsFirst(number, first, next.status, lines, rest, TakeLines(number, s));
      } else {
        BadFirst(number, first, lines, rest);
      }
    }
  }

  /** What the guardian has written is what the worker reads, however it arrives: the process its
      one `pid:` line names and the last of its other lines, up to an unfinished one. */
  lemma WrittenIsRead(number: Bytes -> Option<int>, chunks: seq<Bytes>, lines: seq<Bytes>, rest: Bytes)
    requires (forall l :: l in lines ==> IsLine(l)) && IsLine(rest) && Concat(chunks) == Joined(lines) + rest
    ensures var n := |Concat(chunks)|;
      if n > MOST then FedAll(number, FRESH, chunks) == Bad
      else Tells(number, Status(None, FAILED, [], n), lines, rest, FedAll(number, FRESH, chunks))
  {
    ChunksDoNotMatter(number, FRESH, chunks);
    FedFresh(number, Concat(chunks));
    var n := |Concat(chunks)|;
    if n <= MOST { LinesTell(number, Status(None, FAILED, Concat(chunks), n), lines, rest); }
  }

  lemma FedFresh(number: Bytes -> Option<int>, text: Bytes)
    ensures Fed(number, FRESH, text)
      == if |text| > MOST then Bad else TakeLines(number, Status(None, FAILED, text, |text|))
  {
    assert [] + text == text;
  }

  // ----- the reader as an object

  class Reader {
    const number: Bytes -> Option<int>
    var status: Status

    constructor (number: Bytes -> Option<int>)
      ensures status == FRESH && this.number == number
    {
      this.number := number;
      status := FRESH;
    }

    method Feed(data: Bytes) returns (ok: bool)
      modifies this
      ensures match Fed(number, old(status), data)
        case Bad => !ok
        case Good(s) => ok && status == s
    {
      status := status.(received := status.received + |data|);
      if status.received > MOST { return false; }
      status := status.(pending := status.pending + data);
      ghost var start := status;
      while NEWLINE in status.pending
        invariant TakeLines(number, status) == TakeLines(number, start)
        decreases |status.pending|
      {
        var i := LineEnd(status.pending);
        var line := status.pending[..i];
        status := status.(pending := status.pending[i + 1..]);
        if !IsAscii(line) { return false; }
        if PID <= line {
          var pid := number(line[|PID|..]);
          if pid.None? || pid.value <= 1 || status.childPid.Some? { return false; }
          status := status.(childPid := pid);
        } else {
          status := status.(result := line);
        }
      }
      return true;
    }
  }
}
