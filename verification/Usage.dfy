/** Token usage from an agent's history (infrastructure/measurement/host_events.py:27-60, 68-79,
    96-165, and the loop of history.py:20-56): cumulative counters over a range of lines. */
module Usage {
  import opened Prelude
  import opened Measurement

  datatype Issue = CounterRegressed | SummaryCannotBeSliced | MixedModels | HostError | IdentityMissing | UnsupportedStream
    | BrokenEvent | SeveralTasks | NoBoundary | UsageUnavailable | ToolOutputUnavailable | NonTextToolOutput
    | Subagent | ModelConflict | ModelUnavailable

  /** What a block with a tool's result shows: text, or a list with something else in it, or
      neither of them. */
  datatype Content = Shown(text: string) | NonText | Absent

  datatype Block = Block(key: string, content: Content)

  /** What an event says. `TurnFailed` stands for errors too, and the key of a tool's output is the
      line where it names none. The last five kinds are only looked at in a Claude history. */
  datatype Event =
    | TokenCount(value: TokenUsage)
    | TurnStarted
    | TurnFailed
    | TurnCompleted(id: string, value: TokenUsage)
    | TaskStarted
    | UserMessage
    | TaskComplete
    | ToolOutput(call: string, output: Option<string>)
    | Other
    | Assistant(key: Option<string>, usage: Option<TokenUsage>, ended: bool)
    | SessionResult(value: TokenUsage, manyModels: bool, isError: bool)
    | Human
    | ToolResults(blocks: seq<Block>)
    | StreamEvent

  /** A line of the file, with the models it names and whether a subagent wrote it; one that is no
      event, or has unusable counts, is broken, but perhaps only after its models have been read. */
  datatype Line = Readable(event: Event, models: set<string>, subagent: bool) | Broken(models: set<string>)

  /** A table in the order of insertion. */
  datatype Entry<+V> = Entry(key: string, value: V)

  function Lookup<V>(table: seq<Entry<V>>, key: string): Option<V> {
    if table == [] then None
    else if table[0].key == key then Some(table[0].value)
    else Lookup(table[1..], key)
  }

  function Store<V>(table: seq<Entry<V>>, key: string, value: V): seq<Entry<V>> {
    if table == [] then [Entry(key, value)]
    else if table[0].key == key then [Entry(key, value)] + table[1..]
    else [table[0]] + Store(table[1..], key, value)
  }

  datatype State = State(claude: bool, partial: bool, usages: seq<Entry<TokenUsage>>, outputs: seq<Entry<string>>,
    models: set<string>, complete: bool, humanPrompts: nat, issues: set<Issue>, cumulative: Option<TokenUsage>,
    initial: Option<TokenUsage>, started: bool)

  function Fresh(claude: bool, partial: bool): State {
    State(claude, partial, [], [], {}, false, 0, {}, None, None, false)
  }

  predicate Regresses(previous: TokenUsage, value: TokenUsage) {
    value.inputTokens < previous.inputTokens || value.outputTokens < previous.outputTokens
  }

  function CheckUsage(s: State, previous: Option<TokenUsage>, value: TokenUsage): State {
    if previous.Some? && Regresses(previous.value, value) then s.(issues := s.issues + {CounterRegressed}) else s
  }

  // ----- totals

  function AddOption(a: Option<nat>, b: Option<nat>): Option<nat> {
    if a.Some? && b.Some? then Some(a.value + b.value) else None
  }

  function AddUsage(a: TokenUsage, b: TokenUsage): TokenUsage {
    TokenUsage(a.inputTokens + b.inputTokens, a.outputTokens + b.outputTokens, AddOption(a.cached, b.cached),
               AddOption(a.cacheWrite, b.cacheWrite), AddOption(a.reasoning, b.reasoning))
  }

  /** A category is known when every entry knows it. */
  function TotalUsage(usages: seq<Entry<TokenUsage>>): (t: Option<TokenUsage>)
    ensures t.Some? <==> usages != []
  {
    if usages == [] then None
    else if |usages| == 1 then Some(usages[0].value)
    else Some(AddUsage(usages[0].value, TotalUsage(usages[1..]).value))
  }

  // ----- one event

  function PreviousCount(s: State): Option<TokenUsage> {
    if s.cumulative.Some? then s.cumulative else s.initial
  }

  /** Cumulative counts are read before the selected lines too: they are where it starts from. */
  function Counted(s: State, value: TokenUsage, included: bool): State {
    var s1 := CheckUsage(s, PreviousCount(s), value);
    if included then s1.(cumulative := Some(value)) else s1.(initial := Some(value))
  }

  function WithBlock(s: State, block: Block): State {
    match block.content
    case Shown(text) => s.(outputs := Store(s.outputs, block.key, text))
    case NonText => s.(issues := s.issues + {NonTextToolOutput})
    case Absent => s
  }

  function WithBlocks(s: State, blocks: seq<Block>): State {
    if blocks == [] then s else WithBlock(WithBlocks(s, blocks[..|blocks| - 1]), blocks[|blocks| - 1])
  }

  function AsClaude(s: State, event: Event): State {
    match event
    case SessionResult(value, manyModels, isError) =>
      var s1 := CheckUsage(s, TotalUsage(s.usages), value);
      s1.(cumulative := Some(value), complete := !isError,
          issues := s1.issues + (if s.partial then {SummaryCannotBeSliced} else {})
                    + (if manyModels then {MixedModels} else {}) + (if isError then {HostError} else {}))
    case Assistant(key, usage, ended) =>
      if usage.None? then s
      else if key.None? then s.(issues := s.issues + {IdentityMissing})
      else
        var s1 := CheckUsage(s, Lookup(s.usages, key.value), usage.value);
        s1.(usages := Store(s1.usages, key.value, usage.value), complete := ended)
    case Human => s.(humanPrompts := s.humanPrompts + 1, complete := false, started := true)
    case StreamEvent => s.(issues := s.issues + {UnsupportedStream})
    case ToolResults(blocks) => WithBlocks(s, blocks)
    case _ => s
  }

  function FromSubagent(s: State, subagent: bool): State {
    if s.claude && subagent then s.(issues := s.issues + {Subagent}) else s
  }

  /** What an event of the selected lines says. */
  function Fed(s: State, event: Event, included: bool): State {
    var s1 := if event.TokenCount? then Counted(s, event.value, included) else s;
    if !included then s1
    else
      match event
      case TurnStarted => s1.(started := true, complete := false, humanPrompts := s1.humanPrompts + 1)
      case TurnFailed => s1.(complete := false)
      case TurnCompleted(id, value) => s1.(usages := Store(s1.usages, id, value), complete := true)
      case TaskStarted => s1.(started := true, complete := false)
      case UserMessage => s1.(started := true, complete := false, humanPrompts := s1.humanPrompts + 1)
      case TaskComplete => s1.(complete := true)
      case ToolOutput(call, output) =>
        if output.Some? then s1.(outputs := Store(s1.outputs, call, output.value))
        else s1.(issues := s1.issues + {ToolOutputUnavailable})
      case _ => if s1.claude then AsClaude(s1, event) else s1
  }

  // ----- consumption

  function MinusOption(a: Option<nat>, b: Option<nat>): Option<int> {
    if a.Some? && b.Some? then Some(a.value - b.value) else None
  }

  function AsNat(x: Option<int>): Option<nat>
    requires x.Some? ==> x.value >= 0
  {
    if x.Some? then Some(x.value) else None
  }

  predicate NoDebt(x: Option<int>) {
    x.Some? ==> x.value >= 0
  }

  /** The difference of two counts, unless it is no usage: negative, or with parts beyond the whole. */
  function Minus(a: TokenUsage, b: TokenUsage): Option<TokenUsage> {
    var cached, writes := MinusOption(a.cached, b.cached), MinusOption(a.cacheWrite, b.cacheWrite);
    var reasoning := MinusOption(a.reasoning, b.reasoning);
    if Regresses(b, a) || !NoDebt(cached) || !NoDebt(writes) || !NoDebt(reasoning) then None
    else
      var u := TokenUsage(a.inputTokens - b.inputTokens, a.outputTokens - b.outputTokens, AsNat(cached), AsNat(writes),
        AsNat(reasoning));
      if ValidUsage(u) then Some(u) else None
  }

  /** `Err` is the validation error of the source. */
  function Consumption(s: State): Result<Option<TokenUsage>, Issue> {
    if s.cumulative.None? then Ok(TotalUsage(s.usages))
    else if s.initial.None? then Ok(s.cumulative)
    else
      var u := Minus(s.cumulative.value, s.initial.value);
      if u.None? then Err(CounterRegressed) else Ok(u)
  }

  // ----- a file

  /** Lines are numbered from 1; those after the last selected one are not read. */
  datatype Request = Request(claude: bool, firstLine: nat, lastLine: Option<nat>, model: Option<string>)

  function LinesRead(r: Request, lines: seq<Line>): nat {
    if r.lastLine.Some? && r.lastLine.value < |lines| then r.lastLine.value else |lines|
  }

  function FedLine(r: Request, s: State, line: Line, number: nat): State {
    match line
    case Broken(models) => Named(s, models, number >= r.firstLine).(issues := s.issues + {BrokenEvent})
    case Readable(event, models, subagent) =>
      var included := number >= r.firstLine;
      FromSubagent(Fed(Named(s, models, included), event, included), included && subagent)
  }

  function Named(s: State, models: set<string>, included: bool): State {
    if included then s.(models := s.models + models) else s
  }

  /** The state after the first `n` lines. */
  function After(r: Request, lines: seq<Line>, n: nat): State
    requires n <= |lines|
  {
    if n == 0 then Fresh(r.claude, r.firstLine > 1) else FedLine(r, After(r, lines, n - 1), lines[n - 1], n)
  }

  /** `exposed` is whether the exposure is complete; `outputs` are what the counter counts. */
  datatype Observation = Observation(usage: Option<TokenUsage>, model: Option<string>, complete: bool, exposed: bool,
    issues: set<Issue>, outputs: seq<string>)

  function TheOnly(models: set<string>): string
    requires |models| == 1
  {
    OnlyOne(models);
    var m :| m in models && forall x :: x in models ==> x == m;
    m
  }

  lemma OnlyOne(models: set<string>)
    requires |models| == 1
    ensures exists m :: m in models && forall x :: x in models ==> x == m
  {
    var m :| m in models;
    forall x | x in models ensures x == m {
      if x != m {
        assert {m, x} <= models && |{m, x}| == 2;
        SubsetSize({m, x}, models);
        assert false;
      }
    }
  }

  /** The one model the lines name, or else what the caller says. */
  function ModelOf(r: Request, s: State): Option<string> {
    if |s.models| == 1 then Some(TheOnly(s.models)) else r.model
  }

  function ModelIssues(r: Request, s: State): set<Issue> {
    (if |s.models| > 1 then {MixedModels} else {})
    + (if r.model.Some? && r.model.value != "" && s.models != {} && s.models != {r.model.value} then {ModelConflict} else {})
    + (if ModelOf(r, s).None? then {ModelUnavailable} else {})
  }

  function UsageIssues(r: Request, s: State): set<Issue> {
    (if Consumption(s).Err? then {CounterRegressed} else {})
    + (if s.humanPrompts > 1 then {SeveralTasks} else {})
    + (if r.firstLine > 1 && !s.started then {NoBoundary} else {})
    + (if UsageOf(s).None? then {UsageUnavailable} else {})
  }

  function UsageOf(s: State): Option<TokenUsage> {
    var c := Consumption(s);
    if c.Ok? then c.value else None
  }

  function TextsOf(outputs: seq<Entry<string>>): seq<string> {
    seq(|outputs|, i requires 0 <= i < |outputs| => outputs[i].value)
  }

  function Observed(r: Request, s: State): Observation {
    var issues := s.issues + UsageIssues(r, s) + ModelIssues(r, s);
    var complete := s.complete && UsageOf(s).Some? && issues == {};
    Observation(UsageOf(s), ModelOf(r, s), complete, complete && s.outputs != [], issues, TextsOf(s.outputs))
  }

  function Read(r: Request, lines: seq<Line>): Observation {
    Observed(r, After(r, lines, LinesRead(r, lines)))
  }

  // ----- cumulative histories

  predicate IsCount(line: Line) {
    line.Readable? && line.event.TokenCount?
  }

  predicate CountsAt(lines: seq<Line>, i: nat)
    requires i < |lines|
  {
    IsCount(lines[i])
  }

  /** The last count among the lines from `from` to before `to`, numbered from 0. */
  function LastCount(lines: seq<Line>, from: nat, upTo: nat): Option<TokenUsage>
    requires upTo <= |lines|
    decreases upTo
  {
    if upTo <= from then None
    else if CountsAt(lines, upTo - 1) then Some(lines[upTo - 1].event.value)
    else LastCount(lines, from, upTo - 1)
  }

  function Native(first: nat, last: nat): Request {
    Request(false, first, Some(last), None)
  }

  predicate FallsTo(s: State, event: Event) {
    event.TokenCount? && PreviousCount(s).Some? && Regresses(PreviousCount(s).value, event.value)
  }

  /** What a line of a native history does to the counters and to the regression issue. */
  lemma NativeEvent(s: State, event: Event, included: bool)
    requires !s.claude
    ensures var s' := Fed(s, event, included); var c := event.TokenCount?;
      && !s'.claude
      && s'.cumulative == (if c && included then Some(event.value) else s.cumulative)
      && s'.initial == (if c && !included then Some(event.value) else s.initial)
      && (CounterRegressed in s'.issues <==> CounterRegressed in s.issues || FallsTo(s, event))
  {
  }

  lemma NativeLine(r: Request, s: State, line: Line, number: nat)
    requires !s.claude
    ensures var s' := FedLine(r, s, line, number); var included := number >= r.firstLine;
      && !s'.claude
      && s'.cumulative == (if IsCount(line) && included then Some(line.event.value) else s.cumulative)
      && s'.initial == (if IsCount(line) && !included then Some(line.event.value) else s.initial)
      && (CounterRegressed in s'.issues <==>
        CounterRegressed in s.issues || (line.Readable? && FallsTo(s, line.event)))
  {
    if line.Readable? { NativeEvent(Named(s, line.models, number >= r.firstLine), line.event, number >= r.firstLine); }
  }

  /** In a native history the two counters are the last counts before and in the selection. */
  lemma {:induction false} CountersAreLast(r: Request, lines: seq<Line>, n: nat)
    requires !r.claude && r.firstLine >= 1 && n <= |lines|
    ensures var s := After(r, lines, n);
      && s.cumulative == LastCount(lines, r.firstLine - 1, n)
      && s.initial == LastCount(lines, 0, Min(r.firstLine - 1, n))
      && !s.claude
  {
    if n > 0 {
      CountersAreLast(r, lines, n - 1);
      NativeLine(r, After(r, lines, n - 1), lines[n - 1], n);
    }
  }

  lemma {:induction false} LastOfParts(lines: seq<Line>, from: nat, mid: nat, upTo: nat)
    requires from <= mid <= upTo <= |lines|
    ensures LastCount(lines, from, upTo)
      == if LastCount(lines, mid, upTo).Some? then LastCount(lines, mid, upTo) else LastCount(lines, from, mid)
    decreases upTo
  {
    if upTo > mid { LastOfParts(lines, from, mid, upTo - 1); }
  }

  predicate Adds(a: Option<nat>, b: Option<nat>, whole: Option<nat>) {
    a.Some? && b.Some? ==> whole == Some(a.value + b.value)
  }

  /** Tokens add up, and every category that both parts know. */
  predicate AddUp(left: TokenUsage, right: TokenUsage, whole: TokenUsage) {
    && left.inputTokens + right.inputTokens == whole.inputTokens
    && left.outputTokens + right.outputTokens == whole.outputTokens
    && Adds(left.cached, right.cached, whole.cached) && Adds(left.cacheWrite, right.cacheWrite, whole.cacheWrite)
    && Adds(left.reasoning, right.reasoning, whole.reasoning)
  }

  /** What a selection used: its last count less the count before it. */
  function Used(last: TokenUsage, first: Option<TokenUsage>): Option<TokenUsage> {
    if first.None? then Some(last) else Minus(last, first.value)
  }

  lemma ObservedIsUsed(r: Request, s: State)
    requires s.cumulative.Some?
    ensures Observed(r, s).usage == Used(s.cumulative.value, s.initial)
  {
  }

  lemma NativeIsUsed(lines: seq<Line>, first: nat, last: nat)
    requires 1 <= first <= last <= |lines| && LastCount(lines, first - 1, last).Some?
    ensures Read(Native(first, last), lines).usage
      == Used(LastCount(lines, first - 1, last).value, LastCount(lines, 0, first - 1))
  {
    CountersAreLast(Native(first, last), lines, last);
    assert LinesRead(Native(first, last), lines) == last;
    ObservedIsUsed(Native(first, last), After(Native(first, last), lines, last));
  }

  /** The categories that a count knows. */
  datatype Known = Known(cached: bool, cacheWrite: bool, reasoning: bool)

  function KnownOf(c: TokenUsage): Known {
    Known(c.cached.Some?, c.cacheWrite.Some?, c.reasoning.Some?)
  }

  /** The middle one knows every category that the ones around it know. */
  predicate Bridged(k0: Known, k1: Known, k2: Known) {
    && (k0.cached && k2.cached ==> k1.cached) && (k0.cacheWrite && k2.cacheWrite ==> k1.cacheWrite)
    && (k0.reasoning && k2.reasoning ==> k1.reasoning)
  }

  predicate Bridges(c0: Option<TokenUsage>, c1: TokenUsage, c2: TokenUsage) {
    c0.Some? ==> Bridged(KnownOf(c0.value), KnownOf(c1), KnownOf(c2))
  }

  lemma BridgedIsUsed(c0: Option<TokenUsage>, c1: TokenUsage, c2: TokenUsage)
    requires Used(c1, c0).Some? && Used(c2, Some(c1)).Some? && Bridges(c0, c1, c2)
    ensures Used(c2, c0).Some?
  {
  }

  lemma UsedAddsUp(c0: Option<TokenUsage>, c1: TokenUsage, c2: TokenUsage)
    requires Used(c1, c0).Some? && Used(c2, Some(c1)).Some? && Used(c2, c0).Some?
    ensures AddUp(Used(c1, c0).value, Used(c2, Some(c1)).value, Used(c2, c0).value)
  {
  }

  lemma PartsOfCounts(lines: seq<Line>, a: nat, k: nat, n: nat)
    requires 1 <= a <= k < n <= |lines|
    requires LastCount(lines, a - 1, k).Some? && LastCount(lines, k, n).Some?
    ensures LastCount(lines, a - 1, n) == LastCount(lines, k, n) && LastCount(lines, 0, k) == LastCount(lines, a - 1, k)
  {
    LastOfParts(lines, a - 1, k, n);
    LastOfParts(lines, 0, a - 1, k);
  }

  /** Usage telescopes: what two adjacent selections of a native history used is what the
      selection of both used, if each has a count and yields a usage. The selection of both then
      yields a usage too, unless the count between them lacks a category that the counts at the
      two ends know. */
  lemma UsageTelescopes(lines: seq<Line>, a: nat, k: nat, n: nat)
    requires 1 <= a <= k < n <= |lines|
    requires LastCount(lines, a - 1, k).Some? && LastCount(lines, k, n).Some?
    requires Read(Native(a, k), lines).usage.Some? && Read(Native(k + 1, n), lines).usage.Some?
    ensures var whole := Read(Native(a, n), lines).usage;
      Bridges(LastCount(lines, 0, a - 1), LastCount(lines, a - 1, k).value, LastCount(lines, k, n).value) ==> whole.Some?
    ensures var left, right := Read(Native(a, k), lines).usage.value, Read(Native(k + 1, n), lines).usage.value;
      var whole := Read(Native(a, n), lines).usage;
      whole.Some? ==> AddUp(left, right, whole.value)
  {
    PartsOfCounts(lines, a, k, n);
    NativeIsUsed(lines, a, k);
    NativeIsUsed(lines, k + 1, n);
    NativeIsUsed(lines, a, n);
    var c0, c1, c2 := LastCount(lines, 0, a - 1), LastCount(lines, a - 1, k).value, LastCount(lines, k, n).value;
    if Bridges(c0, c1, c2) { BridgedIsUsed(c0, c1, c2); }
    if Used(c2, c0).Some? { UsedAddsUp(c0, c1, c2); }
  }

  lemma UnusedRegresses(r: Request, s: State)
    requires s.cumulative.Some? && Used(s.cumulative.value, s.initial).None?
    ensures CounterRegressed in Observed(r, s).issues
  {
  }

  lemma LastThree(lines: seq<Line>, k: nat)
    requires k >= 2 && |lines| == k + 1 && IsCount(lines[k - 2]) && IsCount(lines[k - 1]) && IsCount(lines[k])
    ensures LastCount(lines, 0, k - 1) == Some(lines[k - 2].event.value)
    ensures LastCount(lines, 0, k) == LastCount(lines, k - 1, k) == Some(lines[k - 1].event.value)
    ensures LastCount(lines, k - 1, k + 1) == LastCount(lines, k, k + 1) == Some(lines[k].event.value)
  {
  }

  lemma FallIsHidden(lines: seq<Line>, k: nat)
    requires 2 <= k == |lines| - 1 && IsCount(lines[k - 2]) && IsCount(lines[k - 1]) && IsCount(lines[k])
    requires var c0, c1, c2 := lines[k - 2].event.value, lines[k - 1].event.value, lines[k].event.value;
      Used(c1, Some(c0)).Some? && Used(c2, Some(c1)).Some? && Used(c2, Some(c0)).None?
    ensures Read(Native(k, k), lines).usage.Some? && Read(Native(k + 1, k + 1), lines).usage.Some?
    ensures Read(Native(k, k + 1), lines).usage.None? && CounterRegressed in Read(Native(k, k + 1), lines).issues
  {
    LastThree(lines, k);
    NativeIsUsed(lines, k, k);
    NativeIsUsed(lines, k + 1, k + 1);
    NativeIsUsed(lines, k, k + 1);
    CountersAreLast(Native(k, k + 1), lines, k + 1);
    UnusedRegresses(Native(k, k + 1), After(Native(k, k + 1), lines, k + 1));
  }

  function CountLine(value: TokenUsage): Line {
    Readable(TokenCount(value), {}, false)
  }

  function CountOf(known: Known, input: nat, cached: nat, cacheWrite: nat, reasoning: nat): TokenUsage {
    TokenUsage(input, 10, if known.cached then Some(cached) else None, if known.cacheWrite then Some(cacheWrite) else None,
               if known.reasoning then Some(reasoning) else None)
  }

  /** What the middle count does not know has fallen in the last one. */
  function Fallen(k1: Known, k2: Known): TokenUsage {
    CountOf(k2, 12, if k1.cached then 1 else 0, if k1.cacheWrite then 1 else 0, if k1.reasoning then 1 else 0)
  }

  lemma FirstPartIsUsed(k0: Known, k1: Known)
    ensures Used(CountOf(k1, 11, 1, 1, 1), Some(CountOf(k0, 10, 1, 1, 1))).Some?
  {
  }

  lemma SecondPartIsUsed(k1: Known, k2: Known)
    ensures Used(Fallen(k1, k2), Some(CountOf(k1, 11, 1, 1, 1))).Some?
  {
  }

  lemma WholeIsNotUsed(k0: Known, k1: Known, k2: Known)
    requires !Bridged(k0, k1, k2)
    ensures Used(Fallen(k1, k2), Some(CountOf(k0, 10, 1, 1, 1))).None?
  {
  }

  /** Two adjacent selections with counts in them and before them, which know these categories. */
  predicate CountsAround(lines: seq<Line>, a: nat, k: nat, n: nat, k0: Known, k1: Known, k2: Known) {
    && 1 <= a <= k < n <= |lines|
    && LastCount(lines, 0, a - 1).Some? && KnownOf(LastCount(lines, 0, a - 1).value) == k0
    && LastCount(lines, a - 1, k).Some? && KnownOf(LastCount(lines, a - 1, k).value) == k1
    && LastCount(lines, k, n).Some? && KnownOf(LastCount(lines, k, n).value) == k2
  }

  predicate PartsTellWhole(lines: seq<Line>, a: nat, k: nat, n: nat) {
    Read(Native(a, k), lines).usage.Some? && Read(Native(k + 1, n), lines).usage.Some? ==>
      Read(Native(a, n), lines).usage.Some?
  }

  /** A category that the middle one lacks and the others know can fall unseen by the parts. */
  lemma UnbridgedHidesAFall(k0: Known, k1: Known, k2: Known) returns (lines: seq<Line>, k: nat)
    requires !Bridged(k0, k1, k2)
    ensures CountsAround(lines, k, k, k + 1, k0, k1, k2) && !PartsTellWhole(lines, k, k, k + 1)
    ensures CounterRegressed in Read(Native(k, k + 1), lines).issues
  {
    FirstPartIsUsed(k0, k1);
    SecondPartIsUsed(k1, k2);
    WholeIsNotUsed(k0, k1, k2);
    k :| k == 2;
    lines := [CountLine(CountOf(k0, 10, 1, 1, 1)), CountLine(CountOf(k1, 11, 1, 1, 1)), CountLine(Fallen(k1, k2))];
    LastThree(lines, k);
    FallIsHidden(lines, k);
  }

  /** Exactly when two usages always make up one of the whole: when the count between knows every
      category that the counts before and after know. */
  lemma UsageTelescopesExactlyWhen(k0: Known, k1: Known, k2: Known)
    ensures Bridged(k0, k1, k2) <==>
      forall lines, a: nat, k: nat, n: nat :: CountsAround(lines, a, k, n, k0, k1, k2) ==> PartsTellWhole(lines, a, k, n)
  {
    if Bridged(k0, k1, k2) {
      forall lines, a: nat, k: nat, n: nat | CountsAround(lines, a, k, n, k0, k1, k2) ensures PartsTellWhole(lines, a, k, n) {
        if Read(Native(a, k), lines).usage.Some? && Read(Native(k + 1, n), lines).usage.Some? {
          UsageTelescopes(lines, a, k, n);
        }
      }
    } else {
      var lines, k := UnbridgedHidesAFall(k0, k1, k2);
    }
  }

  /** No count is below an earlier one. */
  ghost predicate Monotone(lines: seq<Line>, n: nat)
    requires n <= |lines|
  {
    forall i, j :: 0 <= i < j < n && CountsAt(lines, i) && CountsAt(lines, j) ==>
      !Regresses(lines[i].event.value, lines[j].event.value)
  }

  /** What the next count is compared with is the last one before it. */
  lemma PreviousIsLast(r: Request, lines: seq<Line>, n: nat)
    requires !r.claude && r.firstLine >= 1 && n <= |lines|
    ensures PreviousCount(After(r, lines, n)) == LastCount(lines, 0, n)
  {
    CountersAreLast(r, lines, n);
    LastOfParts(lines, 0, Min(r.firstLine - 1, n), n);
  }

  predicate Falls(lines: seq<Line>, n: nat)
    requires n < |lines|
  {
    CountsAt(lines, n) && LastCount(lines, 0, n).Some? && Regresses(LastCount(lines, 0, n).value, lines[n].event.value)
  }

  lemma IssueOfLine(r: Request, lines: seq<Line>, n: nat)
    requires !r.claude && r.firstLine >= 1 && n < |lines|
    ensures CounterRegressed in After(r, lines, n + 1).issues <==>
      CounterRegressed in After(r, lines, n).issues || Falls(lines, n)
  {
    PreviousIsLast(r, lines, n);
    CountersAreLast(r, lines, n);
    NativeLine(r, After(r, lines, n), lines[n], n + 1);
  }

  lemma MonotoneStep(lines: seq<Line>, n: nat)
    requires n < |lines|
    ensures Monotone(lines, n + 1) <==> Monotone(lines, n) && !Falls(lines, n)
  {
    if Monotone(lines, n) && CountsAt(lines, n) {
      LastIsTop(lines, n, lines[n].event.value);
    }
  }

  /** The regression issue is absent exactly when the counters were monotone over every line read,
      those before the selection included. */
  lemma {:induction false} RegressionMeansNotMonotone(r: Request, lines: seq<Line>, n: nat)
    requires !r.claude && r.firstLine >= 1 && n <= |lines|
    ensures CounterRegressed !in After(r, lines, n).issues <==> Monotone(lines, n)
  {
    if n > 0 {
      RegressionMeansNotMonotone(r, lines, n - 1);
      IssueOfLine(r, lines, n - 1);
      MonotoneStep(lines, n - 1);
    }
  }

  /** A complete observation rests on counters that never fell. */
  lemma CompleteIsMonotone(r: Request, lines: seq<Line>)
    requires !r.claude && r.firstLine >= 1 && Read(r, lines).complete
    ensures Monotone(lines, LinesRead(r, lines))
  {
    RegressionMeansNotMonotone(r, lines, LinesRead(r, lines));
  }

  /** Of monotone counts a value is no less than all just when it is no less than the last. */
  lemma {:induction false} LastIsTop(lines: seq<Line>, n: nat, value: TokenUsage)
    requires n <= |lines| && Monotone(lines, n)
    ensures (LastCount(lines, 0, n).Some? ==> !Regresses(LastCount(lines, 0, n).value, value)) <==>
      forall i :: 0 <= i < n && CountsAt(lines, i) ==> !Regresses(lines[i].event.value, value)
  {
    if n > 0 && !CountsAt(lines, n - 1) { LastIsTop(lines, n - 1, value); }
  }

  // ----- the decoder as an object

  class Events {
    const claude: bool
    const partial: bool
    var usages: seq<Entry<TokenUsage>>
    var outputs: seq<Entry<string>>
    var models: set<string>
    var complete: bool
    var humanPrompts: nat
    var issues: set<Issue>
    var cumulative: Option<TokenUsage>
    var initial: Option<TokenUsage>
    var started: bool

    ghost function Now(): State
      reads this
    {
      State(claude, partial, usages, outputs, models, complete, humanPrompts, issues, cumulative, initial, started)
    }

    constructor (claude: bool, partial: bool)
      ensures Now() == Fresh(claude, partial)
    {
      this.claude, this.partial := claude, partial;
      usages, outputs, models, complete, humanPrompts, issues := [], [], {}, false, 0, {};
      cumulative, initial, started := None, None, false;
    }

    method Check(previous: Option<TokenUsage>, value: TokenUsage)
      modifies this`issues
      ensures Now() == CheckUsage(old(Now()), previous, value)
    {
      if previous.Some?
        && (value.inputTokens < previous.value.inputTokens || value.outputTokens < previous.value.outputTokens)
      {
        issues := issues + {CounterRegressed};
      }
    }

    method Feed(event: Event, names: set<string>, subagent: bool, included: bool)
      modifies this
      ensures Now() == FromSubagent(Fed(Named(old(Now()), names, included), event, included), included && subagent)
    {
      if included { models := models + names; }
      FeedEvent(event, included);
      if included && claude && subagent { issues := issues + {Subagent}; }
    }

    method FeedEvent(event: Event, included: bool)
      modifies this
      ensures Now() == Fed(old(Now()), event, included)
    {
      if event.TokenCount? {
        Check(if cumulative.Some? then cumulative else initial, event.value);
        if included { cumulative := Some(event.value); } else { initial := Some(event.value); }
      }
      if !included { return; }
      match event
      case TurnStarted => started, complete, humanPrompts := true, false, humanPrompts + 1;
      case TurnFailed => complete := false;
      case TurnCompleted(id, value) => usages, complete := Store(usages, id, value), true;
      case TaskStarted => started, complete := true, false;
      case UserMessage => started, complete, humanPrompts := true, false, humanPrompts + 1;
      case TaskComplete => complete := true;
      case ToolOutput(call, output) =>
        if output.Some? { outputs := Store(outputs, call, output.value); } else { issues := issues + {ToolOutputUnavailable}; }
      case _ => if claude { FeedClaude(event); }
    }

    method FeedClaude(event: Event)
      modifies this
      ensures Now() == AsClaude(old(Now()), event)
    {
      match event
      case SessionResult(value, manyModels, isError) =>
        Check(TotalUsage(usages), value);
        cumulative := Some(value);
        if partial { issues := issues + {SummaryCannotBeSliced}; }
        if manyModels { issues := issues + {MixedModels}; }
        complete := !isError;
        if isError { issues := issues + {HostError}; }
      case Assistant(key, usage, ended) => FeedAssistant(key, usage, ended);
      case Human => humanPrompts, complete, started := humanPrompts + 1, false, true;
      case StreamEvent => issues := issues + {UnsupportedStream};
      case ToolResults(blocks) => FeedBlocks(blocks);
      case _ =>
    }

    method FeedAssistant(key: Option<string>, usage: Option<TokenUsage>, ended: bool)
      modifies this
      ensures Now() == AsClaude(old(Now()), Assistant(key, usage, ended))
    {
      if usage.Some? && key.Some? {
        Check(Lookup(usages, key.value), usage.value);
        usages := Store(usages, key.value, usage.value);
        complete := ended;
      } else if usage.Some? {
        issues := issues + {IdentityMissing};
      }
    }

    method FeedBlocks(blocks: seq<Block>)
      modifies this`outputs, this`issues
      ensures Now() == WithBlocks(old(Now()), blocks)
    {
      for i := 0 to |blocks|
        invariant Now() == WithBlocks(old(Now()), blocks[..i])
      {
        assert blocks[..i + 1][..i] == blocks[..i];
        match blocks[i].content
        case Shown(text) => outputs := Store(outputs, blocks[i].key, text);
        case NonText => issues := issues + {NonTextToolOutput};
        case Absent =>
      }
      assert blocks[..|blocks|] == blocks;
    }
  }

  method FeedNext(r: Request, events: Events, line: Line, number: nat)
    modifies events
    ensures events.Now() == FedLine(r, old(events.Now()), line, number)
  {
    match line
    case Broken(models) =>
      if number >= r.firstLine { events.models := events.models + models; }
      events.issues := events.issues + {BrokenEvent};
    case Readable(event, models, subagent) => events.Feed(event, models, subagent, number >= r.firstLine);
  }

  /** The loop over the file. */
  method FeedLines(r: Request, lines: seq<Line>, events: Events)
    requires events.Now() == Fresh(r.claude, r.firstLine > 1)
    modifies events
    ensures events.Now() == After(r, lines, LinesRead(r, lines))
  {
    var line := 0;
    while line < |lines|
      invariant line <= LinesRead(r, lines) && events.Now() == After(r, lines, line)
    {
      if r.lastLine.Some? && line + 1 > r.lastLine.value { break; }
      FeedNext(r, events, lines[line], line + 1);
      line := line + 1;
    }
  }

  /** The usage, and the issues that come with it. */
  method Consume(r: Request, events: Events) returns (usage: Option<TokenUsage>, issues: set<Issue>)
    ensures usage == UsageOf(events.Now()) && issues == events.issues + UsageIssues(r, events.Now())
  {
    usage, issues := None, events.issues;
    if events.cumulative.None? {
      usage := TotalUsage(events.usages);
    } else if events.initial.None? {
      usage := events.cumulative;
    } else {
      usage := Minus(events.cumulative.value, events.initial.value);
      if usage.None? { issues := issues + {CounterRegressed}; }
    }
    if events.humanPrompts > 1 { issues := issues + {SeveralTasks}; }
    if r.firstLine > 1 && !events.started { issues := issues + {NoBoundary}; }
    if usage.None? { issues := issues + {UsageUnavailable}; }
  }

  /** The model, and the issues that come with it. */
  method Identify(r: Request, events: Events) returns (model: Option<string>, issues: set<Issue>)
    ensures model == ModelOf(r, events.Now()) && issues == ModelIssues(r, events.Now())
  {
    issues := {};
    if |events.models| > 1 { issues := issues + {MixedModels}; }
    model := if |events.models| == 1 then Some(TheOnly(events.models)) else r.model;
    if r.model.Some? && r.model.value != "" && events.models != {} && events.models != {r.model.value} {
      issues := issues + {ModelConflict};
    }
    if model.None? { issues := issues + {ModelUnavailable}; }
  }

  method ReadHistory(r: Request, lines: seq<Line>) returns (o: Observation)
    ensures o == Read(r, lines)
  {
    var events := new Events(r.claude, r.firstLine > 1);
    FeedLines(r, lines, events);
    var usage, usageIssues := Consume(r, events);
    var model, modelIssues := Identify(r, events);
    var issues := usageIssues + modelIssues;
    var complete := events.complete && usage.Some? && issues == {};
    o := Observation(usage, model, complete, complete && events.outputs != [], issues, TextsOf(events.outputs));
  }
}
