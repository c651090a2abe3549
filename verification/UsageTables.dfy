/** What an observation of an agent's history rests on, line by line (host_events.py:39-139,
    decoding.py, history.py:20-56): the table of usages, the outputs, the end and the issues. */
module UsageTables {
  import opened Prelude
  import opened Measurement
  import opened Usage

  // ----- tables

  predicate DistinctKeys<V>(table: seq<Entry<V>>) {
    forall i, j :: 0 <= i < j < |table| ==> table[i].key != table[j].key
  }

  /** What is stored last under a key is found there, and nothing else is touched. */
  lemma {:induction false} StoredIsFound<V>(table: seq<Entry<V>>, key: string, value: V, other: string)
    ensures Lookup(Store(table, key, value), other) == if other == key then Some(value) else Lookup(table, other)
    decreases |table|
  {
    if table != [] && table[0].key != key {
      StoredIsFound(table[1..], key, value, other);
    }
  }

  lemma {:induction false} FoundExactlyWhen<V>(table: seq<Entry<V>>, key: string)
    ensures Lookup(table, key).Some? <==> exists i :: 0 <= i < |table| && table[i].key == key
    ensures DistinctKeys(table) ==> forall i :: 0 <= i < |table| && table[i].key == key ==> Lookup(table, key) == Some(table[i].value)
    decreases |table|
  {
    if table != [] {
      FoundExactlyWhen(table[1..], key);
      if table[0].key == key {
      } else {
        if i :| 0 <= i < |table| && table[i].key == key { assert table[1..][i - 1].key == key; }
        forall i | 0 <= i < |table| && table[i].key == key && DistinctKeys(table) ensures Lookup(table, key) == Some(table[i].value) {
          assert table[1..][i - 1] == table[i];
        }
      }
    }
  }

  lemma {:induction false} StoreKeepsDistinct<V>(table: seq<Entry<V>>, key: string, value: V)
    requires DistinctKeys(table)
    ensures DistinctKeys(Store(table, key, value))
    decreases |table|
  {
    if table != [] && table[0].key != key {
      var rest := Store(table[1..], key, value);
      StoreKeepsDistinct(table[1..], key, value);
      StoredIsFound(table[1..], key, value, table[0].key);
      FoundExactlyWhen(table[1..], table[0].key);
      FoundExactlyWhen(rest, table[0].key);
      forall i, j | 0 <= i < j < |[table[0]] + rest| ensures ([table[0]] + rest)[i].key != ([table[0]] + rest)[j].key {
        if i == 0 { assert rest[j - 1].key != table[0].key; }
      }
    }
  }

  // ----- totals

  function InputOf(u: TokenUsage): Option<nat> { Some(u.inputTokens) }
  function OutputOf(u: TokenUsage): Option<nat> { Some(u.outputTokens) }
  function CachedOf(u: TokenUsage): Option<nat> { u.cached }
  function WrittenOf(u: TokenUsage): Option<nat> { u.cacheWrite }
  function ReasoningOf(u: TokenUsage): Option<nat> { u.reasoning }

  /** The sum of a category over all entries, known if each entry knows it. */
  function SumOf(table: seq<Entry<TokenUsage>>, part: TokenUsage -> Option<nat>): Option<nat> {
    if table == [] then Some(0) else AddOption(part(table[0].value), SumOf(table[1..], part))
  }

  /** A total is the sum of every category over the entries. */
  lemma {:induction false} TotalsAreSums(table: seq<Entry<TokenUsage>>)
    requires table != []
    ensures var t := TotalUsage(table).value;
      && Some(t.inputTokens) == SumOf(table, InputOf) && Some(t.outputTokens) == SumOf(table, OutputOf)
      && t.cached == SumOf(table, CachedOf) && t.cacheWrite == SumOf(table, WrittenOf)
      && t.reasoning == SumOf(table, ReasoningOf)
  {
    if |table| == 1 {
      assert table[1..] == [];
    } else {
      TotalsAreSums(table[1..]);
    }
  }

  // ----- lines that matter

  /** The selected lines, by their position from 0. */
  predicate Included(r: Request, i: nat) {
    i + 1 >= r.firstLine
  }

  /** The usage a line reports under a key: of a turn, or of a message of the assistant. */
  function ReportedFor(claude: bool, line: Line, key: string): Option<TokenUsage> {
    if line.Broken? then None
    else
      match line.event
      case TurnCompleted(id, value) => if id == key then Some(value) else None
      case Assistant(id, usage, _) => if claude && id == Some(key) then usage else None
      case _ => None
  }

  function LastFor(r: Request, lines: seq<Line>, n: nat, key: string): Option<TokenUsage>
    requires n <= |lines|
  {
    if n == 0 then None
    else if Included(r, n - 1) && ReportedFor(r.claude, lines[n - 1], key).Some? then ReportedFor(r.claude, lines[n - 1], key)
    else LastFor(r, lines, n - 1, key)
  }

  function ReportHere(claude: bool, event: Event, key: string): Option<TokenUsage> {
    ReportedFor(claude, Readable(event, {}, false), key)
  }

  lemma MessageStores(s: State, event: Event, key: string)
    requires s.claude && event.Assistant?
    ensures var s' := AsClaude(s, event); var u := ReportHere(true, event, key);
      && (DistinctKeys(s.usages) ==> DistinctKeys(s'.usages))
      && Lookup(s'.usages, key) == if u.Some? then u else Lookup(s.usages, key)
  {
    if event.usage.Some? && event.key.Some? {
      StoredIsFound(s.usages, event.key.value, event.usage.value, key);
      if DistinctKeys(s.usages) { StoreKeepsDistinct(s.usages, event.key.value, event.usage.value); }
    }
  }

  lemma TurnStores(s: State, event: Event, key: string)
    requires event.TurnCompleted?
    ensures var s' := Fed(s, event, true); var u := ReportHere(s.claude, event, key);
      && (DistinctKeys(s.usages) ==> DistinctKeys(s'.usages))
      && Lookup(s'.usages, key) == if u.Some? then u else Lookup(s.usages, key)
  {
    StoredIsFound(s.usages, event.id, event.value, key);
    if DistinctKeys(s.usages) { StoreKeepsDistinct(s.usages, event.id, event.value); }
  }

  lemma OthersStoreNone(s: State, event: Event, included: bool, key: string)
    requires !included || (!event.TurnCompleted? && !event.Assistant?)
    ensures Fed(s, event, included).usages == s.usages
    ensures included ==> ReportHere(s.claude, event, key).None?
  {
    if event.ToolResults? { BlocksOnlyOutput(s, event.blocks); }
  }

  lemma EventStores(s: State, event: Event, included: bool, key: string)
    ensures var s' := Fed(s, event, included); var u := ReportHere(s.claude, event, key);
      && (DistinctKeys(s.usages) ==> DistinctKeys(s'.usages))
      && Lookup(s'.usages, key) == if included && u.Some? then u else Lookup(s.usages, key)
  {
    if included && event.TurnCompleted? {
      TurnStores(s, event, key);
    } else if included && event.Assistant? {
      FedAsClaude(s, event);
      if s.claude { MessageStores(s, event, key); }
    } else {
      OthersStoreNone(s, event, included, key);
    }
  }

  lemma {:induction false} BlocksOnlyOutput(s: State, blocks: seq<Block>)
    ensures var s' := WithBlocks(s, blocks); s' == s.(outputs := s'.outputs, issues := s'.issues)
    decreases |blocks|
  {
    if blocks != [] { BlocksOnlyOutput(s, blocks[..|blocks| - 1]); }
  }

  lemma {:induction false} BlocksRaise(s: State, blocks: seq<Block>, issue: Issue)
    ensures issue in WithBlocks(s, blocks).issues <==>
      issue in s.issues || (issue == NonTextToolOutput && SomeNonText(blocks))
    decreases |blocks|
  {
    if blocks != [] {
      var front, last := blocks[..|blocks| - 1], blocks[|blocks| - 1];
      BlocksRaise(s, front, issue);
      assert forall b :: b in blocks <==> b in front || b == last;
    }
  }

  lemma LineStores(r: Request, s: State, line: Line, number: nat, key: string)
    requires s.claude == r.claude
    ensures var s' := FedLine(r, s, line, number);
      && s'.claude == r.claude
      && (DistinctKeys(s.usages) ==> DistinctKeys(s'.usages))
      && Lookup(s'.usages, key) ==
         if number >= r.firstLine && ReportedFor(r.claude, line, key).Some? then ReportedFor(r.claude, line, key)
         else Lookup(s.usages, key)
  {
    if line.Readable? {
      var named := Named(s, line.models, number >= r.firstLine);
      SameHistory(named, line.event, number >= r.firstLine);
      EventStores(named, line.event, number >= r.firstLine, key);
    }
  }

  /** The table of usages has each key once, with what the last selected line reported under it. */
  lemma {:induction false} TableIsLast(r: Request, lines: seq<Line>, n: nat, key: string)
    requires n <= |lines|
    ensures var s := After(r, lines, n);
      s.claude == r.claude && DistinctKeys(s.usages) && Lookup(s.usages, key) == LastFor(r, lines, n, key)
  {
    if n > 0 {
      TableIsLast(r, lines, n - 1, key);
      LineStores(r, After(r, lines, n - 1), lines[n - 1], n, key);
    }
  }

  /** What a line sets the cumulative count to. */
  function CumulativeOf(claude: bool, line: Line): Option<TokenUsage> {
    if line.Broken? then None
    else if line.event.TokenCount? then Some(line.event.value)
    else if claude && line.event.SessionResult? then Some(line.event.value)
    else None
  }

  function LastCumulative(r: Request, lines: seq<Line>, n: nat): Option<TokenUsage>
    requires n <= |lines|
  {
    if n == 0 then None
    else if Included(r, n - 1) && CumulativeOf(r.claude, lines[n - 1]).Some? then CumulativeOf(r.claude, lines[n - 1])
    else LastCumulative(r, lines, n - 1)
  }

  lemma EventCounts(s: State, event: Event, included: bool)
    ensures var s' := Fed(s, event, included); var c := CumulativeOf(s.claude, Readable(event, {}, false));
      && s'.cumulative == (if included && c.Some? then c else s.cumulative)
      && (!event.TokenCount? ==> s'.initial == s.initial)
  {
    if event.ToolResults? { BlocksOnlyOutput(s, event.blocks); }
  }

  lemma {:induction false} CumulativeIsLast(r: Request, lines: seq<Line>, n: nat)
    requires n <= |lines| && forall i :: 0 <= i < n ==> !CountsAt(lines, i)
    ensures var s := After(r, lines, n); s.claude == r.claude && s.cumulative == LastCumulative(r, lines, n) && s.initial.None?
  {
    if n > 0 {
      CumulativeIsLast(r, lines, n - 1);
      KindIsConstant(r, lines, n);
      var s, line := After(r, lines, n - 1), lines[n - 1];
      assert !CountsAt(lines, n - 1);
      if line.Readable? { EventCounts(Named(s, line.models, n >= r.firstLine), line.event, n >= r.firstLine); }
    }
  }

  /** The entries are what the selected lines reported last, each key once. */
  ghost predicate LastReports(r: Request, lines: seq<Line>, n: nat, entries: seq<Entry<TokenUsage>>)
    requires n <= |lines|
  {
    && DistinctKeys(entries)
    && (forall i :: 0 <= i < |entries| ==> LastFor(r, lines, n, entries[i].key) == Some(entries[i].value))
    && (forall key :: LastFor(r, lines, n, key).Some? ==> exists i :: 0 <= i < |entries| && entries[i].key == key)
  }

  lemma EntriesAreLast(r: Request, lines: seq<Line>, n: nat)
    requires n <= |lines|
    ensures LastReports(r, lines, n, After(r, lines, n).usages)
  {
    var entries := After(r, lines, n).usages;
    TableIsLast(r, lines, n, "");
    forall i | 0 <= i < |entries| ensures LastFor(r, lines, n, entries[i].key) == Some(entries[i].value) {
      TableIsLast(r, lines, n, entries[i].key);
      FoundExactlyWhen(entries, entries[i].key);
    }
    forall key | LastFor(r, lines, n, key).Some? ensures exists i :: 0 <= i < |entries| && entries[i].key == key {
      TableIsLast(r, lines, n, key);
      FoundExactlyWhen(entries, key);
    }
  }

  /** Without cumulative counts a history used what its last summary says, or else the sum of what
      each turn or message reported last. */
  lemma UsageIsSummaryOrSum(r: Request, lines: seq<Line>) returns (entries: seq<Entry<TokenUsage>>)
    requires forall i :: 0 <= i < LinesRead(r, lines) ==> !CountsAt(lines, i)
    ensures var n := LinesRead(r, lines);
      && LastReports(r, lines, n, entries)
      && Read(r, lines).usage ==
         if LastCumulative(r, lines, n).Some? then LastCumulative(r, lines, n) else TotalUsage(entries)
    ensures entries != [] ==> Some(TotalUsage(entries).value.inputTokens) == SumOf(entries, InputOf)
    ensures entries != [] ==> Some(TotalUsage(entries).value.outputTokens) == SumOf(entries, OutputOf)
  {
    var n := LinesRead(r, lines);
    CumulativeIsLast(r, lines, n);
    EntriesAreLast(r, lines, n);
    entries := After(r, lines, n).usages;
    if entries != [] { TotalsAreSums(entries); }
  }

  // ----- the end of a task

  /** Whether an event ends the task, or begins or breaks it again. */
  function Decision(claude: bool, event: Event): Option<bool> {
    match event
    case TurnStarted => Some(false)
    case TurnFailed => Some(false)
    case TaskStarted => Some(false)
    case UserMessage => Some(false)
    case TurnCompleted(_, _) => Some(true)
    case TaskComplete => Some(true)
    case SessionResult(_, _, isError) => if claude then Some(!isError) else None
    case Assistant(key, usage, ended) => if claude && key.Some? && usage.Some? then Some(ended) else None
    case Human => if claude then Some(false) else None
    case _ => None
  }

  function DecidedBy(claude: bool, line: Line): Option<bool> {
    if line.Broken? then None else Decision(claude, line.event)
  }

  predicate Ended(r: Request, lines: seq<Line>, n: nat)
    requires n <= |lines|
  {
    n > 0 &&
    if Included(r, n - 1) && DecidedBy(r.claude, lines[n - 1]).Some? then DecidedBy(r.claude, lines[n - 1]).value
    else Ended(r, lines, n - 1)
  }

  lemma EventEnds(s: State, event: Event, included: bool)
    ensures Fed(s, event, included).complete ==
      if included && Decision(s.claude, event).Some? then Decision(s.claude, event).value else s.complete
  {
    if event.ToolResults? { BlocksOnlyOutput(s, event.blocks); }
  }

  lemma LineEnds(r: Request, s: State, line: Line, number: nat)
    requires s.claude == r.claude
    ensures FedLine(r, s, line, number).complete ==
      if number >= r.firstLine && DecidedBy(r.claude, line).Some? then DecidedBy(r.claude, line).value else s.complete
  {
    if line.Readable? { EventEnds(Named(s, line.models, number >= r.firstLine), line.event, number >= r.firstLine); }
  }

  /** The task counts as ended exactly when the last selected event that says so says it ended. */
  lemma {:induction false} EndedIsLast(r: Request, lines: seq<Line>, n: nat)
    requires n <= |lines|
    ensures After(r, lines, n).complete == Ended(r, lines, n)
  {
    if n > 0 {
      EndedIsLast(r, lines, n - 1);
      KindIsConstant(r, lines, n - 1);
      LineEnds(r, After(r, lines, n - 1), lines[n - 1], n);
    }
  }

  /** An observation is complete exactly when its task has ended, its usage is known, and nothing
      speaks against it. */
  lemma CompleteExactlyWhen(r: Request, lines: seq<Line>)
    ensures var o := Read(r, lines);
      o.complete <==> Ended(r, lines, LinesRead(r, lines)) && o.usage.Some? && o.issues == {}
  {
    EndedIsLast(r, lines, LinesRead(r, lines));
  }

  // ----- issues of lines

  predicate SomeNonText(blocks: seq<Block>) {
    exists b :: b in blocks && b.content.NonText?
  }

  /** The issues that a line raises by itself. */
  predicate Raises(claude: bool, partial: bool, line: Line, included: bool, issue: Issue) {
    match issue
    case BrokenEvent => line.Broken?
    case Subagent => line.Readable? && included && claude && line.subagent
    case ToolOutputUnavailable => line.Readable? && included && line.event.ToolOutput? && line.event.output.None?
    case SummaryCannotBeSliced => line.Readable? && included && claude && line.event.SessionResult? && partial
    case MixedModels => line.Readable? && included && claude && line.event.SessionResult? && line.event.manyModels
    case HostError => line.Readable? && included && claude && line.event.SessionResult? && line.event.isError
    case IdentityMissing =>
      line.Readable? && included && claude && line.event.Assistant? && line.event.usage.Some? && line.event.key.None?
    case UnsupportedStream => line.Readable? && included && claude && line.event.StreamEvent?
    case NonTextToolOutput =>
      line.Readable? && included && claude && line.event.ToolResults? && SomeNonText(line.event.blocks)
    case _ => false
  }

  predicate RaisesHere(claude: bool, partial: bool, event: Event, issue: Issue) {
    Raises(claude, partial, Readable(event, {}, false), true, issue)
  }

  lemma ResultRaises(s: State, event: Event, issue: Issue)
    requires issue != CounterRegressed && event.SessionResult? && s.claude
    ensures issue in AsClaude(s, event).issues <==> issue in s.issues || RaisesHere(true, s.partial, event, issue)
  {
  }

  lemma MessageRaises(s: State, event: Event, issue: Issue)
    requires issue != CounterRegressed && (event.Assistant? || event.Human? || event.StreamEvent?) && s.claude
    ensures issue in AsClaude(s, event).issues <==> issue in s.issues || RaisesHere(true, s.partial, event, issue)
  {
  }

  predicate OnlyClaude(event: Event) {
    event.SessionResult? || event.Assistant? || event.Human? || event.StreamEvent? || event.ToolResults?
  }

  lemma FedAsClaude(s: State, event: Event)
    requires OnlyClaude(event)
    ensures Fed(s, event, true) == if s.claude then AsClaude(s, event) else s
  {
  }

  lemma PlainRaises(s: State, event: Event, issue: Issue)
    requires issue != CounterRegressed && !OnlyClaude(event)
    ensures issue in Fed(s, event, true).issues <==> issue in s.issues || (issue == ToolOutputUnavailable && Silent(event))
  {
  }

  predicate Silent(event: Event) {
    event.ToolOutput? && event.output.None?
  }

  lemma PlainKinds(claude: bool, partial: bool, event: Event, issue: Issue)
    ensures !OnlyClaude(event) ==> (RaisesHere(claude, partial, event, issue) <==> issue == ToolOutputUnavailable && Silent(event))
    ensures OnlyClaude(event) && !claude ==> !RaisesHere(claude, partial, event, issue)
    ensures event.ToolResults? && claude ==>
              (RaisesHere(claude, partial, event, issue) <==> issue == NonTextToolOutput && SomeNonText(event.blocks))
  {
  }

  lemma EventRaises(s: State, event: Event, issue: Issue)
    requires issue != CounterRegressed
    ensures issue in Fed(s, event, true).issues <==> issue in s.issues || RaisesHere(s.claude, s.partial, event, issue)
  {
    PlainKinds(s.claude, s.partial, event, issue);
    if !OnlyClaude(event) {
      PlainRaises(s, event, issue);
    } else {
      FedAsClaude(s, event);
      if s.claude { ClaudeRaises(s, event, issue); }
    }
  }

  lemma ClaudeRaises(s: State, event: Event, issue: Issue)
    requires issue != CounterRegressed && OnlyClaude(event) && s.claude
    ensures issue in AsClaude(s, event).issues <==> issue in s.issues || RaisesHere(true, s.partial, event, issue)
  {
    if event.ToolResults? {
      PlainKinds(true, s.partial, event, issue);
      BlocksRaise(s, event.blocks, issue);
    } else if event.SessionResult? {
      ResultRaises(s, event, issue);
    } else {
      MessageRaises(s, event, issue);
    }
  }

  lemma SkippedRaises(s: State, event: Event, issue: Issue)
    requires issue != CounterRegressed
    ensures issue in Fed(s, event, false).issues <==> issue in s.issues
  {
  }

  lemma LineRaises(r: Request, s: State, line: Line, number: nat, issue: Issue)
    requires issue != CounterRegressed && s.claude == r.claude
    ensures issue in FedLine(r, s, line, number).issues <==>
      issue in s.issues || Raises(r.claude, s.partial, line, number >= r.firstLine, issue)
  {
    if line.Readable? {
      var named := Named(s, line.models, number >= r.firstLine);
      SameHistory(named, line.event, number >= r.firstLine);
      KindOfLine(r.claude, s.partial, line, number >= r.firstLine, issue);
      if number >= r.firstLine {
        EventRaises(named, line.event, issue);
      } else {
        SkippedRaises(named, line.event, issue);
      }
    }
  }

  lemma KindOfLine(claude: bool, partial: bool, line: Line, included: bool, issue: Issue)
    requires line.Readable?
    ensures Raises(claude, partial, line, included, issue) <==>
      included && ((issue == Subagent && claude && line.subagent) || RaisesHere(claude, partial, line.event, issue))
  {
  }

  lemma SameHistory(s: State, event: Event, included: bool)
    ensures Fed(s, event, included).partial == s.partial && Fed(s, event, included).claude == s.claude
  {
    if event.ToolResults? { BlocksOnlyOutput(s, event.blocks); }
  }

  lemma {:induction false} KindIsConstant(r: Request, lines: seq<Line>, n: nat)
    requires n <= |lines|
    ensures After(r, lines, n).claude == r.claude && After(r, lines, n).partial == (r.firstLine > 1)
  {
    if n > 0 {
      KindIsConstant(r, lines, n - 1);
      var s, line := After(r, lines, n - 1), lines[n - 1];
      if line.Readable? { SameHistory(Named(s, line.models, n >= r.firstLine), line.event, n >= r.firstLine); }
    }
  }

  ghost predicate SomeLineRaises(r: Request, lines: seq<Line>, n: nat, issue: Issue)
    requires n <= |lines|
  {
    exists i :: 0 <= i < n && RaisesAt(r, lines, i, issue)
  }

  predicate RaisesAt(r: Request, lines: seq<Line>, i: nat, issue: Issue)
    requires i < |lines|
  {
    Raises(r.claude, r.firstLine > 1, lines[i], Included(r, i), issue)
  }

  lemma RaisesOneMore(r: Request, lines: seq<Line>, n: nat, issue: Issue)
    requires 0 < n <= |lines|
    ensures SomeLineRaises(r, lines, n, issue) <==>
      SomeLineRaises(r, lines, n - 1, issue) || RaisesAt(r, lines, n - 1, issue)
  {
  }

  /** Any issue but a fall of the counters stands exactly when some line that was read raised it. */
  lemma {:induction false} IssuesOfLines(r: Request, lines: seq<Line>, n: nat, issue: Issue)
    requires n <= |lines| && issue != CounterRegressed
    ensures issue in After(r, lines, n).issues <==> SomeLineRaises(r, lines, n, issue)
  {
    if n > 0 {
      IssuesOfLines(r, lines, n - 1, issue);
      KindIsConstant(r, lines, n - 1);
      LineRaises(r, After(r, lines, n - 1), lines[n - 1], n, issue);
      RaisesOneMore(r, lines, n, issue);
    }
  }

  // ----- the model

  ghost predicate Names(r: Request, lines: seq<Line>, n: nat, model: string)
    requires n <= |lines|
  {
    exists i :: 0 <= i < n && Included(r, i) && model in lines[i].models
  }

  lemma EventNamesNone(s: State, event: Event, included: bool)
    ensures Fed(s, event, included).models == s.models
  {
    if event.ToolResults? { BlocksOnlyOutput(s, event.blocks); }
  }

  /** The models are those that the selected lines name. */
  lemma {:induction false} ModelsAreNamed(r: Request, lines: seq<Line>, n: nat, model: string)
    requires n <= |lines|
    ensures model in After(r, lines, n).models <==> Names(r, lines, n, model)
  {
    if n > 0 {
      ModelsAreNamed(r, lines, n - 1, model);
      var s, line := After(r, lines, n - 1), lines[n - 1];
      if line.Readable? { EventNamesNone(Named(s, line.models, n >= r.firstLine), line.event, n >= r.firstLine); }
    }
  }

  // ----- prompts and boundaries

  predicate IsPrompt(claude: bool, line: Line) {
    line.Readable? && (line.event.TurnStarted? || line.event.UserMessage? || (claude && line.event.Human?))
  }

  /** How many selected lines are prompts of a human. */
  function Prompts(r: Request, lines: seq<Line>, n: nat): nat
    requires n <= |lines|
  {
    if n == 0 then 0
    else Prompts(r, lines, n - 1) + (if Included(r, n - 1) && IsPrompt(r.claude, lines[n - 1]) then 1 else 0)
  }

  /** A task begins in the selection. */
  predicate Begins(r: Request, lines: seq<Line>, n: nat)
    requires n <= |lines|
  {
    n > 0 && (Begins(r, lines, n - 1) || (Included(r, n - 1) && IsBeginning(r.claude, lines[n - 1])))
  }

  predicate IsBeginning(claude: bool, line: Line) {
    IsPrompt(claude, line) || (line.Readable? && line.event.TaskStarted?)
  }

  lemma EventPrompts(s: State, event: Event, included: bool)
    ensures var s' := Fed(s, event, included); var line := Readable(event, {}, false);
      && s'.humanPrompts == s.humanPrompts + (if included && IsPrompt(s.claude, line) then 1 else 0)
      && s'.started == (s.started || (included && IsBeginning(s.claude, line)))
  {
    if event.ToolResults? { BlocksOnlyOutput(s, event.blocks); }
  }

  lemma {:induction false} PromptsAreCounted(r: Request, lines: seq<Line>, n: nat)
    requires n <= |lines|
    ensures After(r, lines, n).humanPrompts == Prompts(r, lines, n) && After(r, lines, n).started == Begins(r, lines, n)
  {
    if n > 0 {
      PromptsAreCounted(r, lines, n - 1);
      KindIsConstant(r, lines, n - 1);
      var s, line := After(r, lines, n - 1), lines[n - 1];
      if line.Readable? { EventPrompts(Named(s, line.models, n >= r.firstLine), line.event, n >= r.firstLine); }
    }
  }

  lemma UsageSet(r: Request, s: State, issue: Issue)
    requires issue in {SeveralTasks, NoBoundary, UsageUnavailable, ModelUnavailable}
    ensures issue in UsageIssues(r, s) <==>
      match issue
      case SeveralTasks => s.humanPrompts > 1
      case NoBoundary => r.firstLine > 1 && !s.started
      case UsageUnavailable => UsageOf(s).None?
      case _ => false
  {
  }

  lemma ModelSet(r: Request, s: State, issue: Issue)
    requires issue in {SeveralTasks, NoBoundary, UsageUnavailable, ModelUnavailable}
    ensures issue in ModelIssues(r, s) <==> issue == ModelUnavailable && ModelOf(r, s).None?
  {
  }

  /** The reason for an issue that no line raises. */
  predicate LateReason(r: Request, lines: seq<Line>, issue: Issue) {
    var n := LinesRead(r, lines);
    match issue
    case SeveralTasks => Prompts(r, lines, n) > 1
    case NoBoundary => r.firstLine > 1 && !Begins(r, lines, n)
    case UsageUnavailable => Read(r, lines).usage.None?
    case ModelUnavailable => Read(r, lines).model.None?
    case _ => false
  }

  /** The remaining issues of an observation, each exactly for its reason. */
  lemma LateIssuesExactlyWhen(r: Request, lines: seq<Line>, issue: Issue)
    requires issue in {SeveralTasks, NoBoundary, UsageUnavailable, ModelUnavailable}
    ensures issue in Read(r, lines).issues <==> LateReason(r, lines, issue)
  {
    PromptsAreCounted(r, lines, LinesRead(r, lines));
    UsageSet(r, After(r, lines, LinesRead(r, lines)), issue);
    ModelSet(r, After(r, lines, LinesRead(r, lines)), issue);
    LateIssues(r, lines, issue);
  }

  /** No line raises these. */
  lemma LateIssues(r: Request, lines: seq<Line>, issue: Issue)
    requires issue in {SeveralTasks, NoBoundary, UsageUnavailable, ModelUnavailable}
    ensures var s := After(r, lines, LinesRead(r, lines));
      issue in Read(r, lines).issues <==> issue in UsageIssues(r, s) + ModelIssues(r, s)
  {
    IssuesOfLines(r, lines, LinesRead(r, lines), issue);
    forall i | 0 <= i < LinesRead(r, lines) ensures !RaisesAt(r, lines, i, issue) {}
  }
}
