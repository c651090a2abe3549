/** How often and how fast the outbox tries (export_service.py:130-174), the service as an
    object, and the loop that watches a run and pushes (automatic_export.py:41-61). */
module OutboxRetries {
  import opened Prelude
  import opened Outbox
  import opened OutboxHistory

  // ----- the pause

  lemma {:induction false} Pow2Grows(j: nat, k: nat)
    requires j <= k
    ensures Pow2(j) <= Pow2(k)
    decreases k
  {
    if j < k { Pow2Grows(j, k - 1); }
  }

  lemma ProductGrows(a: nat, x: nat, y: nat)
    requires x <= y
    ensures a * x <= a * y
  {
  }

  /** The pause never shrinks from one failure to the next and is bounded. */
  lemma DelayGrows(d: Delivery, j: nat, k: nat)
    requires j <= k
    ensures Delay(d, j) <= Delay(d, k) <= SECOND * d.retryMax
    ensures d.retryInitial >= 1 && d.retryMax >= 1 ==> Delay(d, j) >= SECOND
  {
    Pow2Grows(Min(j, 20), Min(k, 20));
    ProductGrows(d.retryInitial, Pow2(Min(j, 20)), Pow2(Min(k, 20)));
    if d.retryInitial >= 1 {
      ProductGrows(Pow2(Min(j, 20)), 1, d.retryInitial);
    }
  }

  lemma ProductDoubles(a: nat, x: nat)
    ensures a * (2 * x) == 2 * (a * x)
  {
  }

  /** It starts with the first pause and doubles with each failure, for twenty of them, up to the
      longest. */
  lemma DelayDoubles(d: Delivery, k: nat)
    ensures Delay(d, 0) == SECOND * Min(d.retryMax, d.retryInitial)
    ensures k < 20 ==> Delay(d, k + 1) == (if 2 * Delay(d, k) <= SECOND * d.retryMax then 2 * Delay(d, k) else SECOND * d.retryMax)
    ensures k >= 20 ==> Delay(d, k + 1) == Delay(d, k)
  {
    if k < 20 {
      ProductDoubles(d.retryInitial, Pow2(k));
      assert Min(k, 20) == k && Min(k + 1, 20) == k + 1 && Pow2(k + 1) == 2 * Pow2(k);
    }
  }

  // ----- counting sends

  function SendsOf(sends: seq<Sent>, n: Snapshot): nat {
    if sends == [] then 0
    else SendsOf(sends[..|sends| - 1], n) + (if sends[|sends| - 1].snapshot == n then 1 else 0)
  }

  /** Sends nobody asked for explicitly. */
  function UnaskedOf(sends: seq<Sent>, n: Snapshot): nat {
    if sends == [] then 0
    else
      var last := sends[|sends| - 1];
      UnaskedOf(sends[..|sends| - 1], n) + (if last.snapshot == n && !last.retry then 1 else 0)
  }

  lemma {:induction false} UnsentHasNone(sends: seq<Sent>, n: Snapshot)
    requires forall i :: 0 <= i < |sends| ==> sends[i].snapshot.sequence < n.sequence
    ensures SendsOf(sends, n) == 0
    decreases |sends|
  {
    if sends != [] { UnsentHasNone(sends[..|sends| - 1], n); }
  }

  /** A send that was not asked for comes within the allowed attempts and after the pause. */
  ghost predicate Timely(sends: seq<Sent>, i: nat)
    requires i < |sends|
  {
    var x, k := sends[i], SendsOf(sends[..i], sends[i].snapshot);
    !x.retry ==>
      && k < x.config.delivery.maxAttempts
      && (k > 0 ==>
        && i > 0 && sends[i - 1].snapshot == x.snapshot
        && x.at >= sends[i - 1].answeredAt + Delay(x.config.delivery, k - 1))
  }

  /** `lost` are the snapshots of the sends whose answers were lost, each as often as that happened.
      The slot counts the other sends of its snapshot; if none was lost, it remembers when the
      last one failed. */
  ghost predicate Counted(store: ExportState, sends: seq<Sent>, lost: multiset<Snapshot>) {
    store.pending.Some? ==>
      var p := store.pending.value;
      && p.attempts + lost[p.snapshot] == SendsOf(sends, p.snapshot)
      && (p.attempts > 0 && lost[p.snapshot] == 0 ==>
        && sends != [] && store.digest.Some? && sends[|sends| - 1].snapshot == p.snapshot
        && p.nextAttemptAt == sends[|sends| - 1].answeredAt + Delay(store.digest.value.delivery, p.attempts - 1))
  }

  /** Unasked sends stay within the allowed attempts and the lost answers, and are timely if no
      answer was lost. */
  ghost predicate Limited(sends: seq<Sent>, lost: multiset<Snapshot>, i: nat)
    requires i < |sends|
  {
    var x := sends[i];
    && UnaskedOf(sends, x.snapshot) <= x.config.delivery.maxAttempts + lost[x.snapshot]
    && (lost[x.snapshot] == 0 ==> Timely(sends, i))
  }

  ghost predicate AllLimited(sends: seq<Sent>, lost: multiset<Snapshot>) {
    forall i :: 0 <= i < |sends| ==> Limited(sends, lost, i)
  }

  ghost predicate Tally(w: World, lost: multiset<Snapshot>) {
    Inv(w) && Counted(w.store, w.sends, lost) && AllLimited(w.sends, lost)
  }

  // ----- effects that send nothing

  /** A save that leaves the slot alone or empties it, or puts a new snapshot into it. */
  ghost predicate Steady(w: World, e: Effect) {
    && Fits(w, e)
    && match e
    case Saved(s) => s.pending.None? || (s.pending == w.store.pending && s.digest == w.store.digest)
    case Prepared(s) => s.pending.Some? && s.pending.value.attempts == 0
    case Send(_) => false
  }

  ghost predicate AllSteady(w: World, effects: seq<Effect>)
    decreases |effects|
  {
    effects == [] || (Steady(w, effects[0]) && AllSteady(Do(w, effects[0]), effects[1..]))
  }

  /** No answer can be lost before the first send. */
  ghost predicate LostWereSent(w: World, lost: multiset<Snapshot>) {
    forall n :: n in lost ==> n.sequence <= w.store.sequence
  }

  lemma SteadyKeepsTally(w: World, e: Effect, lost: multiset<Snapshot>)
    requires Tally(w, lost) && LostWereSent(w, lost) && Steady(w, e)
    ensures Tally(Do(w, e), lost) && LostWereSent(Do(w, e), lost)
  {
    EffectKeepsInv(w, e);
    if e.Prepared? {
      var n := e.state.pending.value.snapshot;
      forall i | 0 <= i < |w.sends| ensures w.sends[i].snapshot.sequence < n.sequence {
        var k :| 0 <= k < |w.made| && w.made[k] == Made(w.sends[i].snapshot, w.sends[i].config);
      }
      UnsentHasNone(w.sends, n);
      assert n !in lost;
    }
  }

  lemma {:induction false} SteadyPrefix(w: World, effects: seq<Effect>, lost: multiset<Snapshot>, cut: nat)
    requires Tally(w, lost) && LostWereSent(w, lost) && AllSteady(w, effects) && cut <= |effects|
    ensures Tally(DoAll(w, effects[..cut]), lost) && LostWereSent(DoAll(w, effects[..cut]), lost)
    decreases |effects|
  {
    if cut > 0 {
      SteadyKeepsTally(w, effects[0], lost);
      SteadyPrefix(Do(w, effects[0]), effects[1..], lost, cut - 1);
      assert effects[..cut][1..] == effects[1..][..cut - 1] && effects[..cut][0] == effects[0];
    }
  }

  lemma {:induction false} SteadyConcat(w: World, a: seq<Effect>, b: seq<Effect>)
    requires AllSteady(w, a) && AllSteady(DoAll(w, a), b)
    ensures AllSteady(w, a + b)
    decreases |a|
  {
    if a == [] {
      assert a + b == b;
    } else {
      assert (a + b)[1..] == a[1..] + b;
      SteadyConcat(Do(w, a[0]), a[1..], b);
    }
  }

  lemma SteadyOne(w: World, e: Effect)
    requires Steady(w, e)
    ensures AllSteady(w, [e]) && DoAll(w, [e]) == Do(w, e)
  {
    assert [e][1..] == [];
  }

  lemma SyncIsSteady(w: World, now: Time)
    ensures AllSteady(w, SyncEffects(w.config, now, w.store))
    ensures DoAll(w, SyncEffects(w.config, now, w.store)) == w.(store := Synchronize(w.config, now, w.store))
  {
    var s1 := SyncDigest(w.config, w.store);
    var s2 := Expire(w.config, now, s1);
    SyncFits(w, now);
    if s1 != w.store { SteadyOne(w, Saved(s1)); }
    if s2 != s1 { SteadyOne(w.(store := s1), Saved(s2)); }
    SteadyConcat(w, SaveIfNew(w.store, s1), SaveIfNew(s1, s2));
  }

  lemma PrepareIsSteady(w: World, s2: ExportState, automatic: bool, env: Env)
    requires w.store.digest == Some(w.config) && IsNew(w, env.newSnapshot)
    requires Prepare(w.config, w.store, automatic, env) == Ok(s2)
    ensures AllSteady(w, PrepareEffects(w.store, s2))
    ensures var w' := DoAll(w, PrepareEffects(w.store, s2)); w'.store == s2 && w'.config == w.config
  {
    PrepareFits(w, s2, automatic, env);
    if s2 != w.store { SteadyOne(w, Prepared(s2)); }
  }

  // ----- sending

  lemma OlderSendsStayLimited(sends: seq<Sent>, x: Sent, lost: multiset<Snapshot>, lost': multiset<Snapshot>)
    requires AllLimited(sends, lost) && lost <= lost'
    requires forall i :: 0 <= i < |sends| && sends[i].snapshot == x.snapshot ==> sends[i].config == x.config
    requires UnaskedOf(sends + [x], x.snapshot) <= x.config.delivery.maxAttempts + lost'[x.snapshot]
    requires lost'[x.snapshot] == 0 ==> Timely(sends + [x], |sends|)
    ensures AllLimited(sends + [x], lost')
  {
    var all := sends + [x];
    forall i | 0 <= i < |all| ensures Limited(all, lost', i) {
      if i < |sends| {
        assert Limited(sends, lost, i) && all[..i] == sends[..i] && all[..|sends|] == sends;
        assert lost[all[i].snapshot] <= lost'[all[i].snapshot];
      }
    }
  }

  /** The send of a push, with its answer saved or lost. */
  lemma SendIsLimited(w: World, retry: bool, env: Env, lost: multiset<Snapshot>, lost': multiset<Snapshot>)
    requires Tally(w, lost) && w.store.digest == Some(w.config) && w.store.pending.Some?
    requires MaySend(w.config, w.store.pending.value, retry, env.checkedAt)
    requires lost' == lost || lost' == lost + multiset{w.store.pending.value.snapshot}
    ensures AllLimited(w.sends + [Sent(w.store.pending.value.snapshot, w.config, retry, env.checkedAt, env.answeredAt)], lost')
  {
    var p := w.store.pending.value;
    var x := Sent(p.snapshot, w.config, retry, env.checkedAt, env.answeredAt);
    var all := w.sends + [x];
    assert all[..|w.sends|] == w.sends;
    SameConfig(w, x);
    UnaskedIsPart(w.sends, p.snapshot);
    UnaskedWasLimited(w, lost);
    OlderSendsStayLimited(w.sends, x, lost, lost');
  }

  /** All sends of the snapshot in the slot are under the configuration of the slot. */
  lemma SameConfig(w: World, x: Sent)
    requires Inv(w) && w.store.pending.Some? && w.store.digest == Some(x.config)
    requires x.snapshot == w.store.pending.value.snapshot
    ensures forall i :: 0 <= i < |w.sends| && w.sends[i].snapshot == x.snapshot ==> w.sends[i].config == x.config
  {
    assert Fits(w, Send(x));
    EffectKeepsInv(w, Send(x));
    var w' := Do(w, Send(x));
    forall i | 0 <= i < |w.sends| && w.sends[i].snapshot == x.snapshot ensures w.sends[i].config == x.config {
      SendsAreOrderly(w', i, |w.sends|);
      assert w'.sends[i] == w.sends[i];
    }
  }

  lemma {:induction false} UnaskedIsPart(sends: seq<Sent>, n: Snapshot)
    ensures UnaskedOf(sends, n) <= SendsOf(sends, n)
    ensures SendsOf(sends, n) > 0 <==> exists i :: 0 <= i < |sends| && sends[i].snapshot == n
    decreases |sends|
  {
    if sends != [] {
      UnaskedIsPart(sends[..|sends| - 1], n);
      if i :| 0 <= i < |sends| && sends[i].snapshot == n {
        if i < |sends| - 1 { assert sends[..|sends| - 1][i].snapshot == n; }
      }
    }
  }

  lemma UnaskedWasLimited(w: World, lost: multiset<Snapshot>)
    requires Tally(w, lost) && w.store.pending.Some? && w.store.digest == Some(w.config)
    ensures UnaskedOf(w.sends, w.store.pending.value.snapshot)
      <= w.config.delivery.maxAttempts + lost[w.store.pending.value.snapshot]
  {
    var n := w.store.pending.value.snapshot;
    UnaskedIsPart(w.sends, n);
    if SendsOf(w.sends, n) > 0 {
      var i :| 0 <= i < |w.sends| && w.sends[i].snapshot == n;
      assert Limited(w.sends, lost, i);
      SameConfig(w, Sent(n, w.config, false, 0, 0));
    }
  }

  lemma SendKeepsTally(w: World, retry: bool, env: Env, lost: multiset<Snapshot>)
    requires Tally(w, lost) && LostWereSent(w, lost) && w.store.digest == Some(w.config) && w.store.pending.Some?
    requires MaySend(w.config, w.store.pending.value, retry, env.checkedAt)
    ensures var p := w.store.pending.value; var x := Sent(p.snapshot, w.config, retry, env.checkedAt, env.answeredAt);
      var w1 := Do(w, Send(x)); var w2 := Do(w1, Saved(AnswerState(w.config, w.store, p, env)));
      && Tally(w1, lost + multiset{p.snapshot}) && LostWereSent(w1, lost + multiset{p.snapshot})
      && Tally(w2, lost) && LostWereSent(w2, lost)
  {
    var p := w.store.pending.value;
    var x := Sent(p.snapshot, w.config, retry, env.checkedAt, env.answeredAt);
    var w1 := Do(w, Send(x));
    EffectKeepsInv(w, Send(x));
    EffectKeepsInv(w1, Saved(AnswerState(w.config, w.store, p, env)));
    assert (w.sends + [x])[..|w.sends|] == w.sends;
    SendIsLimited(w, retry, env, lost, lost + multiset{p.snapshot});
    SendIsLimited(w, retry, env, lost, lost);
  }

  // ----- operations, cut anywhere

  /** The snapshot whose answer a call loses: the crash comes after its send and before the save. */
  function LostBy(w: World, c: Call): multiset<Snapshot> {
    LostAt(Effects(w, c.operation), c.cut)
  }

  function LostAt(effects: seq<Effect>, cut: nat): multiset<Snapshot> {
    if 0 < cut < |effects| && effects[cut - 1].Send? then multiset{effects[cut - 1].sent.snapshot} else multiset{}
  }

  function LostIn(w: World, calls: seq<Call>): multiset<Snapshot>
    decreases |calls|
  {
    if calls == [] then multiset{} else LostBy(w, calls[0]) + LostIn(Perform(w, calls[0]), calls[1..])
  }

  lemma {:induction false} SteadySendsNothing(w: World, effects: seq<Effect>)
    requires AllSteady(w, effects)
    ensures forall i :: 0 <= i < |effects| ==> !effects[i].Send?
    decreases |effects|
  {
    if effects != [] { SteadySendsNothing(Do(w, effects[0]), effects[1..]); }
  }

  lemma {:induction false} DoConcat(w: World, a: seq<Effect>, b: seq<Effect>)
    ensures DoAll(w, a + b) == DoAll(DoAll(w, a), b)
    decreases |a|
  {
    if a == [] {
      assert a + b == b;
    } else {
      assert (a + b)[1..] == a[1..] + b;
      DoConcat(Do(w, a[0]), a[1..], b);
    }
  }

  /** The end of a push that sends. */
  predicate IsSend(w: World, retry: bool, env: Env, effects: seq<Effect>) {
    && w.store.pending.Some? && w.store.digest == Some(w.config)
    && var p := w.store.pending.value;
    && MaySend(w.config, p, retry, env.checkedAt)
    && effects == [Send(Sent(p.snapshot, w.config, retry, env.checkedAt, env.answeredAt)),
                   Saved(AnswerState(w.config, w.store, p, env))]
  }

  /** A push is a beginning that sends nothing and, if it comes that far, a send and its save. */
  lemma PushInTwo(w: World, retry: bool, automatic: bool, env: Env) returns (pre: seq<Effect>, rest: seq<Effect>)
    requires IsNew(w, env.newSnapshot)
    ensures PushEffects(w.config, w.store, retry, automatic, env) == pre + rest
    ensures AllSteady(w, pre) && (rest == [] || IsSend(DoAll(w, pre), retry, env, rest))
  {
    SyncIsSteady(w, env.syncedAt);
    var s1 := Synchronize(w.config, env.syncedAt, w.store);
    var w1 := w.(store := s1);
    pre, rest := SyncEffects(w.config, env.syncedAt, w.store), [];
    assert pre + rest == pre;
    if !(PushIsOff(w.config, automatic) || (retry && s1.pending.None?)) {
      var r := Prepare(w.config, s1, automatic, env);
      if r.Ok? {
        PrepareIsSteady(w1, r.value, automatic, env);
        PrepareFits(w1, r.value, automatic, env);
        SteadyConcat(w, pre, PrepareEffects(s1, r.value));
        DoConcat(w, pre, PrepareEffects(s1, r.value));
        pre := pre + PrepareEffects(s1, r.value);
        if r.value.pending.Some? {
          rest := SendEffects(w.config, r.value, r.value.pending.value, retry, env);
        }
      }
    }
  }

  lemma CutInTwo(w: World, pre: seq<Effect>, rest: seq<Effect>, cut: nat)
    requires cut <= |pre| + |rest|
    ensures DoAll(w, (pre + rest)[..cut])
      == if cut <= |pre| then DoAll(w, pre[..cut]) else DoAll(DoAll(w, pre), rest[..cut - |pre|])
  {
    if cut <= |pre| {
      assert (pre + rest)[..cut] == pre[..cut];
    } else {
      assert (pre + rest)[..cut] == pre + rest[..cut - |pre|];
      DoConcat(w, pre, rest[..cut - |pre|]);
    }
  }

  lemma DoOne(w: World, e: Effect)
    ensures DoAll(w, [e]) == Do(w, e)
  {
    assert [e][1..] == [];
  }

  lemma DoTwo(w: World, e: Effect, f: Effect)
    ensures DoAll(w, [e, f]) == Do(Do(w, e), f)
  {
    assert [e, f][1..] == [f];
    DoOne(Do(w, e), f);
  }

  lemma SendCutKeepsTally(w: World, retry: bool, env: Env, rest: seq<Effect>, cut: nat, lost: multiset<Snapshot>)
    requires Tally(w, lost) && LostWereSent(w, lost) && IsSend(w, retry, env, rest) && 0 < cut <= 2
    ensures var lost' := if cut == 1 then lost + multiset{rest[0].sent.snapshot} else lost;
      Tally(DoAll(w, rest[..cut]), lost') && LostWereSent(DoAll(w, rest[..cut]), lost')
  {
    SendKeepsTally(w, retry, env, lost);
    if cut == 1 {
      assert rest[..1] == [rest[0]];
      DoOne(w, rest[0]);
    } else {
      assert rest[..2] == rest == [rest[0], rest[1]];
      DoTwo(w, rest[0], rest[1]);
    }
  }

  /** Effects that send nothing, and then perhaps a send and its save, cut anywhere. */
  lemma CutKeepsTally(w: World, pre: seq<Effect>, rest: seq<Effect>, retry: bool, env: Env, cut: nat,
      lost: multiset<Snapshot>)
    requires Tally(w, lost) && LostWereSent(w, lost) && cut <= |pre| + |rest|
    requires AllSteady(w, pre) && (rest == [] || IsSend(DoAll(w, pre), retry, env, rest))
    ensures Tally(DoAll(w, (pre + rest)[..cut]), lost + LostAt(pre + rest, cut))
    ensures LostWereSent(DoAll(w, (pre + rest)[..cut]), lost + LostAt(pre + rest, cut))
  {
    assert lost + multiset{} == lost;
    CutInTwo(w, pre, rest, cut);
    if cut <= |pre| {
      SteadySendsNothing(w, pre);
      SteadyPrefix(w, pre, lost, cut);
      assert LostAt(pre + rest, cut) == multiset{};
    } else {
      assert pre[..|pre|] == pre;
      SteadyPrefix(w, pre, lost, |pre|);
      SendCutKeepsTally(DoAll(w, pre), retry, env, rest, cut - |pre|, lost);
      assert (pre + rest)[cut - 1] == rest[cut - 1 - |pre|];
    }
  }

  lemma PreviewIsSteady(w: World, env: Env)
    requires IsNew(w, env.newSnapshot)
    ensures AllSteady(w, PreviewEffects(w.config, w.store, env))
  {
    SyncIsSteady(w, env.syncedAt);
    var s1 := Synchronize(w.config, env.syncedAt, w.store);
    var sync := SyncEffects(w.config, env.syncedAt, w.store);
    var r := Prepare(w.config, s1, false, env);
    if r.Ok? {
      SyncFits(w, env.syncedAt);
      PrepareIsSteady(w.(store := s1), r.value, false, env);
      SteadyConcat(w, sync, PrepareEffects(s1, r.value));
    } else {
      assert sync + [] == sync;
    }
  }

  lemma CallKeepsTally(w: World, c: Call, lost: multiset<Snapshot>)
    requires Tally(w, lost) && LostWereSent(w, lost) && NewFor(w, c.operation)
    ensures Tally(Perform(w, c), lost + LostBy(w, c)) && LostWereSent(Perform(w, c), lost + LostBy(w, c))
  {
    var effects := Effects(w, c.operation);
    var cut := Min(c.cut, |effects|);
    assert lost + multiset{} == lost;
    match c.operation
    case Edit(_) =>
    case Look(env) =>
      SyncIsSteady(w, env.syncedAt);
      SteadySendsNothing(w, effects);
      SteadyPrefix(w, effects, lost, cut);
    case Preview(env) =>
      PreviewIsSteady(w, env);
      SteadySendsNothing(w, effects);
      SteadyPrefix(w, effects, lost, cut);
    case Push(retry, automatic, env) =>
      var pre, rest := PushInTwo(w, retry, automatic, env);
      CutKeepsTally(w, pre, rest, retry, env, cut, lost);
  }

  lemma {:induction false} HistoryKeepsTally(w: World, calls: seq<Call>, lost: multiset<Snapshot>)
    requires Tally(w, lost) && LostWereSent(w, lost) && FreshCalls(w, calls)
    ensures Tally(PerformAll(w, calls), lost + LostIn(w, calls))
    decreases |calls|
  {
    if calls != [] {
      CallKeepsTally(w, calls[0], lost);
      FreshAfterCall(w, calls);
      HistoryKeepsTally(Perform(w, calls[0]), calls[1..], lost + LostBy(w, calls[0]));
      assert lost + LostBy(w, calls[0]) + LostIn(Perform(w, calls[0]), calls[1..]) == lost + LostIn(w, calls);
    } else {
      assert lost + LostIn(w, calls) == lost;
    }
  }

  /** The retry bound, whatever crashes: a snapshot is sent unasked at most the allowed number of
      times, and once more for each answer to it that a crash lost before it was saved. While none
      was lost, no unasked send comes before the pause after the failure before it. */
  lemma RetriesAreBounded(config: Configuration, calls: seq<Call>, i: nat)
    requires var w := World(config, INITIAL, [], []); FreshCalls(w, calls) && i < |PerformAll(w, calls).sends|
    ensures var w := World(config, INITIAL, [], []); var sends := PerformAll(w, calls).sends;
      var n, lost := sends[i].snapshot, LostIn(w, calls);
      && UnaskedOf(sends, n) <= sends[i].config.delivery.maxAttempts + lost[n]
      && (lost[n] == 0 ==> Timely(sends, i))
  {
    var w := World(config, INITIAL, [], []);
    StartIsGood(config);
    HistoryKeepsTally(w, calls, multiset{});
    assert multiset{} + LostIn(w, calls) == LostIn(w, calls);
    assert Limited(PerformAll(w, calls).sends, LostIn(w, calls), i);
  }

  // ----- lost answers do defeat the bound

  /** A crash between the answer and its save leaves the attempt uncounted: the same send can
      happen again at once. */
  lemma CrashedSendIsNotCounted(w: World, env: Env)
    requires w.store == Synchronize(w.config, env.syncedAt, w.store) && w.store.pending.Some?
    requires w.config.mode != Disabled && MaySend(w.config, w.store.pending.value, false, env.checkedAt)
    ensures var x := Sent(w.store.pending.value.snapshot, w.config, false, env.checkedAt, env.answeredAt);
      Perform(w, Call(Push(false, false, env), 1)) == w.(sends := w.sends + [x])
  {
    var effects := PushEffects(w.config, w.store, false, false, env);
    var sending := SendEffects(w.config, w.store, w.store.pending.value, false, env);
    assert SyncDigest(w.config, w.store) == w.store;
    assert SyncEffects(w.config, env.syncedAt, w.store) == [] && PrepareEffects(w.store, w.store) == [];
    assert effects == [] + [] + sending == sending;
    assert effects[..1] == [sending[0]] && Effects(w, Push(false, false, env)) == effects;
    DoOne(w, sending[0]);
  }

  /** At time 0 and with nothing to report; `id` is the fresh identifier. */
  function At(id: Id): Env {
    Env(0, 0, 0, 0, 0, id, "", "", 0, None)
  }

  /** `m` pushes with identifiers from `id` on, each cut right after its send. */
  function CutPushes(id: Id, m: nat): seq<Call>
    decreases m
  {
    if m == 0 then [] else [Call(Push(false, false, At(id)), 1)] + CutPushes(id + 1, m - 1)
  }

  lemma {:induction false} CutPushesAre(id: Id, m: nat)
    ensures |CutPushes(id, m)| == m
    ensures forall i :: 0 <= i < m ==> CutPushes(id, m)[i] == Call(Push(false, false, At(id + i)), 1)
    decreases m
  {
    if m > 0 { CutPushesAre(id + 1, m - 1); }
  }

  /** The first push puts the snapshot into the slot and sends it. */
  function FirstPending(): Pending {
    Pending(Snapshot(0, 0, 1, "", ""), 0, 0, 0, None)
  }

  function Slot(config: Configuration): ExportState {
    ExportState(Some(0), 1, Some(config), Some(FirstPending()), None)
  }

  lemma FirstCutPush(config: Configuration)
    requires config.mode != Disabled && config.delivery.maxAttempts >= 1 && config.delivery.retentionDays >= 1
    ensures Perform(World(config, INITIAL, [], []), Call(Push(false, false, At(0)), 2))
      == World(config, Slot(config), [Made(FirstPending().snapshot, config)], [])
  {
    var w, env := World(config, INITIAL, [], []), At(0);
    var s1 := SyncDigest(config, INITIAL);
    assert Synchronize(config, 0, INITIAL) == s1 == ExportState(None, 0, Some(config), None, None);
    assert SyncEffects(config, 0, INITIAL) == [Saved(s1)] + [];
    assert Prepare(config, s1, false, env) == Ok(Slot(config));
    var effects := Effects(w, Push(false, false, env));
    assert effects[..2] == [Saved(s1), Prepared(Slot(config))];
    DoTwo(w, Saved(s1), Prepared(Slot(config)));
    assert [] + [Made(FirstPending().snapshot, config)] == [Made(FirstPending().snapshot, config)];
  }

  /** `w'` is `w` after `m` more unasked sends of the first snapshot. */
  ghost predicate SentAgain(w: World, w': World, m: nat) {
    && w'.store == w.store && w'.config == w.config
    && UnaskedOf(w'.sends, FirstPending().snapshot) == UnaskedOf(w.sends, FirstPending().snapshot) + m
  }

  predicate Stuck(w: World) {
    && w.config.mode != Disabled && w.config.delivery.maxAttempts >= 1 && w.config.delivery.retentionDays >= 1
    && w.store == Slot(w.config)
  }

  lemma CutPushSends(w: World, id: Id)
    requires Stuck(w)
    ensures SentAgain(w, Perform(w, Call(Push(false, false, At(id)), 1)), 1)
  {
    CrashedSendIsNotCounted(w, At(id));
    assert (w.sends + [Sent(FirstPending().snapshot, w.config, false, 0, 0)])[..|w.sends|] == w.sends;
  }

  lemma {:induction false} CutPushesSend(w: World, id: Id, m: nat)
    requires Stuck(w)
    ensures SentAgain(w, PerformAll(w, CutPushes(id, m)), m)
    decreases m
  {
    if m > 0 {
      var calls := CutPushes(id, m);
      CutPushSends(w, id);
      var w1 := Perform(w, calls[0]);
      CutPushesSend(w1, id + 1, m - 1);
      assert calls[1..] == CutPushes(id + 1, m - 1);
    }
  }

  /** Without the second part of the bound there is none: under any enabled configuration and for
      every number there is a history that sends its one snapshot unasked that often. */
  lemma LostAnswersDefeatTheBound(config: Configuration, m: nat) returns (calls: seq<Call>)
    requires config.mode != Disabled && config.delivery.maxAttempts >= 1 && config.delivery.retentionDays >= 1
    ensures var w := World(config, INITIAL, [], []);
      FreshCalls(w, calls) && UnaskedOf(PerformAll(w, calls).sends, FirstPending().snapshot) == m
  {
    var w, first := World(config, INITIAL, [], []), Call(Push(false, false, At(0)), 2);
    calls := [first] + CutPushes(1, m);
    CutPushesAre(1, m);
    assert calls[1..] == CutPushes(1, m);
    FirstCutPush(config);
    CutPushesSend(Perform(w, first), 1, m);
    assert UnaskedOf(Perform(w, first).sends, FirstPending().snapshot) == 0;
    forall i | 0 <= i < |calls| ensures calls[i].operation == Push(false, false, At(i)) {
      if i > 0 { assert calls[i] == CutPushes(1, m)[i - 1]; }
    }
  }

  // ----- what a push reports

  /** What a push finds in the slot, or puts there, if it gets as far. */
  function Slotted(config: Configuration, s: ExportState, retry: bool, automatic: bool, env: Env): ExportState {
    var s1 := Synchronize(config, env.syncedAt, s);
    if PushIsOff(config, automatic) || (retry && s1.pending.None?) then s1
    else
      match Prepare(config, s1, automatic, env)
      case Err(_) => s1
      case Ok(s2) => s2
  }

  /** Whether it then sends: nothing may be sent by a push that is off or refused. */
  predicate SendsNow(config: Configuration, s: ExportState, retry: bool, automatic: bool, env: Env) {
    var s1 := Synchronize(config, env.syncedAt, s);
    && !PushIsOff(config, automatic) && !(retry && s1.pending.None?) && Prepare(config, s1, automatic, env).Ok?
    && var s2 := Prepare(config, s1, automatic, env).value;
    s2.pending.Some? && MaySend(config, s2.pending.value, retry, env.checkedAt)
  }

  /** The world after a push, up to what was prepared: the slot as it was found or filled, or
      one more send and its answer in the slot. */
  lemma PushEnds(w: World, retry: bool, automatic: bool, env: Env)
    requires IsNew(w, env.newSnapshot)
    ensures var s2 := Slotted(w.config, w.store, retry, automatic, env);
      var w' := DoAll(w, PushEffects(w.config, w.store, retry, automatic, env));
      && w'.config == w.config && s2.digest == Some(w.config)
      && if SendsNow(w.config, w.store, retry, automatic, env) then
           && w'.store == AnswerState(w.config, s2, s2.pending.value, env)
           && w'.sends == w.sends + [Sent(s2.pending.value.snapshot, w.config, retry, env.checkedAt, env.answeredAt)]
         else w'.store == s2 && w'.sends == w.sends
  {
    SyncFits(w, env.syncedAt);
    var s1 := Synchronize(w.config, env.syncedAt, w.store);
    var w1 := w.(store := s1);
    if !(PushIsOff(w.config, automatic) || (retry && s1.pending.None?)) {
      DoConcat(w, SyncEffects(w.config, env.syncedAt, w.store), FillEffects(w.config, s1, retry, automatic, env));
      if Prepare(w.config, s1, automatic, env).Ok? { FillEnds(w1, retry, automatic, env); }
    }
  }

  lemma FillEnds(w1: World, retry: bool, automatic: bool, env: Env)
    requires IsNew(w1, env.newSnapshot) && w1.store.digest == Some(w1.config)
    requires Prepare(w1.config, w1.store, automatic, env).Ok?
    ensures var s2 := Prepare(w1.config, w1.store, automatic, env).value;
      var w' := DoAll(w1, FillEffects(w1.config, w1.store, retry, automatic, env));
      && w'.config == w1.config && s2.digest == Some(w1.config)
      && if s2.pending.Some? && MaySend(w1.config, s2.pending.value, retry, env.checkedAt) then
           && w'.store == AnswerState(w1.config, s2, s2.pending.value, env)
           && w'.sends == w1.sends + [Sent(s2.pending.value.snapshot, w1.config, retry, env.checkedAt, env.answeredAt)]
         else w'.store == s2 && w'.sends == w1.sends
  {
    var s2 := Prepare(w1.config, w1.store, automatic, env).value;
    var prep := PrepareEffects(w1.store, s2);
    PrepareFits(w1, s2, automatic, env);
    PrepareSends(w1, s2);
    var w2 := DoAll(w1, prep);
    if s2.pending.Some? {
      var p := s2.pending.value;
      DoConcat(w1, prep, SendEffects(w1.config, s2, p, retry, env));
      if MaySend(w1.config, p, retry, env.checkedAt) {
        var x := Sent(p.snapshot, w1.config, retry, env.checkedAt, env.answeredAt);
        DoTwo(w2, Send(x), Saved(AnswerState(w1.config, s2, p, env)));
      }
    } else {
      assert prep + [] == prep;
    }
  }

  lemma PrepareSends(w: World, s2: ExportState)
    ensures DoAll(w, PrepareEffects(w.store, s2)).sends == w.sends
  {
    if s2 != w.store { DoOne(w, Prepared(s2)); }
  }

  /** A push asks to be repeated exactly when a snapshot is left that may still be sent unasked,
      and then from the time that is stored with it. */
  lemma RepetitionIsDue(w: World, retry: bool, automatic: bool, env: Env)
    requires IsNew(w, env.newSnapshot) && w.config.delivery.retryInitial >= 1 && w.config.delivery.retryMax >= 1
    requires PushReport(w.config, w.store, retry, automatic, env).Ok?
    requires PushReport(w.config, w.store, retry, automatic, env).value.status in {Failed, Deferred}
    ensures var report := PushReport(w.config, w.store, retry, automatic, env).value;
      var s := DoAll(w, PushEffects(w.config, w.store, retry, automatic, env)).store;
      && s.pending.Some?
      && (report.retryAfter > 0 <==> !GivenUp(w.config, s.pending.value))
      && var asked := if report.status == Deferred then env.checkedAt else env.answeredAt;
      report.retryAfter > 0 ==> s.pending.value.nextAttemptAt == asked + report.retryAfter
  {
    PushEnds(w, retry, automatic, env);
    var s2 := Slotted(w.config, w.store, retry, automatic, env);
    DelayGrows(w.config.delivery, s2.pending.value.attempts, s2.pending.value.attempts);
  }

  // ----- the service as an object

  /** What the saves among the effects leave stored. */
  function Stored(s: ExportState, effects: seq<Effect>): ExportState {
    if effects == [] then s
    else
      match effects[|effects| - 1]
      case Saved(next) => next
      case Prepared(next) => next
      case Send(_) => Stored(s, effects[..|effects| - 1])
  }

  lemma {:induction false} StoredInTwo(s: ExportState, a: seq<Effect>, b: seq<Effect>)
    ensures Stored(s, a + b) == Stored(Stored(s, a), b)
    decreases |b|
  {
    if b == [] {
      assert a + b == a;
    } else {
      assert (a + b)[..|a + b| - 1] == a + b[..|b| - 1];
      StoredInTwo(s, a, b[..|b| - 1]);
    }
  }

  lemma {:induction false} StoredIsDone(w: World, effects: seq<Effect>)
    ensures DoAll(w, effects).store == Stored(w.store, effects)
    decreases |effects|
  {
    if effects != [] {
      StoredIsDone(Do(w, effects[0]), effects[1..]);
      StoredInTwo(w.store, [effects[0]], effects[1..]);
      assert [effects[0]] + effects[1..] == effects;
      assert [effects[0]][..0] == [];
    }
  }

  /** A push, the configuration and the state it met, and its effects. */
  datatype Pushed = Pushed(config: Configuration, retry: bool, automatic: bool, env: Env, before: ExportState,
    effects: seq<Effect>)

  predicate Genuine(p: Pushed) {
    p.effects == PushEffects(p.config, p.before, p.retry, p.automatic, p.env)
  }

  function EffectsOf(pushes: seq<Pushed>): seq<Effect> {
    if pushes == [] then [] else EffectsOf(pushes[..|pushes| - 1]) + pushes[|pushes| - 1].effects
  }

  /** Each push met what the pushes before it had stored. */
  predicate InARow(pushes: seq<Pushed>)
    decreases |pushes|, 1
  {
    pushes == [] || LastFits(pushes)
  }

  predicate LastFits(pushes: seq<Pushed>)
    requires pushes != []
    decreases |pushes|, 0
  {
    var front, last := pushes[..|pushes| - 1], pushes[|pushes| - 1];
    InARow(front) && Genuine(last) && last.before == Stored(INITIAL, EffectsOf(front))
  }

  lemma OnePushMore(pushes: seq<Pushed>, p: Pushed)
    requires InARow(pushes) && Genuine(p) && p.before == Stored(INITIAL, EffectsOf(pushes))
    ensures InARow(pushes + [p]) && EffectsOf(pushes + [p]) == EffectsOf(pushes) + p.effects
  {
    assert (pushes + [p])[..|pushes|] == pushes;
  }

  lemma Regroup(a: seq<Effect>, b: seq<Effect>, c: seq<Effect>)
    ensures (a + b) + c == a + (b + c)
  {
  }

  class ExportService {
    var config: Configuration
    var state: ExportState
    ghost var effects: seq<Effect>
    ghost var pushes: seq<Pushed>

    /** The state is what the effects so far have stored. */
    ghost predicate Valid() reads this {
      state == Stored(INITIAL, effects)
    }

    /** And the effects are those of the pushes so far. */
    ghost predicate Accounted() reads this {
      Valid() && InARow(pushes) && effects == EffectsOf(pushes)
    }

    constructor ()
      ensures Accounted()
      ensures config.mode == Disabled && state == INITIAL && effects == [] && pushes == []
    {
      config := Configuration(Disabled, Delivery(5, 2, 300, 7, 1048576), "");
      state := INITIAL;
      effects, pushes := [], [];
    }

    method Save(next: ExportState)
      modifies this`state, this`effects
      ensures Valid()
      ensures state == next && effects == old(effects) + [Saved(next)]
    {
      state := next;
      effects := effects + [Saved(next)];
    }

    method Synchronized(now: Time)
      requires Valid()
      modifies this`state, this`effects
      ensures Valid()
      ensures state == Synchronize(config, now, old(state))
      ensures effects == old(effects) + SyncEffects(config, now, old(state))
    {
      if state.digest != Some(config) {
        Save(ExportState(state.sourceId, state.sequence, Some(config), None, None));
      }
      assert state == SyncDigest(config, old(state));
      assert effects == old(effects) + SaveIfNew(old(state), state);
      if state.pending.Some? && now - state.pending.value.createdAt >= config.delivery.retentionDays * 86400 * SECOND {
        Save(ExportState(state.sourceId, state.sequence, Some(config), None, state.lastPayload));
      }
    }

    /** Prepares a snapshot unless one is waiting or, in an automatic push, nothing has changed. */
    method Prepared(automatic: bool, env: Env) returns (e: Option<ExportError>)
      requires Valid()
      requires state.digest == Some(config)
      modifies this`state, this`effects
      ensures Valid()
      ensures match Prepare(config, old(state), automatic, env)
        case Err(error) => e == Some(error) && state == old(state) && effects == old(effects)
        case Ok(s) => e == None && state == s && effects == old(effects) + PrepareEffects(old(state), s)
    {
      if config.mode == Disabled { return Some(ExportDisabled); }
      if state.pending.Some? { return None; }
      var source := if state.sourceId.Some? then state.sourceId.value else env.newSource;
      var value := Snapshot(env.newSnapshot, source, state.sequence + 1, env.payload, env.generatedAt);
      if automatic && Some(value.payload) == state.lastPayload { return None; }
      if env.size > config.delivery.maxBytes { return Some(ExportTooLarge); }
      state := ExportState(Some(value.sourceId), value.sequence, state.digest,
        Some(Pending(value, env.createdAt, 0, 0, None)), state.lastPayload);
      effects := effects + [Effect.Prepared(state)];
      return None;
    }

    method Push(retry: bool, automatic: bool, env: Env) returns (r: Result<Report, ExportError>)
      requires Accounted()
      modifies this`state, this`effects, this`pushes
      ensures Accounted()
      ensures pushes == old(pushes)
        + [Pushed(config, retry, automatic, env, old(state), PushEffects(config, old(state), retry, automatic, env))]
      ensures r == PushReport(config, old(state), retry, automatic, env)
      ensures r.Ok? && r.value.status == Delivered ==> state.pending.None?
    {
      ghost var p := Pushed(config, retry, automatic, env, state, PushEffects(config, state, retry, automatic, env));
      OnePushMore(pushes, p);
      r := Pushing(retry, automatic, env);
      pushes := pushes + [p];
    }

    method Pushing(retry: bool, automatic: bool, env: Env) returns (r: Result<Report, ExportError>)
      requires Valid()
      modifies this`state, this`effects
      ensures Valid()
      ensures effects == old(effects) + PushEffects(config, old(state), retry, automatic, env)
      ensures r == PushReport(config, old(state), retry, automatic, env)
      ensures r.Ok? && r.value.status == Delivered ==> state.pending.None?
    {
      ghost var before, sync := effects, SyncEffects(config, env.syncedAt, state);
      Synchronized(env.syncedAt);
      if config.mode == Disabled || (automatic && config.mode != AfterWorkflow) {
        return Ok(Report(IsDisabled, None, None, 0));
      }
      if retry && state.pending.None? { return Ok(Report(Empty, None, None, 0)); }
      ghost var filled := FillEffects(config, state, retry, automatic, env);
      r := Filling(retry, automatic, env);
      Regroup(before, sync, filled);
    }

    /** The part of a push that fills the slot and sends. */
    method Filling(retry: bool, automatic: bool, env: Env) returns (r: Result<Report, ExportError>)
      requires Valid() && state.digest == Some(config)
      modifies this`state, this`effects
      ensures Valid()
      ensures effects == old(effects) + FillEffects(config, old(state), retry, automatic, env)
      ensures r == FillReport(config, old(state), retry, automatic, env)
      ensures r.Ok? && r.value.status == Delivered ==> state.pending.None?
    {
      ghost var before, s1 := effects, state;
      var error := Prepared(automatic, env);
      if error.Some? { return Err(error.value); }
      ghost var prep := PrepareEffects(s1, state);
      if state.pending.None? {
        assert prep + [] == prep;
        return Ok(Report(Unchanged, None, None, 0));
      }
      ghost var sending := SendEffects(config, state, state.pending.value, retry, env);
      var report := Sending(retry, env);
      Regroup(before, prep, sending);
      return Ok(report);
    }

    /** The end of a push, with a snapshot waiting. */
    method Sending(retry: bool, env: Env) returns (r: Report)
      requires Valid()
      requires state.pending.Some?
      modifies this`state, this`effects
      ensures Valid()
      ensures effects == old(effects) + SendEffects(config, old(state), old(state).pending.value, retry, env)
      ensures r == SendReport(config, old(state).pending.value, retry, env)
      ensures r.status == Delivered ==> state.pending.None? && state.lastPayload == Some(old(state).pending.value.snapshot.payload)
    {
      var pending := state.pending.value;
      if !retry {
        if pending.attempts >= config.delivery.maxAttempts || pending.lastFailure == Some(Permanent) {
          return Report(Failed, Some(pending.snapshot.snapshotId), pending.lastFailure, 0);
        }
        var delay := pending.nextAttemptAt - env.checkedAt;
        if delay > 0 { return Report(Deferred, None, None, delay); }
      }
      effects := effects + [Send(Sent(pending.snapshot, config, retry, env.checkedAt, env.answeredAt))];
      if env.answer.Some? {
        var delay := Delay(config.delivery, pending.attempts);
        var failed := Pending(pending.snapshot, pending.createdAt, pending.attempts + 1, env.answeredAt + delay, env.answer);
        Save(state.(pending := Some(failed)));
        var again := env.answer == Some(Transient) && failed.attempts < config.delivery.maxAttempts;
        return Report(Failed, Some(pending.snapshot.snapshotId), env.answer, if again then delay else 0);
      }
      Save(state.(pending := None, lastPayload := Some(pending.snapshot.payload)));
      return Report(Delivered, Some(pending.snapshot.snapshotId), None, 0);
    }
  }

  // ----- watching a run

  /** A clock that runs on by itself; sleeping lets at least the asked time pass. */
  class Clock {
    var reading: Time

    constructor (start: Time)
      ensures reading == start
    {
      reading := start;
    }

    method Monotonic() returns (t: Time)
      modifies this
      ensures t == reading && reading >= old(reading)
    {
      var passed :| 0 <= passed;
      reading := reading + passed;
      t := reading;
    }

    method Sleep(duration: Time)
      modifies this
      ensures reading >= old(reading) && reading >= old(reading) + duration
    {
      var passed :| 0 <= passed;
      reading := reading + passed + (if duration > 0 then duration else 0);
    }
  }

  /** The stored configuration, and whether the local dashboard is enabled; read anew each time. */
  datatype Settings = Settings(config: Configuration, dashboard: bool) {
    predicate Watched() { config.mode == AfterWorkflow || dashboard }
  }

  /** The push was automatic and met this configuration. */
  predicate IsAutomatic(p: Pushed, current: Settings, env: Env) {
    p.config == current.config && !p.retry && p.automatic && p.env == env
  }

  /** After what there was, `n` automatic pushes, each under what is configured when it begins. */
  ghost predicate Added(earlier: seq<Pushed>, pushes: seq<Pushed>, settings: nat -> Settings, polls: nat, envs: nat -> Env, n: nat) {
    && |pushes| == |earlier| + n && earlier <= pushes
    && forall k :: 0 <= k < n ==> IsAutomatic(pushes[|earlier| + k], settings(polls + k), envs(k))
  }

  /** Waits for the end of a run. `running` tells what the polls of the run see, and `settings`
      what is configured then. */
  method AwaitEnd(clock: Clock, deadline: Time, running: nat -> bool, settings: nat -> Settings)
    returns (polls: nat, ended: bool)
    modifies clock
    ensures clock.reading >= old(clock.reading)
    ensures forall k :: 0 <= k < polls ==> running(k) && settings(k).Watched()
    ensures ended ==> !running(polls)
    ensures !ended ==> running(polls) && (clock.reading >= deadline || !settings(polls).Watched())
  {
    polls := 0;
    while running(polls)
      invariant clock.reading >= old(clock.reading)
      invariant forall k :: 0 <= k < polls ==> running(k) && settings(k).Watched()
      decreases deadline - clock.reading
    {
      var now := clock.Monotonic();
      if now >= deadline { return polls, false; }
      var current := settings(polls);
      if current.config.mode != AfterWorkflow && !current.dashboard { return polls, false; }
      clock.Sleep(SECOND);
      polls := polls + 1;
    }
    return polls, true;
  }

  /** An automatic push under what is configured by then. */
  method PushUnder(exports: ExportService, current: Settings, env: Env) returns (r: Result<Report, ExportError>)
    requires exports.Accounted()
    modifies exports
    ensures exports.Accounted() && |exports.pushes| == |old(exports.pushes)| + 1 && old(exports.pushes) <= exports.pushes
    ensures IsAutomatic(exports.pushes[|old(exports.pushes)|], current, env)
  {
    exports.config := current.config;
    r := exports.Push(false, true, env);
  }

  /** Each begins later than the one before, and all but the last before the deadline. */
  predicate InTurn(begun: seq<Time>, deadline: Time) {
    forall i, j :: 0 <= i < j < |begun| ==> begun[i] < begun[j] && begun[i] < deadline
  }

  /** Pushes until a push asks for no repetition or the time is over. It always ends: each push
      but the last is begun before the deadline and later than the one before. */
  method PushUntilDone(exports: ExportService, clock: Clock, deadline: Time, settings: nat -> Settings, polls: nat,
      envs: nat -> Env)
    returns (begun: seq<Time>, last: Result<Report, ExportError>)
    requires exports.Accounted()
    modifies exports, clock
    ensures exports.Accounted() && clock.reading >= old(clock.reading)
    ensures begun != [] && (last.Err? || last.value.retryAfter <= 0 || clock.reading >= deadline)
    ensures InTurn(begun, deadline)
    ensures Added(old(exports.pushes), exports.pushes, settings, polls, envs, |begun|)
  {
    begun := [];
    var now := clock.reading;
    while true
      invariant exports.Accounted() && clock.reading >= now >= old(clock.reading)
      invariant forall i :: 0 <= i < |begun| ==> begun[i] < now && begun[i] < deadline
      invariant forall i, j :: 0 <= i < j < |begun| ==> begun[i] < begun[j]
      invariant Added(old(exports.pushes), exports.pushes, settings, polls, envs, |begun|)
      decreases if now < deadline then deadline - now else 0, if |begun| == 0 || now < deadline then 1 else 0
    {
      var n := |begun|;
      begun := begun + [clock.reading];
      last := PushUnder(exports, settings(polls + n), envs(n));
      if last.Err? { return; }
      now := clock.Monotonic();
      if last.value.retryAfter <= 0 || now >= deadline { return; }
      var left := clock.Monotonic();
      var rest := if deadline - left > 0 then deadline - left else 0;
      clock.Sleep(if last.value.retryAfter < rest then last.value.retryAfter else rest);
      now := clock.reading;
    }
  }

  /** Waits for the end of a run, then pushes. The pushes meet `envs`, each under what is
      configured when it begins. */
  method Watch(exports: ExportService, clock: Clock, timeout: nat, running: nat -> bool,
      settings: nat -> Settings, envs: nat -> Env)
    returns (deadline: Time, polls: nat, begun: seq<Time>, last: Result<Report, ExportError>)
    requires exports.Accounted()
    modifies exports, clock
    ensures exports.Accounted() && deadline >= old(clock.reading) + timeout * SECOND
    ensures forall k :: 0 <= k < polls ==> running(k) && settings(k).Watched()
    ensures begun == [] ==> running(polls) && (clock.reading >= deadline || !settings(polls).Watched())
    ensures begun != [] ==> !running(polls) && (last.Err? || last.value.retryAfter <= 0 || clock.reading >= deadline)
    ensures InTurn(begun, deadline)
    ensures Added(old(exports.pushes), exports.pushes, settings, polls, envs, |begun|)
  {
    var start := clock.Monotonic();
    deadline := start + timeout * SECOND;
    begun, last := [], Ok(Report(IsDisabled, None, None, 0));
    var ended;
    polls, ended := AwaitEnd(clock, deadline, running, settings);
    assert exports.Accounted() && exports.pushes == old(exports.pushes);
    if ended {
      begun, last := PushUntilDone(exports, clock, deadline, settings, polls, envs);
    }
  }
}
