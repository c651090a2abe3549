/** What a workflow reports of itself (domain.py:134-144), and its cleaning before anything of it
    is stored (supervisor.py:19-43). Text is its UTF-8 bytes: replacing one text by another
    there is replacing it among the characters. */
module WorkflowEvidence {
  import opened Domain
  import opened Redaction
  import L = LogStream

  type Text = Bytes

  /** `Plain` is a number, a truth value or null. An object is in the order of insertion. */
  datatype Json = Words(text: Text) | List(items: seq<Json>) | Object(members: seq<Member>) | Plain(literal: string)

  datatype Member = Member(key: Text, value: Json)

  datatype CheckStatus = Passed | Failed | Skipped

  datatype Check = Check(name: Text, status: CheckStatus)

  datatype Evidence = Evidence(runId: RunId, outcome: Outcome, checks: seq<Check>, outputs: seq<Member>, effects: Effects)

  // ----- dictionaries

  predicate DistinctKeys(members: seq<Member>) {
    forall i, j :: 0 <= i < j < |members| ==> members[i].key != members[j].key
  }

  predicate HasKey(members: seq<Member>, key: Text) {
    exists m :: m in members && m.key == key
  }

  /** A new key comes last; a known one gets the new value in its place. */
  function Put(members: seq<Member>, m: Member): seq<Member>
    decreases |members|
  {
    if members == [] then [m]
    else if members[0].key == m.key then [m] + members[1..]
    else [members[0]] + Put(members[1..], m)
  }

  /** A dictionary from pairs: of equal keys the last one counts. */
  function Merged(pairs: seq<Member>): seq<Member>
    decreases |pairs|
  {
    if pairs == [] then [] else Put(Merged(pairs[..|pairs| - 1]), pairs[|pairs| - 1])
  }

  lemma {:induction false} PutElements(members: seq<Member>, m: Member, x: Member)
    requires x in Put(members, m)
    ensures x == m || (x in members && x.key != m.key) || !DistinctKeys(members)
    decreases |members|
  {
    if members != [] {
      if members[0].key == m.key {
        if x != m && DistinctKeys(members) {
          var i :| 0 <= i < |members[1..]| && members[1..][i] == x;
          assert members[i + 1] == x;
        }
      } else if x != members[0] {
        PutElements(members[1..], m, x);
      }
    }
  }

  lemma {:induction false} PutDistinct(members: seq<Member>, m: Member)
    requires DistinctKeys(members)
    ensures DistinctKeys(Put(members, m))
    decreases |members|
  {
    if members != [] && members[0].key != m.key {
      var rest := Put(members[1..], m);
      PutDistinct(members[1..], m);
      forall x | x in rest ensures x.key != members[0].key {
        PutElements(members[1..], m, x);
      }
      FirstIsNew(members[0], rest);
    }
  }

  lemma FirstIsNew(m: Member, rest: seq<Member>)
    requires DistinctKeys(rest) && forall x :: x in rest ==> x.key != m.key
    ensures DistinctKeys([m] + rest)
  {
  }

  /** A new member is only appended, one with a known key only replaces. */
  lemma {:induction false} PutLength(members: seq<Member>, m: Member)
    ensures HasKey(members, m.key) ==> |Put(members, m)| == |members|
    ensures !HasKey(members, m.key) ==> Put(members, m) == members + [m]
    decreases |members|
  {
    if members != [] {
      HasKeyInTwo(members, m.key);
      if members[0].key != m.key {
        PutLength(members[1..], m);
        assert [members[0]] + (members[1..] + [m]) == members + [m];
      }
    }
  }

  lemma HasKeyInTwo(members: seq<Member>, key: Text)
    requires members != []
    ensures HasKey(members, key) <==> members[0].key == key || HasKey(members[1..], key)
  {
    assert forall x :: x in members <==> x == members[0] || x in members[1..];
  }

  lemma {:induction false} MergedIsDistinct(pairs: seq<Member>)
    ensures DistinctKeys(Merged(pairs)) && |Merged(pairs)| <= |pairs|
    decreases |pairs|
  {
    if pairs != [] {
      MergedIsDistinct(pairs[..|pairs| - 1]);
      PutDistinct(Merged(pairs[..|pairs| - 1]), pairs[|pairs| - 1]);
      PutLength(Merged(pairs[..|pairs| - 1]), pairs[|pairs| - 1]);
    }
  }

  lemma {:induction false} MergedIsPart(pairs: seq<Member>, x: Member)
    requires x in Merged(pairs)
    ensures x in pairs
    decreases |pairs|
  {
    var front, last := pairs[..|pairs| - 1], pairs[|pairs| - 1];
    MergedIsDistinct(front);
    PutElements(Merged(front), last, x);
    if x != last { MergedIsPart(front, x); }
  }

  lemma DistinctInTwo(front: seq<Member>, last: Member)
    ensures DistinctKeys(front + [last]) <==> DistinctKeys(front) && !HasKey(front, last.key)
  {
    var all := front + [last];
    if DistinctKeys(all) {
      forall i, j | 0 <= i < j < |front| ensures front[i].key != front[j].key {
        assert all[i] == front[i] && all[j] == front[j];
      }
      forall m | m in front ensures m.key != last.key {
        var i :| 0 <= i < |front| && front[i] == m;
        assert all[i] == m && all[|front|] == last;
      }
    }
    if DistinctKeys(front) && !HasKey(front, last.key) {
      assert forall i :: 0 <= i < |front| ==> front[i] in front;
    }
  }

  /** Merging loses nothing exactly when the keys are distinct. */
  lemma {:induction false} MergingKeepsAll(pairs: seq<Member>)
    ensures DistinctKeys(pairs) ==> Merged(pairs) == pairs
    ensures |Merged(pairs)| == |pairs| ==> DistinctKeys(pairs)
    decreases |pairs|
  {
    if pairs != [] {
      var front, last := pairs[..|pairs| - 1], pairs[|pairs| - 1];
      assert pairs == front + [last];
      DistinctInTwo(front, last);
      MergedIsDistinct(front);
      PutLength(Merged(front), last);
      MergingKeepsAll(front);
    }
  }

  // ----- cleaning

  /** Keys and texts at every depth are redacted, secret by secret. */
  function Clean(v: Json, secrets: seq<Secret>): Json
    decreases v, 1
  {
    match v
    case Words(text) => Words(RedactAll(text, secrets))
    case List(items) => List(seq(|items|, i requires 0 <= i < |items| => Clean(items[i], secrets)))
    case Object(members) => Object(Merged(CleanPairs(v, secrets)))
    case Plain(_) => v
  }

  function CleanPairs(v: Json, secrets: seq<Secret>): (pairs: seq<Member>)
    requires v.Object?
    ensures |pairs| == |v.members|
    decreases v, 0
  {
    seq(|v.members|, i requires 0 <= i < |v.members| =>
      Member(RedactAll(v.members[i].key, secrets), Clean(v.members[i].value, secrets)))
  }

  function CleanMembers(members: seq<Member>, secrets: seq<Secret>): seq<Member> {
    Clean(Object(members), secrets).members
  }

  function CleanChecks(checks: seq<Check>, secrets: seq<Secret>): seq<Check> {
    seq(|checks|, i requires 0 <= i < |checks| => Check(RedactAll(checks[i].name, secrets), checks[i].status))
  }

  function CleanEvidence(e: Evidence, secrets: seq<Secret>): Evidence {
    e.(checks := CleanChecks(e.checks, secrets), outputs := CleanMembers(e.outputs, secrets))
  }

  const LONGEST_NAME := 256

  /** The names of checks are short texts, and no others are stored. */
  predicate NamesFit(checks: seq<Check>) {
    forall c :: c in checks ==> 1 <= L.Chars(c.name) <= LONGEST_NAME
  }

  /** The text occurs in some key or text of the value, however deep. */
  ghost predicate Holds(v: Json, u: Text) {
    match v
    case Words(text) => Occurs(text, u)
    case List(items) => exists i :: 0 <= i < |items| && Holds(items[i], u)
    case Object(members) => exists i :: 0 <= i < |members| && (Occurs(members[i].key, u) || Holds(members[i].value, u))
    case Plain(_) => false
  }

  /** No object in the value, however deep, has a key twice. */
  ghost predicate WellFormed(v: Json) {
    match v
    case Words(_) => true
    case List(items) => forall i :: 0 <= i < |items| ==> WellFormed(items[i])
    case Object(members) => DistinctKeys(members) && forall i :: 0 <= i < |members| ==> WellFormed(members[i].value)
    case Plain(_) => true
  }

  /** Cleaned output holds no secret that cannot overlap a marker, in no key and no text. */
  lemma {:induction false} CleanHides(v: Json, secrets: seq<Secret>, u: Secret)
    requires Clear(u) && u in secrets
    ensures !Holds(Clean(v, secrets), u)
    decreases v
  {
    match v
    case Words(text) => RedactAllHides(text, secrets, u);
    case List(items) =>
      forall i | 0 <= i < |items| ensures !Holds(Clean(items[i], secrets), u) {
        CleanHides(items[i], secrets, u);
      }
    case Object(members) =>
      var pairs := CleanPairs(v, secrets);
      forall m | m in pairs ensures !Occurs(m.key, u) && !Holds(m.value, u) {
        var i :| 0 <= i < |pairs| && pairs[i] == m;
        RedactAllHides(members[i].key, secrets, u);
        CleanHides(members[i].value, secrets, u);
      }
      forall m | m in Merged(pairs) ensures !Occurs(m.key, u) && !Holds(m.value, u) { MergedIsPart(pairs, m); }
    case Plain(_) =>
  }

  /** Whatever the redacted keys run into, the result is an object again. */
  lemma {:induction false} CleanIsWellFormed(v: Json, secrets: seq<Secret>)
    requires WellFormed(v)
    ensures WellFormed(Clean(v, secrets))
    decreases v
  {
    match v
    case Words(_) =>
    case List(items) =>
      forall i | 0 <= i < |items| ensures WellFormed(Clean(items[i], secrets)) {
        CleanIsWellFormed(items[i], secrets);
      }
    case Object(members) =>
      var pairs := CleanPairs(v, secrets);
      forall m | m in pairs ensures WellFormed(m.value) {
        var i :| 0 <= i < |pairs| && pairs[i] == m;
        CleanIsWellFormed(members[i].value, secrets);
      }
      MergedIsDistinct(pairs);
      forall m | m in Merged(pairs) ensures WellFormed(m.value) { MergedIsPart(pairs, m); }
    case Plain(_) =>
  }

  ghost predicate HoldsNone(v: Json, secrets: seq<Secret>) {
    forall u :: u in secrets ==> !Holds(v, u)
  }

  /** What holds no secret is left alone. */
  lemma {:induction false} CleanLeavesTheRest(v: Json, secrets: seq<Secret>)
    requires WellFormed(v) && HoldsNone(v, secrets)
    ensures Clean(v, secrets) == v
    decreases v
  {
    match v
    case Words(text) =>
      assert forall u :: u in secrets && Occurs(text, u) ==> Holds(v, u);
      AbsentAreKept(text, secrets);
    case List(items) =>
      forall i | 0 <= i < |items| ensures Clean(items[i], secrets) == items[i] {
        assert forall u :: u in secrets && Holds(items[i], u) ==> Holds(v, u);
        CleanLeavesTheRest(items[i], secrets);
      }
    case Object(members) =>
      forall i | 0 <= i < |members| ensures CleanPairs(v, secrets)[i] == members[i] {
        assert forall u :: u in secrets && (Occurs(members[i].key, u) || Holds(members[i].value, u)) ==> Holds(v, u);
        AbsentAreKept(members[i].key, secrets);
        CleanLeavesTheRest(members[i].value, secrets);
      }
      assert CleanPairs(v, secrets) == members;
      MergingKeepsAll(members);
    case Plain(_) =>
  }

  /** Cleaning twice is cleaning once. */
  lemma CleanTwice(v: Json, secrets: seq<Secret>)
    requires WellFormed(v) && AllClear(secrets)
    ensures Clean(Clean(v, secrets), secrets) == Clean(v, secrets)
  {
    forall u | u in secrets ensures !Holds(Clean(v, secrets), u) { CleanHides(v, secrets, u); }
    CleanIsWellFormed(v, secrets);
    CleanLeavesTheRest(Clean(v, secrets), secrets);
  }

  /** An object keeps all its members exactly when its redacted keys are distinct. */
  lemma CleanKeepsMembersExactlyWhen(members: seq<Member>, secrets: seq<Secret>)
    ensures |CleanMembers(members, secrets)| == |members| <==>
      forall i, j :: 0 <= i < j < |members| ==> RedactAll(members[i].key, secrets) != RedactAll(members[j].key, secrets)
  {
    var pairs := CleanPairs(Object(members), secrets);
    MergingKeepsAll(pairs);
    CleanKeys(members, secrets);
  }

  lemma CleanKeys(members: seq<Member>, secrets: seq<Secret>)
    ensures DistinctKeys(CleanPairs(Object(members), secrets)) <==>
      forall i, j :: 0 <= i < j < |members| ==> RedactAll(members[i].key, secrets) != RedactAll(members[j].key, secrets)
  {
    var pairs := CleanPairs(Object(members), secrets);
    assert forall i :: 0 <= i < |members| ==> pairs[i].key == RedactAll(members[i].key, secrets);
  }
}
