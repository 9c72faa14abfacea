/** A serialization of everything that is hashed, from which the content can be read back: injective
    content hashes exist. */
module Encoding {
  import opened Records
  import opened Ordering

  // Each function puts the encoding of its first argument in front of `rest`.

  function Count(n: nat, rest: string): string {
    if n == 0 then "." + rest else "1" + Count(n - 1, rest)
  }

  function Text(s: string, rest: string): string { Count(|s|, s + rest) }

  function Items(xs: seq<string>, rest: string): string {
    if xs == [] then rest else Text(xs[0], Items(xs[1..], rest))
  }

  function Texts(xs: seq<string>, rest: string): string { Count(|xs|, Items(xs, rest)) }

  function Node(n: VerifierNode, rest: string): string {
    Text(n.verifierId, Text(n.adapter, Text(n.version, Text(n.configDigest, Text(n.imageDigest,
      Texts(n.requiredEvidence, Count(n.expectedModelTokens, Count(n.expectedCpuMicros, rest))))))))
  }

  function NodeItems(xs: seq<VerifierNode>, rest: string): string {
    if xs == [] then rest else Node(xs[0], NodeItems(xs[1..], rest))
  }

  function Spec(p: PlanSpec, rest: string): string {
    Text(p.taskSpec.taskId, Text(p.taskSpec.taskFamily, Texts(p.taskSpec.verifierTags,
      Text(p.intent.name, Texts(p.intent.requiredVerifierTags,
        Count(|p.graph|, NodeItems(p.graph, SpecTail(p, rest))))))))
  }

  function SpecTail(p: PlanSpec, rest: string): string {
    Texts(p.requiredEvidence,
      Text(p.policy.policyId, Text(p.policy.version, Text(p.policy.reducer, Text(p.policy.configDigest,
        Text(p.policyRevision, Texts(p.inputEvidence, Text(p.comparisonCohort,
          Count(p.budget.candidateCount, Count(p.budget.expectedModelTokens,
            Count(p.budget.expectedCpuMicros, Count(p.budget.maxConcurrency, rest))))))))))))
  }

  function TaskItems(xs: seq<RunTaskInput>, rest: string): string {
    if xs == [] then rest
    else Text(xs[0].taskId, Text(xs[0].candidateId, Text(xs[0].candidateHash, TaskItems(xs[1..], rest))))
  }

  function Source(o: Option<string>, rest: string): string {
    match o
    case None => Count(0, rest)
    case Some(s) => Count(1, Text(s, rest))
  }

  function Intent(c: CreateIntent, rest: string): string {
    Text(c.runId, Text(c.requestedCohort, Text(c.plan.planId, Count(c.plan.revision, Text(c.planDigest,
      Count(|c.tasks|, TaskItems(c.tasks, Source(c.sourceRun, rest))))))))
  }

  function CommandNumber(c: Command): nat {
    match c
    case CreateCommand => 0
    case CancelCommand => 1
    case ResumeCommand => 2
  }

  function Keys(p: Payload): (r: seq<string>)
    ensures forall k :: k in r <==> k in p
  {
    StringOrder();
    SortSet(p.Keys, StringLeq)
  }

  function Values(keys: seq<string>, p: Payload, rest: string): string
    requires forall k :: k in keys ==> k in p
  {
    if keys == [] then rest else Text(p[keys[0]], Values(keys[1..], p, rest))
  }

  function Tag(c: Content): nat {
    match c
    case PlanContent(_) => 0
    case CreateContent(_) => 1
    case TransitionContent(_, _) => 2
    case PayloadContent(_) => 3
  }

  function Body(c: Content): string {
    match c
    case PlanContent(spec) => Spec(spec, "")
    case CreateContent(intent) => Intent(intent, "")
    case TransitionContent(command, runId) => Count(CommandNumber(command), Text(runId, ""))
    case PayloadContent(payload) => Texts(Keys(payload), Values(Keys(payload), payload, ""))
  }

  function Encode(c: Content): string { Count(Tag(c), Body(c)) }

  // ----- reading back -----

  lemma {:induction false} CountBack(m: nat, n: nat, r: string, q: string)
    requires Count(m, r) == Count(n, q)
    ensures m == n && r == q
  {
    assert Count(m, r)[0] == Count(n, q)[0];
    assert Count(m, r)[1..] == Count(n, q)[1..];
    if m == 0 || n == 0 {
      assert ("." + r)[1..] == r && ("." + q)[1..] == q;
    } else {
      assert ("1" + Count(m - 1, r))[1..] == Count(m - 1, r) && ("1" + Count(n - 1, q))[1..] == Count(n - 1, q);
      CountBack(m - 1, n - 1, r, q);
    }
  }

  lemma TextBack(s: string, t: string, r: string, q: string)
    requires Text(s, r) == Text(t, q)
    ensures s == t && r == q
  {
    CountBack(|s|, |t|, s + r, t + q);
    assert (s + r)[..|s|] == s && (t + q)[..|t|] == t;
    assert (s + r)[|s|..] == r && (t + q)[|t|..] == q;
  }

  lemma {:induction false} ItemsBack(xs: seq<string>, ys: seq<string>, r: string, q: string)
    requires |xs| == |ys| && Items(xs, r) == Items(ys, q)
    ensures xs == ys && r == q
  {
    if xs != [] {
      TextBack(xs[0], ys[0], Items(xs[1..], r), Items(ys[1..], q));
      ItemsBack(xs[1..], ys[1..], r, q);
      assert xs == [xs[0]] + xs[1..] && ys == [ys[0]] + ys[1..];
    }
  }

  lemma TextsBack(xs: seq<string>, ys: seq<string>, r: string, q: string)
    requires Texts(xs, r) == Texts(ys, q)
    ensures xs == ys && r == q
  {
    CountBack(|xs|, |ys|, Items(xs, r), Items(ys, q));
    ItemsBack(xs, ys, r, q);
  }

  lemma NodeBack(m: VerifierNode, n: VerifierNode, r: string, q: string)
    requires Node(m, r) == Node(n, q)
    ensures m == n && r == q
  {
    hide Text, Texts, Count;
    var r8, q8 := Count(m.expectedCpuMicros, r), Count(n.expectedCpuMicros, q);
    var r7, q7 := Count(m.expectedModelTokens, r8), Count(n.expectedModelTokens, q8);
    var r6, q6 := Texts(m.requiredEvidence, r7), Texts(n.requiredEvidence, q7);
    var r5, q5 := Text(m.imageDigest, r6), Text(n.imageDigest, q6);
    var r4, q4 := Text(m.configDigest, r5), Text(n.configDigest, q5);
    var r3, q3 := Text(m.version, r4), Text(n.version, q4);
    TextBack(m.verifierId, n.verifierId, Text(m.adapter, r3), Text(n.adapter, q3));
    TextBack(m.adapter, n.adapter, r3, q3);
    TextBack(m.version, n.version, r4, q4);
    TextBack(m.configDigest, n.configDigest, r5, q5);
    TextBack(m.imageDigest, n.imageDigest, r6, q6);
    TextsBack(m.requiredEvidence, n.requiredEvidence, r7, q7);
    CountBack(m.expectedModelTokens, n.expectedModelTokens, r8, q8);
    CountBack(m.expectedCpuMicros, n.expectedCpuMicros, r, q);
  }

  lemma {:induction false} NodeItemsBack(xs: seq<VerifierNode>, ys: seq<VerifierNode>, r: string, q: string)
    requires |xs| == |ys| && NodeItems(xs, r) == NodeItems(ys, q)
    ensures xs == ys && r == q
  {
    hide Node;
    if xs != [] {
      NodeBack(xs[0], ys[0], NodeItems(xs[1..], r), NodeItems(ys[1..], q));
      NodeItemsBack(xs[1..], ys[1..], r, q);
      assert xs == [xs[0]] + xs[1..] && ys == [ys[0]] + ys[1..];
    }
  }

  lemma SpecBack(a: PlanSpec, b: PlanSpec)
    requires Spec(a, "") == Spec(b, "")
    ensures a == b
  {
    hide Text, Texts, Count, NodeItems, SpecTail;
    var r5, q5 := Count(|a.graph|, NodeItems(a.graph, SpecTail(a, ""))), Count(|b.graph|, NodeItems(b.graph, SpecTail(b, "")));
    var r4, q4 := Texts(a.intent.requiredVerifierTags, r5), Texts(b.intent.requiredVerifierTags, q5);
    var r3, q3 := Text(a.intent.name, r4), Text(b.intent.name, q4);
    var r2, q2 := Texts(a.taskSpec.verifierTags, r3), Texts(b.taskSpec.verifierTags, q3);
    TextBack(a.taskSpec.taskId, b.taskSpec.taskId, Text(a.taskSpec.taskFamily, r2), Text(b.taskSpec.taskFamily, q2));
    TextBack(a.taskSpec.taskFamily, b.taskSpec.taskFamily, r2, q2);
    TextsBack(a.taskSpec.verifierTags, b.taskSpec.verifierTags, r3, q3);
    TextBack(a.intent.name, b.intent.name, r4, q4);
    TextsBack(a.intent.requiredVerifierTags, b.intent.requiredVerifierTags, r5, q5);
    CountBack(|a.graph|, |b.graph|, NodeItems(a.graph, SpecTail(a, "")), NodeItems(b.graph, SpecTail(b, "")));
    NodeItemsBack(a.graph, b.graph, SpecTail(a, ""), SpecTail(b, ""));
    SpecTailBack(a, b);
  }

  lemma SpecTailBack(a: PlanSpec, b: PlanSpec)
    requires SpecTail(a, "") == SpecTail(b, "")
    ensures a.requiredEvidence == b.requiredEvidence && a.policy == b.policy && a.policyRevision == b.policyRevision
    ensures a.inputEvidence == b.inputEvidence && a.comparisonCohort == b.comparisonCohort && a.budget == b.budget
  {
    hide Text, Texts, Count;
    var x, y := a.budget, b.budget;
    var rb, qb := Count(x.maxConcurrency, ""), Count(y.maxConcurrency, "");
    var ra, qa := Count(x.expectedCpuMicros, rb), Count(y.expectedCpuMicros, qb);
    var r9, q9 := Count(x.expectedModelTokens, ra), Count(y.expectedModelTokens, qa);
    var r8, q8 := Count(x.candidateCount, r9), Count(y.candidateCount, q9);
    var r7, q7 := Text(a.comparisonCohort, r8), Text(b.comparisonCohort, q8);
    var r6, q6 := Texts(a.inputEvidence, r7), Texts(b.inputEvidence, q7);
    var r5, q5 := Text(a.policyRevision, r6), Text(b.policyRevision, q6);
    var r4, q4 := Text(a.policy.configDigest, r5), Text(b.policy.configDigest, q5);
    var r3, q3 := Text(a.policy.reducer, r4), Text(b.policy.reducer, q4);
    var r2, q2 := Text(a.policy.version, r3), Text(b.policy.version, q3);
    TextsBack(a.requiredEvidence, b.requiredEvidence, Text(a.policy.policyId, r2), Text(b.policy.policyId, q2));
    TextBack(a.policy.policyId, b.policy.policyId, r2, q2);
    TextBack(a.policy.version, b.policy.version, r3, q3);
    TextBack(a.policy.reducer, b.policy.reducer, r4, q4);
    TextBack(a.policy.configDigest, b.policy.configDigest, r5, q5);
    TextBack(a.policyRevision, b.policyRevision, r6, q6);
    TextsBack(a.inputEvidence, b.inputEvidence, r7, q7);
    TextBack(a.comparisonCohort, b.comparisonCohort, r8, q8);
    CountBack(x.candidateCount, y.candidateCount, r9, q9);
    CountBack(x.expectedModelTokens, y.expectedModelTokens, ra, qa);
    CountBack(x.expectedCpuMicros, y.expectedCpuMicros, rb, qb);
    CountBack(x.maxConcurrency, y.maxConcurrency, "", "");
  }

  lemma {:induction false} TaskItemsBack(xs: seq<RunTaskInput>, ys: seq<RunTaskInput>, r: string, q: string)
    requires |xs| == |ys| && TaskItems(xs, r) == TaskItems(ys, q)
    ensures xs == ys && r == q
  {
    hide Text;
    if xs != [] {
      var rt, qt := TaskItems(xs[1..], r), TaskItems(ys[1..], q);
      var rh, qh := Text(xs[0].candidateHash, rt), Text(ys[0].candidateHash, qt);
      TextBack(xs[0].taskId, ys[0].taskId, Text(xs[0].candidateId, rh), Text(ys[0].candidateId, qh));
      TextBack(xs[0].candidateId, ys[0].candidateId, rh, qh);
      TextBack(xs[0].candidateHash, ys[0].candidateHash, rt, qt);
      TaskItemsBack(xs[1..], ys[1..], r, q);
      assert xs == [xs[0]] + xs[1..] && ys == [ys[0]] + ys[1..];
    }
  }

  lemma SourceBack(a: Option<string>, b: Option<string>)
    requires Source(a, "") == Source(b, "")
    ensures a == b
  {
    hide Text, Count;
    var ra := if a.None? then "" else Text(a.value, "");
    var rb := if b.None? then "" else Text(b.value, "");
    CountBack(if a.None? then 0 else 1, if b.None? then 0 else 1, ra, rb);
    if a.Some? { TextBack(a.value, b.value, "", ""); }
  }

  lemma IntentBack(a: CreateIntent, b: CreateIntent)
    requires Intent(a, "") == Intent(b, "")
    ensures a == b
  {
    hide Text, Count, TaskItems, Source;
    var r6, q6 := TaskItems(a.tasks, Source(a.sourceRun, "")), TaskItems(b.tasks, Source(b.sourceRun, ""));
    var r5, q5 := Count(|a.tasks|, r6), Count(|b.tasks|, q6);
    var r4, q4 := Text(a.planDigest, r5), Text(b.planDigest, q5);
    var r3, q3 := Count(a.plan.revision, r4), Count(b.plan.revision, q4);
    var r2, q2 := Text(a.plan.planId, r3), Text(b.plan.planId, q3);
    TextBack(a.runId, b.runId, Text(a.requestedCohort, r2), Text(b.requestedCohort, q2));
    TextBack(a.requestedCohort, b.requestedCohort, r2, q2);
    TextBack(a.plan.planId, b.plan.planId, r3, q3);
    CountBack(a.plan.revision, b.plan.revision, r4, q4);
    TextBack(a.planDigest, b.planDigest, r5, q5);
    CountBack(|a.tasks|, |b.tasks|, r6, q6);
    TaskItemsBack(a.tasks, b.tasks, Source(a.sourceRun, ""), Source(b.sourceRun, ""));
    SourceBack(a.sourceRun, b.sourceRun);
  }

  lemma {:induction false} ValuesBack(keys: seq<string>, a: Payload, b: Payload)
    requires forall k :: k in keys ==> k in a && k in b
    requires Values(keys, a, "") == Values(keys, b, "")
    ensures forall k :: k in keys ==> a[k] == b[k]
  {
    hide Text;
    if keys != [] {
      TextBack(a[keys[0]], b[keys[0]], Values(keys[1..], a, ""), Values(keys[1..], b, ""));
      ValuesBack(keys[1..], a, b);
      assert keys == [keys[0]] + keys[1..];
    }
  }

  lemma PayloadBack(a: Payload, b: Payload)
    requires Texts(Keys(a), Values(Keys(a), a, "")) == Texts(Keys(b), Values(Keys(b), b, ""))
    ensures a == b
  {
    hide Texts, Keys;
    TextsBack(Keys(a), Keys(b), Values(Keys(a), a, ""), Values(Keys(b), b, ""));
    forall k ensures k in a <==> k in b { assert k in a <==> k in Keys(a); }
    ValuesBack(Keys(a), a, b);
  }

  lemma EncodeBack(x: Content, y: Content)
    requires Encode(x) == Encode(y)
    ensures x == y
  {
    hide Spec, Intent, Count, Text, Texts, Keys, Values;
    CountBack(Tag(x), Tag(y), Body(x), Body(y));
    match x
    case PlanContent(a) => SpecBack(a, y.spec);
    case CreateContent(a) => IntentBack(a, y.intent);
    case TransitionContent(command, runId) =>
      CountBack(CommandNumber(command), CommandNumber(y.command), Text(runId, ""), Text(y.runId, ""));
      TextBack(runId, y.runId, "", "");
    case PayloadContent(a) => PayloadBack(a, y.payload);
  }

  /** Any fixed text may stand before the encoding. */
  function Prefixed(prefix: string): Content -> Sha256 {
    x => prefix + Encode(x)
  }

  lemma PrefixedInjective(prefix: string)
    ensures Injective(Prefixed(prefix))
  {
    hide Encode;
    forall x: Content, y: Content | Prefixed(prefix)(x) == Prefixed(prefix)(y) ensures x == y {
      assert (prefix + Encode(x))[|prefix|..] == Encode(x) && (prefix + Encode(y))[|prefix|..] == Encode(y);
      EncodeBack(x, y);
    }
  }

  /** Injective content hashes exist. */
  lemma InjectiveHashExists()
    ensures exists hash: Content -> Sha256 :: Injective(hash)
  {
    PrefixedInjective("");
  }
}
