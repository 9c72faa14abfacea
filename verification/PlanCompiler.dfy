/** The plan compiler: from a request and a verifier catalog to an immutable, content-addressed plan. */
module PlanCompiler {
  import opened Records
  import opened Ordering

  datatype CatalogEntry = CatalogEntry(
    verifierId: string, taskFamilies: seq<string>, intents: seq<string>, adapter: string, version: string,
    configDigest: Sha256, imageDigest: Sha256, requiredEvidence: seq<string>, tags: seq<string>,
    expectedModelTokens: nat, expectedCpuMicros: nat, priority: int)

  datatype CompileRequest = CompileRequest(
    taskSpec: TaskSpec, intent: EvaluationIntent, catalog: seq<CatalogEntry>, policy: AggregationPolicy,
    policyRevision: string, inputEvidence: seq<Sha256>, comparisonCohort: string,
    candidateCount: nat, maxConcurrency: nat)

  function SortedSet(xs: seq<string>): (r: seq<string>)
    ensures Ascending(r, StringLeq) && Distinct(r)
    ensures forall x :: x in r <==> x in xs
  {
    StringOrder();
    SortSet((set x | x in xs), StringLeq)
  }

  predicate Matches(taskSpec: TaskSpec, intent: EvaluationIntent, e: CatalogEntry) {
    && taskSpec.taskFamily in e.taskFamilies
    && intent.name in e.intents
    && (forall t :: t in intent.requiredVerifierTags ==> t in e.tags)
    && (forall t :: t in taskSpec.verifierTags ==> t in e.tags)
  }

  function Select(req: CompileRequest, catalog: seq<CatalogEntry>): seq<CatalogEntry> {
    if catalog == [] then []
    else (if Matches(req.taskSpec, req.intent, catalog[0]) then [catalog[0]] else []) + Select(req, catalog[1..])
  }

  /** (priority, verifier_id) order; ties are not told apart. */
  predicate EntryLeq(a: CatalogEntry, b: CatalogEntry) {
    if a.priority != b.priority then a.priority < b.priority else StringLeq(a.verifierId, b.verifierId)
  }

  /** The matching entries in the order the compiler puts them. */
  function Arranged(req: CompileRequest): seq<CatalogEntry> {
    Sorted(Select(req, req.catalog), EntryLeq)
  }

  function NodeOf(e: CatalogEntry): VerifierNode {
    VerifierNode(e.verifierId, e.adapter, e.version, e.configDigest, e.imageDigest, SortedSet(e.requiredEvidence),
                 e.expectedModelTokens, e.expectedCpuMicros)
  }

  function Nodes(xs: seq<CatalogEntry>): (r: seq<VerifierNode>)
    ensures |r| == |xs|
    ensures forall i :: 0 <= i < |r| ==> r[i] == NodeOf(xs[i])
  {
    seq(|xs|, i requires 0 <= i < |xs| => NodeOf(xs[i]))
  }

  function AllEvidence(graph: seq<VerifierNode>): seq<string> {
    if graph == [] then [] else graph[0].requiredEvidence + AllEvidence(graph[1..])
  }

  function Tokens(graph: seq<VerifierNode>): nat {
    if graph == [] then 0 else graph[0].expectedModelTokens + Tokens(graph[1..])
  }

  function CpuMicros(graph: seq<VerifierNode>): nat {
    if graph == [] then 0 else graph[0].expectedCpuMicros + CpuMicros(graph[1..])
  }

  predicate DistinctIds(xs: seq<CatalogEntry>) {
    forall i, j :: 0 <= i < j < |xs| ==> xs[i].verifierId != xs[j].verifierId
  }

  function SpecFor(req: CompileRequest, graph: seq<VerifierNode>): PlanSpec {
    PlanSpec(req.taskSpec, req.intent, graph, SortedSet(AllEvidence(graph)), req.policy, req.policyRevision,
             SortedSet(req.inputEvidence), req.comparisonCohort,
             BudgetEstimate(req.candidateCount, Tokens(graph) * req.candidateCount,
                            CpuMicros(graph) * req.candidateCount,
                            if req.maxConcurrency < req.candidateCount then req.maxConcurrency else req.candidateCount))
  }

  function Compile(hash: Content -> Sha256, key: PlanKey, req: CompileRequest, now: Time): Outcome<VerificationPlan> {
    var selected := Arranged(req);
    if selected == [] then Err(PlanCompilationError)
    else if !DistinctIds(selected) then Err(PlanCompilationError)
    else
      var spec := SpecFor(req, Nodes(selected));
      Ok(VerificationPlan(key, hash(PlanContent(spec)), spec, PlanState.Draft, now, now, None))
  }

  // ----- what a request asks, apart from how it is presented -----

  /** A matching entry as far as the plan can depend on it. */
  datatype Ranked = Ranked(priority: int, node: VerifierNode)

  function Rank(e: CatalogEntry): Ranked { Ranked(e.priority, NodeOf(e)) }

  predicate RankLeq(a: Ranked, b: Ranked) {
    if a.priority != b.priority then a.priority < b.priority else StringLeq(a.node.verifierId, b.node.verifierId)
  }

  function Ranks(xs: seq<CatalogEntry>): (r: seq<Ranked>)
    ensures |r| == |xs|
    ensures forall i :: 0 <= i < |r| ==> r[i] == Rank(xs[i])
  {
    seq(|xs|, i requires 0 <= i < |xs| => Rank(xs[i]))
  }

  /** The matching entries of a catalog, with multiplicity but without order. */
  ghost function Ranking(req: CompileRequest, catalog: seq<CatalogEntry>): multiset<Ranked> {
    if catalog == [] then multiset{}
    else (if Matches(req.taskSpec, req.intent, catalog[0]) then multiset{Rank(catalog[0])} else multiset{})
         + Ranking(req, catalog[1..])
  }

  /** Two requests that ask the same thing: equal apart from the catalog's order, its entries that do
      not match, and the order and repetition of evidence. */
  ghost predicate SameQuestion(a: CompileRequest, b: CompileRequest) {
    && a == b.(catalog := a.catalog, inputEvidence := a.inputEvidence)
    && (forall d :: d in a.inputEvidence <==> d in b.inputEvidence)
    && Ranking(a, a.catalog) == Ranking(b, b.catalog)
  }

  // ----- the sort is a permutation in rank order -----

  lemma EntryLeqOrders()
    ensures forall a, b :: EntryLeq(a, b) || EntryLeq(b, a)
    ensures forall a, b, c :: EntryLeq(a, b) && EntryLeq(b, c) ==> EntryLeq(a, c)
    ensures forall a: Ranked :: RankLeq(a, a)
    ensures forall a: Ranked, b: Ranked ::
      RankLeq(a, b) && RankLeq(b, a) ==> a.priority == b.priority && a.node.verifierId == b.node.verifierId
  {
    StringOrder();
    forall a: CatalogEntry, b: CatalogEntry ensures EntryLeq(a, b) || EntryLeq(b, a) {
      assert StringLeq(a.verifierId, b.verifierId) || StringLeq(b.verifierId, a.verifierId);
    }
    forall a, b, c | EntryLeq(a, b) && EntryLeq(b, c) ensures EntryLeq(a, c) {
      if a.priority == b.priority == c.priority {
        assert StringLeq(a.verifierId, b.verifierId) && StringLeq(b.verifierId, c.verifierId);
      }
    }
    forall a: Ranked ensures RankLeq(a, a) {
      assert StringLeq(a.node.verifierId, a.node.verifierId);
    }
  }

  lemma RanksCons(e: CatalogEntry, xs: seq<CatalogEntry>)
    ensures multiset(Ranks([e] + xs)) == multiset{Rank(e)} + multiset(Ranks(xs))
  {
    hide Rank;
    assert Ranks([e] + xs) == [Rank(e)] + Ranks(xs);
  }

  lemma {:induction false} RanksPermute(xs: seq<CatalogEntry>, ys: seq<CatalogEntry>)
    requires multiset(xs) == multiset(ys)
    ensures multiset(Ranks(xs)) == multiset(Ranks(ys))
  {
    hide Rank, Ranks;
    if xs == [] {
      assert |multiset(ys)| == 0;
    } else {
      var i := RemoveHead(xs, ys);
      var rest := ys[..i] + ys[i + 1..];
      RanksPermute(xs[1..], rest);
      RanksSplit(xs, 0);
      RanksSplit(ys, i);
      assert xs[..0] + xs[1..] == xs[1..];
    }
  }

  lemma RanksSplit(xs: seq<CatalogEntry>, i: nat)
    requires i < |xs|
    ensures multiset(Ranks(xs)) == multiset{Rank(xs[i])} + multiset(Ranks(xs[..i] + xs[i + 1..]))
  {
    hide Rank, Ranks;
    RanksConcat(xs[..i], [xs[i]] + xs[i + 1..]);
    RanksConcat(xs[..i], xs[i + 1..]);
    RanksCons(xs[i], xs[i + 1..]);
    assert xs == xs[..i] + ([xs[i]] + xs[i + 1..]);
  }

  lemma RanksConcat(xs: seq<CatalogEntry>, ys: seq<CatalogEntry>)
    ensures multiset(Ranks(xs + ys)) == multiset(Ranks(xs)) + multiset(Ranks(ys))
  {
    hide Rank;
    assert Ranks(xs + ys) == Ranks(xs) + Ranks(ys);
  }

  lemma {:induction false} SelectRanks(req: CompileRequest, catalog: seq<CatalogEntry>)
    ensures multiset(Ranks(Select(req, catalog))) == Ranking(req, catalog)
  {
    hide Rank, Matches;
    if catalog != [] {
      hide Ranks;
      SelectRanks(req, catalog[1..]);
      var rest := Select(req, catalog[1..]);
      if Matches(req.taskSpec, req.intent, catalog[0]) {
        RanksCons(catalog[0], rest);
      } else {
        assert [] + rest == rest;
      }
    }
  }

  lemma ArrangedRanks(req: CompileRequest)
    ensures Ascending(Ranks(Arranged(req)), RankLeq)
    ensures multiset(Ranks(Arranged(req))) == Ranking(req, req.catalog)
  {
    EntryLeqOrders();
    SortedArranges(Select(req, req.catalog), EntryLeq);
    SelectRanks(req, req.catalog);
    RanksPermute(Arranged(req), Select(req, req.catalog));
    forall i, j | 0 <= i < j < |Arranged(req)| ensures RankLeq(Ranks(Arranged(req))[i], Ranks(Arranged(req))[j]) {
      assert EntryLeq(Arranged(req)[i], Arranged(req)[j]);
    }
  }

  // ----- unique selected IDs are a property of the ranking -----

  lemma TwiceIn<T>(xs: seq<T>, i: nat, j: nat)
    requires i < j < |xs| && xs[i] == xs[j]
    ensures multiset(xs)[xs[i]] >= 2
  {
    assert xs == xs[..i] + [xs[i]] + xs[i + 1..j] + [xs[j]] + xs[j + 1..];
  }

  /** The compiler accepts exactly when some entry matches and no two matching entries share an ID. */
  ghost predicate Unambiguous(ranking: multiset<Ranked>) {
    && ranking != multiset{}
    && (forall r :: r in ranking ==> ranking[r] == 1)
    && (forall r, q :: r in ranking && q in ranking && r.node.verifierId == q.node.verifierId ==> r == q)
  }

  lemma DistinctIdsUnambiguous(xs: seq<CatalogEntry>)
    requires xs != [] && DistinctIds(xs)
    ensures Unambiguous(multiset(Ranks(xs)))
  {
    var rs := Ranks(xs);
    assert rs[0] in multiset(rs);
    forall r | r in multiset(rs) ensures multiset(rs)[r] == 1 {
      if multiset(rs)[r] >= 2 { var i, j := RepeatedElement(rs, r); }
    }
    forall r, q | r in multiset(rs) && q in multiset(rs) && r.node.verifierId == q.node.verifierId ensures r == q {
      var i :| 0 <= i < |rs| && rs[i] == r;
      var j :| 0 <= j < |rs| && rs[j] == q;
      assert xs[i].verifierId == xs[j].verifierId;
    }
  }

  lemma RepeatedIdsAmbiguous(xs: seq<CatalogEntry>)
    requires !DistinctIds(xs)
    ensures !Unambiguous(multiset(Ranks(xs)))
  {
    var rs := Ranks(xs);
    var i, j :| 0 <= i < j < |xs| && xs[i].verifierId == xs[j].verifierId;
    assert rs[i] in multiset(rs) && rs[j] in multiset(rs);
    if rs[i] == rs[j] { TwiceIn(rs, i, j); }
  }

  lemma AcceptsExactlyUnambiguous(hash: Content -> Sha256, key: PlanKey, req: CompileRequest, now: Time)
    ensures Compile(hash, key, req, now).Ok? <==> Unambiguous(Ranking(req, req.catalog))
    ensures Compile(hash, key, req, now).Err? ==> Compile(hash, key, req, now).error == PlanCompilationError
  {
    hide Arranged, Ranking, DistinctIds;
    ArrangedRanks(req);
    var xs := Arranged(req);
    if xs == [] {
      assert Ranks(xs) == [];
    } else if DistinctIds(xs) {
      DistinctIdsUnambiguous(xs);
    } else {
      RepeatedIdsAmbiguous(xs);
    }
  }

  // ----- insensitivity to presentation -----

  lemma SameSet(xs: seq<string>, ys: seq<string>)
    requires forall x :: x in xs <==> x in ys
    ensures SortedSet(xs) == SortedSet(ys)
  {
    assert (set x | x in xs) == (set x | x in ys);
  }

  lemma RankNames(e: CatalogEntry)
    ensures Rank(e).node.verifierId == e.verifierId && Rank(e).priority == e.priority
  {}

  lemma SameRanks(a: CompileRequest, b: CompileRequest)
    requires Ranking(a, a.catalog) == Ranking(b, b.catalog) && DistinctIds(Arranged(a))
    ensures Ranks(Arranged(a)) == Ranks(Arranged(b))
  {
    hide Ranking, Arranged, Rank, StringLeq;
    ArrangedRanks(a);
    ArrangedRanks(b);
    EntryLeqOrders();
    var rs := Ranks(Arranged(a));
    forall r, q | r in rs && q in rs && RankLeq(r, q) && RankLeq(q, r) ensures r == q {
      var i :| 0 <= i < |rs| && rs[i] == r;
      var j :| 0 <= j < |rs| && rs[j] == q;
      RankNames(Arranged(a)[i]);
      RankNames(Arranged(a)[j]);
      assert Arranged(a)[i].verifierId == Arranged(a)[j].verifierId;
    }
    hide RankLeq, Ranks;
    ArrangementUnique(rs, Ranks(Arranged(b)), RankLeq);
  }

  lemma SameNodes(a: CompileRequest, b: CompileRequest)
    requires Ranking(a, a.catalog) == Ranking(b, b.catalog) && DistinctIds(Arranged(a))
    ensures Nodes(Arranged(a)) == Nodes(Arranged(b))
  {
    hide Ranking, Arranged;
    SameRanks(a, b);
    var xs, ys := Arranged(a), Arranged(b);
    forall i | 0 <= i < |xs| ensures Nodes(xs)[i] == Nodes(ys)[i] {
      assert Ranks(xs)[i].node == Ranks(ys)[i].node;
    }
  }

  /** Requests that ask the same thing get the same plan, digest included, or the same rejection. */
  lemma PresentationDoesNotMatter(hash: Content -> Sha256, key: PlanKey, a: CompileRequest, b: CompileRequest, now: Time)
    requires SameQuestion(a, b)
    ensures Compile(hash, key, a, now) == Compile(hash, key, b, now)
  {
    hide Unambiguous, Ranking, Arranged, Nodes, SortedSet, AllEvidence, Tokens, CpuMicros;
    AcceptsExactlyUnambiguous(hash, key, a, now);
    AcceptsExactlyUnambiguous(hash, key, b, now);
    if Compile(hash, key, a, now).Ok? {
      SameNodes(a, b);
      SameSet(a.inputEvidence, b.inputEvidence);
      assert SpecFor(a, Nodes(Arranged(a))) == SpecFor(b, Nodes(Arranged(b)));
    }
  }

  lemma {:induction false} RankingConcat(req: CompileRequest, xs: seq<CatalogEntry>, ys: seq<CatalogEntry>)
    ensures Ranking(req, xs + ys) == Ranking(req, xs) + Ranking(req, ys)
  {
    if xs == [] {
      assert xs + ys == ys;
    } else {
      assert (xs + ys)[1..] == xs[1..] + ys;
      RankingConcat(req, xs[1..], ys);
    }
  }

  lemma {:induction false} RankingPermutes(req: CompileRequest, xs: seq<CatalogEntry>, ys: seq<CatalogEntry>)
    requires multiset(xs) == multiset(ys)
    ensures Ranking(req, xs) == Ranking(req, ys)
  {
    hide Rank, Matches, Ranking;
    if xs == [] {
      assert |multiset(ys)| == 0;
    } else {
      var i := RemoveHead(xs, ys);
      RankingPermutes(req, xs[1..], ys[..i] + ys[i + 1..]);
      RankingSplit(req, ys, i);
      RankingSplit(req, xs, 0);
      assert xs[..0] + xs[1..] == xs[1..];
    }
  }

  lemma RankingSplit(req: CompileRequest, ys: seq<CatalogEntry>, i: nat)
    requires i < |ys|
    ensures Ranking(req, ys) == Ranking(req, [ys[i]]) + Ranking(req, ys[..i] + ys[i + 1..])
  {
    hide Rank, Matches;
    assert ys == ys[..i] + ([ys[i]] + ys[i + 1..]);
    RankingConcat(req, ys[..i], ys[i + 1..]);
    RankingConcat(req, ys[..i], [ys[i]] + ys[i + 1..]);
    RankingConcat(req, [ys[i]], ys[i + 1..]);
  }

  /** Reordering the catalog is a change of presentation. */
  lemma ReorderedCatalog(a: CompileRequest, b: CompileRequest)
    requires a == b.(catalog := a.catalog) && multiset(a.catalog) == multiset(b.catalog)
    ensures SameQuestion(a, b)
  {
    RankingPermutes(a, a.catalog, b.catalog);
    RankingOfRequest(a, b, b.catalog);
  }

  lemma {:induction false} RankingOfRequest(a: CompileRequest, b: CompileRequest, catalog: seq<CatalogEntry>)
    requires a.taskSpec == b.taskSpec && a.intent == b.intent
    ensures Ranking(a, catalog) == Ranking(b, catalog)
  {
    if catalog != [] { RankingOfRequest(a, b, catalog[1..]); }
  }

  /** So is adding, anywhere, an entry that does not match. */
  lemma UnrelatedEntry(req: CompileRequest, i: nat, e: CatalogEntry)
    requires i <= |req.catalog| && !Matches(req.taskSpec, req.intent, e)
    ensures SameQuestion(req.(catalog := req.catalog[..i] + [e] + req.catalog[i..]), req)
  {
    var b := req.(catalog := req.catalog[..i] + [e] + req.catalog[i..]);
    assert b.catalog == req.catalog[..i] + ([e] + req.catalog[i..]) && req.catalog == req.catalog[..i] + req.catalog[i..];
    RankingConcat(b, req.catalog[..i], [e] + req.catalog[i..]);
    RankingConcat(b, req.catalog[..i], req.catalog[i..]);
    assert ([e] + req.catalog[i..])[1..] == req.catalog[i..];
    RankingOfRequest(b, req, req.catalog);
  }

  /** So is permuting or repeating the evidence an entry requires or the request supplies. */
  lemma RepeatedEvidence(req: CompileRequest, i: nat, entryEvidence: seq<string>, evidence: seq<Sha256>)
    requires i < |req.catalog|
    requires forall x :: x in entryEvidence <==> x in req.catalog[i].requiredEvidence
    requires forall d :: d in evidence <==> d in req.inputEvidence
    ensures SameQuestion(
      req.(catalog := req.catalog[i := req.catalog[i].(requiredEvidence := entryEvidence)], inputEvidence := evidence), req)
  {
    hide Ranking, SortedSet;
    var e := req.catalog[i].(requiredEvidence := entryEvidence);
    var b := req.(catalog := req.catalog[i := e], inputEvidence := evidence);
    SameSet(entryEvidence, req.catalog[i].requiredEvidence);
    RankingSplit(b, b.catalog, i);
    RankingSplit(b, req.catalog, i);
    assert b.catalog[..i] + b.catalog[i + 1..] == req.catalog[..i] + req.catalog[i + 1..];
    RankingOne(b, e, req.catalog[i]);
    RankingOfRequest(b, req, req.catalog);
  }

  lemma RankingOne(req: CompileRequest, e: CatalogEntry, f: CatalogEntry)
    requires e == f.(requiredEvidence := e.requiredEvidence) && SortedSet(e.requiredEvidence) == SortedSet(f.requiredEvidence)
    ensures Ranking(req, [e]) == Ranking(req, [f])
  {
    hide SortedSet;
    assert [e][1..] == [f][1..];
  }

  // ----- what an accepted plan says -----

  ghost predicate StrictlyRanked(graph: seq<VerifierNode>, ranking: multiset<Ranked>, rs: seq<Ranked>) {
    && multiset(rs) == ranking && |graph| == |rs|
    && (forall i :: 0 <= i < |rs| ==> graph[i] == rs[i].node)
    && (forall i, j :: 0 <= i < j < |rs| ==> RankLeq(rs[i], rs[j]) && !RankLeq(rs[j], rs[i]))
  }

  lemma {:induction false} EvidenceOf(graph: seq<VerifierNode>, x: string)
    ensures x in AllEvidence(graph) <==> exists i :: 0 <= i < |graph| && x in graph[i].requiredEvidence
  {
    if graph != [] {
      EvidenceOf(graph[1..], x);
      assert forall i :: 0 < i < |graph| ==> graph[i] == graph[1..][i - 1];
    }
  }

  /** An accepted plan lists every matching verifier once, in strict (priority, verifier_id) order;
      requires the union of their evidence; and names its own content. */
  lemma PlanListsMatchingVerifiers(hash: Content -> Sha256, key: PlanKey, req: CompileRequest, now: Time)
    requires Compile(hash, key, req, now).Ok?
    ensures var plan := Compile(hash, key, req, now).value; var spec := plan.spec;
            && plan.digest == hash(PlanContent(spec)) && plan.state.Draft? && plan.key == key
            && (exists rs :: StrictlyRanked(spec.graph, Ranking(req, req.catalog), rs))
            && Distinct(spec.requiredEvidence) && Ascending(spec.requiredEvidence, StringLeq)
            && (forall x :: x in spec.requiredEvidence <==>
                  exists i :: 0 <= i < |spec.graph| && x in spec.graph[i].requiredEvidence)
  {
    ArrangedRanks(req);
    EntryLeqOrders();
    var xs := Arranged(req);
    var graph := Nodes(xs);
    assert StrictlyRanked(graph, Ranking(req, req.catalog), Ranks(xs)) by {
      forall i, j | 0 <= i < j < |xs| ensures !RankLeq(Ranks(xs)[j], Ranks(xs)[i]) {
        assert RankLeq(Ranks(xs)[i], Ranks(xs)[j]);
        assert xs[i].verifierId != xs[j].verifierId;
      }
    }
    forall x ensures x in SortedSet(AllEvidence(graph)) <==>
                     exists i :: 0 <= i < |graph| && x in graph[i].requiredEvidence
    {
      EvidenceOf(graph, x);
    }
  }

  // ----- the plan against the catalog itself -----

  function Tags(xs: seq<string>): set<string> { set x | x in xs }

  /** The entry serves the task family and the intent and carries every tag that either asks for. */
  predicate Serves(req: CompileRequest, e: CatalogEntry) {
    && req.taskSpec.taskFamily in e.taskFamilies && req.intent.name in e.intents
    && Tags(req.intent.requiredVerifierTags) + Tags(req.taskSpec.verifierTags) <= Tags(e.tags)
  }

  /** The node is the entry, field by field, with its evidence sorted and without repetition. */
  ghost predicate Describes(node: VerifierNode, e: CatalogEntry) {
    && node == VerifierNode(e.verifierId, e.adapter, e.version, e.configDigest, e.imageDigest, node.requiredEvidence,
                            e.expectedModelTokens, e.expectedCpuMicros)
    && Distinct(node.requiredEvidence) && Ascending(node.requiredEvidence, StringLeq)
    && forall x :: x in node.requiredEvidence <==> x in e.requiredEvidence
  }

  /** `a` has the smaller priority, or the same priority and the smaller ID. */
  predicate Before(a: CatalogEntry, b: CatalogEntry) {
    || a.priority < b.priority
    || (a.priority == b.priority && a.verifierId != b.verifierId && StringLeq(a.verifierId, b.verifierId))
  }

  /** The graph is the serving entries of the catalog, each once, in strict order. */
  ghost predicate GraphOf(req: CompileRequest, graph: seq<VerifierNode>, order: seq<CatalogEntry>) {
    && |graph| == |order|
    && (forall i :: 0 <= i < |order| ==> Describes(graph[i], order[i]))
    && (forall i, j :: 0 <= i < j < |order| ==> Before(order[i], order[j]))
    && (forall e :: e in order <==> e in req.catalog && Serves(req, e))
  }

  /** The plan carries the request's own fields, with its evidence as a sorted set and its cost per candidate
      multiplied out. */
  ghost predicate Carries(plan: VerificationPlan, req: CompileRequest, now: Time) {
    var spec, budget := plan.spec, plan.spec.budget;
    && plan.createdAt == plan.updatedAt == now && plan.reason.None? && plan.state.Draft?
    && spec.taskSpec == req.taskSpec && spec.intent == req.intent && spec.policy == req.policy
    && spec.policyRevision == req.policyRevision && spec.comparisonCohort == req.comparisonCohort
    && Distinct(spec.inputEvidence) && Ascending(spec.inputEvidence, StringLeq)
    && (forall d :: d in spec.inputEvidence <==> d in req.inputEvidence)
    && budget.candidateCount == req.candidateCount
    && budget.expectedModelTokens == req.candidateCount * Tokens(spec.graph)
    && budget.expectedCpuMicros == req.candidateCount * CpuMicros(spec.graph)
    && budget.maxConcurrency <= req.maxConcurrency && budget.maxConcurrency <= req.candidateCount
    && budget.maxConcurrency in {req.maxConcurrency, req.candidateCount}
  }

  lemma {:induction false} SelectServes(req: CompileRequest, catalog: seq<CatalogEntry>, e: CatalogEntry)
    ensures e in Select(req, catalog) <==> e in catalog && Serves(req, e)
  {
    if catalog != [] {
      SelectServes(req, catalog[1..], e);
      assert catalog == [catalog[0]] + catalog[1..];
      MatchesServes(req, catalog[0]);
      hide Matches, Serves;
    }
  }

  lemma MatchesServes(req: CompileRequest, e: CatalogEntry)
    ensures Matches(req.taskSpec, req.intent, e) <==> Serves(req, e)
  {
    if Serves(req, e) {
      forall t | t in req.intent.requiredVerifierTags || t in req.taskSpec.verifierTags ensures t in e.tags {
        assert t in Tags(req.intent.requiredVerifierTags) + Tags(req.taskSpec.verifierTags);
      }
    }
  }

  lemma ArrangedMembers(req: CompileRequest, e: CatalogEntry)
    ensures e in Arranged(req) <==> e in req.catalog && Serves(req, e)
  {
    hide Serves, Select;
    SortedArranges(Select(req, req.catalog), EntryLeq);
    assert e in multiset(Arranged(req)) <==> e in multiset(Select(req, req.catalog));
    SelectServes(req, req.catalog, e);
  }

  lemma ArrangedBefore(req: CompileRequest, i: nat, j: nat)
    requires DistinctIds(Arranged(req)) && i < j < |Arranged(req)|
    ensures Before(Arranged(req)[i], Arranged(req)[j])
  {
    EntryLeqOrders();
    SortedArranges(Select(req, req.catalog), EntryLeq);
    assert EntryLeq(Arranged(req)[i], Arranged(req)[j]);
  }

  lemma NodeDescribes(e: CatalogEntry)
    ensures Describes(NodeOf(e), e)
  {}

  lemma ArrangedGraph(req: CompileRequest)
    requires DistinctIds(Arranged(req))
    ensures GraphOf(req, Nodes(Arranged(req)), Arranged(req))
  {
    var order := Arranged(req);
    forall e ensures e in order <==> e in req.catalog && Serves(req, e) { ArrangedMembers(req, e); }
    forall i, j | 0 <= i < j < |order| ensures Before(order[i], order[j]) { ArrangedBefore(req, i, j); }
    hide Arranged, Serves, Before, Describes, NodeOf;
    forall i | 0 <= i < |order| ensures Describes(Nodes(order)[i], order[i]) { NodeDescribes(order[i]); }
  }

  lemma SpecCarries(plan: VerificationPlan, req: CompileRequest, graph: seq<VerifierNode>, now: Time)
    requires plan == VerificationPlan(plan.key, plan.digest, SpecFor(req, graph), PlanState.Draft, now, now, None)
    ensures Carries(plan, req, now)
  {
    hide AllEvidence, Tokens, CpuMicros;
  }

  /** An accepted plan's graph is the catalog's serving entries, field by field and in strict (priority, ID)
      order, and the rest of the plan is the request's. */
  lemma PlanIsOfItsRequest(hash: Content -> Sha256, key: PlanKey, req: CompileRequest, now: Time)
    requires Compile(hash, key, req, now).Ok?
    ensures var plan := Compile(hash, key, req, now).value;
            && Carries(plan, req, now) && exists order :: GraphOf(req, plan.spec.graph, order)
  {
    hide Arranged, DistinctIds, GraphOf, Carries, Nodes;
    ArrangedGraph(req);
    SpecCarries(Compile(hash, key, req, now).value, req, Nodes(Arranged(req)), now);
  }

  /** Token and CPU costs of a graph are the sums over its nodes. */
  lemma {:induction false} CostsAdd(node: VerifierNode, a: seq<VerifierNode>, b: seq<VerifierNode>)
    ensures Tokens([node]) == node.expectedModelTokens && CpuMicros([node]) == node.expectedCpuMicros
    ensures Tokens(a + b) == Tokens(a) + Tokens(b) && CpuMicros(a + b) == CpuMicros(a) + CpuMicros(b)
  {
    if a == [] {
      assert a + b == b;
    } else {
      assert (a + b)[1..] == a[1..] + b;
      CostsAdd(node, a[1..], b);
    }
  }

  /** Two positions of the catalog hold serving entries with one ID. */
  ghost predicate Clashes(req: CompileRequest, catalog: seq<CatalogEntry>) {
    exists i, j :: 0 <= i < j < |catalog| && Serves(req, catalog[i]) && Serves(req, catalog[j])
                   && catalog[i].verifierId == catalog[j].verifierId
  }

  lemma {:induction false} SelectClashes(req: CompileRequest, catalog: seq<CatalogEntry>)
    ensures DistinctIds(Select(req, catalog)) <==> !Clashes(req, catalog)
  {
    if catalog != [] {
      var e, rest := catalog[0], catalog[1..];
      SelectClashes(req, rest);
      MatchesServes(req, e);
      hide Serves, Matches;
      ClashesCons(req, catalog);
      forall f ensures f in Select(req, rest) <==> f in rest && Serves(req, f) { SelectServes(req, rest, f); }
      var chosen := Select(req, rest);
      if Serves(req, e) {
        assert Select(req, catalog) == [e] + chosen;
        DistinctCons(e, chosen);
      } else {
        assert Select(req, catalog) == [] + chosen;
        assert [] + chosen == chosen;
      }
    }
  }

  lemma DistinctCons(e: CatalogEntry, xs: seq<CatalogEntry>)
    ensures DistinctIds([e] + xs) <==> DistinctIds(xs) && forall f :: f in xs ==> f.verifierId != e.verifierId
  {
    var all := [e] + xs;
    assert forall i :: 0 <= i < |xs| ==> all[i + 1] == xs[i];
    if DistinctIds(all) {
      forall f | f in xs ensures f.verifierId != e.verifierId {
        var i :| 0 <= i < |xs| && xs[i] == f;
        assert all[0] == e && all[i + 1] == f;
      }
      forall i, j | 0 <= i < j < |xs| ensures xs[i].verifierId != xs[j].verifierId {
        assert all[i + 1] == xs[i] && all[j + 1] == xs[j];
      }
    }
  }

  lemma ClashesCons(req: CompileRequest, catalog: seq<CatalogEntry>)
    requires catalog != []
    ensures Clashes(req, catalog) <==>
              || Clashes(req, catalog[1..])
              || (Serves(req, catalog[0])
                  && exists f :: f in catalog[1..] && Serves(req, f) && f.verifierId == catalog[0].verifierId)
  {
    hide Serves;
    var rest := catalog[1..];
    assert forall i :: 0 <= i < |rest| ==> rest[i] == catalog[i + 1];
    if Clashes(req, catalog) {
      var i, j :| 0 <= i < j < |catalog| && Serves(req, catalog[i]) && Serves(req, catalog[j])
                  && catalog[i].verifierId == catalog[j].verifierId;
      if i == 0 { assert rest[j - 1] in rest; } else { assert rest[i - 1] == catalog[i] && rest[j - 1] == catalog[j]; }
    }
    if Clashes(req, rest) {
      var i, j :| 0 <= i < j < |rest| && Serves(req, rest[i]) && Serves(req, rest[j])
                  && rest[i].verifierId == rest[j].verifierId;
      assert Serves(req, catalog[i + 1]) && Serves(req, catalog[j + 1]);
    }
    if f :| f in rest && Serves(req, catalog[0]) && Serves(req, f) && f.verifierId == catalog[0].verifierId {
      var j :| 0 <= j < |rest| && rest[j] == f;
      assert Serves(req, catalog[j + 1]);
    }
  }

  lemma DistinctPermutes(xs: seq<CatalogEntry>, ys: seq<CatalogEntry>)
    requires multiset(xs) == multiset(ys)
    ensures DistinctIds(xs) <==> DistinctIds(ys)
  {
    hide DistinctIds, Unambiguous, Ranks;
    if xs == [] || ys == [] {
      assert |multiset(xs)| == |xs| && |multiset(ys)| == |ys|;
      assert xs == ys;
    } else {
      RanksPermute(xs, ys);
      if DistinctIds(xs) { DistinctIdsUnambiguous(xs); } else { RepeatedIdsAmbiguous(xs); }
      if DistinctIds(ys) { DistinctIdsUnambiguous(ys); } else { RepeatedIdsAmbiguous(ys); }
    }
  }

  /** A request is accepted exactly when some entry of its catalog serves it and no two positions hold
      serving entries with one ID. */
  lemma AcceptsExactly(hash: Content -> Sha256, key: PlanKey, req: CompileRequest, now: Time)
    ensures Compile(hash, key, req, now).Ok? <==>
              (exists e :: e in req.catalog && Serves(req, e)) && !Clashes(req, req.catalog)
  {
    hide Serves, Clashes, DistinctIds, Select, Nodes, SpecFor;
    var selected := Select(req, req.catalog);
    SortedArranges(selected, EntryLeq);
    DistinctPermutes(Arranged(req), selected);
    SelectClashes(req, req.catalog);
    forall e ensures e in Arranged(req) <==> e in req.catalog && Serves(req, e) { ArrangedMembers(req, e); }
    if Arranged(req) != [] { assert Arranged(req)[0] in Arranged(req); }
  }

  /** Conversely, equal digests mean the same verifiers, evidence, policy, cohort and budget. */
  lemma DigestFixesQuestion(hash: Content -> Sha256, a: VerificationPlan, b: VerificationPlan,
                            ra: CompileRequest, rb: CompileRequest, now: Time, later: Time)
    requires Injective(hash)
    requires Compile(hash, a.key, ra, now) == Ok(a) && Compile(hash, b.key, rb, later) == Ok(b)
    requires a.digest == b.digest
    ensures ra.taskSpec == rb.taskSpec && ra.intent == rb.intent && ra.policy == rb.policy
    ensures ra.policyRevision == rb.policyRevision && ra.comparisonCohort == rb.comparisonCohort
    ensures ra.candidateCount == rb.candidateCount
    ensures forall d :: d in ra.inputEvidence <==> d in rb.inputEvidence
    ensures Nodes(Arranged(ra)) == Nodes(Arranged(rb))
  {
    assert hash(PlanContent(a.spec)) == hash(PlanContent(b.spec));
    assert a.spec == b.spec;
    forall d ensures d in ra.inputEvidence <==> d in rb.inputEvidence {
      assert d in SortedSet(ra.inputEvidence) <==> d in SortedSet(rb.inputEvidence);
    }
  }
}
