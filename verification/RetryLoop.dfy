/** Classification of one HTTP exchange and the retry loop over any script of replies. */
module RetryLoop {
  import opened Records

  datatype Json =
    | Text(text: string)
    | List(items: seq<Json>)
    | Object(fields: map<string, Json>)
    | Other

  datatype ErrorClass = RateLimited | ServerError | Timeout | Transport | MalformedResponse | ClientError

  /** What one post yields; a body that is not JSON is None. `ClientRaised` is any exception the loop does
      not handle, such as a response that cannot be decoded. */
  datatype Reply = TimedOut | TransportFailed | ClientRaised | Response(status: int, body: Option<Json>)

  datatype Verdict = Retry(cls: ErrorClass) | Reject(cls: ErrorClass) | Accept(texts: seq<string>) | Escape

  datatype Status = Succeeded | Failed

  datatype GenerationResult = GenerationResult(
    requestId: string, taskId: string, status: Status, texts: seq<string>, attempts: nat,
    errorClass: Option<ErrorClass>, history: seq<ErrorClass>)

  /** Why an exception leaves a request instead of a result. */
  datatype Cause = OverBudget | ClientFailure

  datatype RequestEnd = Answered(result: GenerationResult) | Escaped(cause: Cause)

  // ----- the response body -----

  function ContentOf(choice: Json): Option<string> {
    if !choice.Object? || "message" !in choice.fields then None
    else
      var message := choice.fields["message"];
      if !message.Object? || "content" !in message.fields then None
      else
        var content := message.fields["content"];
        if !content.Text? || content.text == "" then None else Some(content.text)
  }

  ghost predicate ChoicesOk(choices: seq<Json>) {
    choices != [] && forall i :: 0 <= i < |choices| ==> ContentOf(choices[i]).Some?
  }

  ghost function Contents(choices: seq<Json>): seq<string>
    requires forall i :: 0 <= i < |choices| ==> ContentOf(choices[i]).Some?
  {
    seq(|choices|, i requires 0 <= i < |choices| => ContentOf(choices[i]).value)
  }

  /** The completions of a response body: one non-empty text per choice, or none if any part is missing. */
  function Parse(body: Json): (r: Option<seq<string>>)
    ensures r.Some? <==> body.Object? && "choices" in body.fields && body.fields["choices"].List?
                         && ChoicesOk(body.fields["choices"].items)
    ensures r.Some? ==> r.value == Contents(body.fields["choices"].items) && r.value != []
    ensures r.Some? ==> forall i :: 0 <= i < |r.value| ==> r.value[i] != ""
  {
    if !body.Object? || "choices" !in body.fields then None
    else
      var choices := body.fields["choices"];
      if !choices.List? || choices.items == [] then None
      else ParseChoices(choices.items)
  }

  function ParseChoices(choices: seq<Json>): (r: Option<seq<string>>)
    ensures r.Some? <==> forall i :: 0 <= i < |choices| ==> ContentOf(choices[i]).Some?
    ensures r.Some? ==> r.value == Contents(choices)
    ensures r.Some? ==> forall i :: 0 <= i < |r.value| ==> r.value[i] != ""
  {
    if choices == [] then Some([])
    else
      var head := ContentOf(choices[0]);
      var tail := ParseChoices(choices[1..]);
      assert forall i :: 0 < i < |choices| ==> choices[i] == choices[1..][i - 1];
      if head.None? || tail.None? then None else Some([head.value] + tail.value)
  }

  // ----- one attempt -----

  function Judge(reply: Reply): Verdict {
    match reply
    case TimedOut => Retry(Timeout)
    case TransportFailed => Retry(Transport)
    case ClientRaised => Escape
    case Response(status, body) =>
      if status == 429 then Retry(RateLimited)
      else if status >= 500 then Retry(ServerError)
      else if status >= 400 then Reject(ClientError)
      else if body.None? then Reject(MalformedResponse)
      else
        var parsed := Parse(body.value);
        if parsed.None? then Reject(MalformedResponse) else Accept(parsed.value)
  }

  predicate Fails(v: Verdict) { v.Retry? || v.Reject? }

  function ClassOf(v: Verdict): ErrorClass
    requires Fails(v)
  {
    v.cls
  }

  predicate Retryable(c: ErrorClass) { c.RateLimited? || c.ServerError? || c.Timeout? || c.Transport? }

  // ----- what an attempt means, read off the reply -----

  /** A reply worth another attempt. */
  predicate Transient(reply: Reply) {
    || reply.TimedOut? || reply.TransportFailed?
    || (reply.Response? && (reply.status == 429 || 500 <= reply.status))
  }

  /** The completions a reply carries, if it is a usable success. */
  function Completions(reply: Reply): Option<seq<string>> {
    if reply.Response? && reply.status < 400 && reply.body.Some? then Parse(reply.body.value) else None
  }

  /** The error class recorded for a reply, class by class. */
  ghost predicate Classifies(cls: ErrorClass, reply: Reply) {
    && (cls.Timeout? <==> reply.TimedOut?)
    && (cls.Transport? <==> reply.TransportFailed?)
    && (cls.RateLimited? <==> reply.Response? && reply.status == 429)
    && (cls.ServerError? <==> reply.Response? && 500 <= reply.status)
    && (cls.ClientError? <==> reply.Response? && 400 <= reply.status < 500 && reply.status != 429)
    && (cls.MalformedResponse? <==> reply.Response? && reply.status < 400 && Completions(reply).None?)
  }

  /** The verdict on a reply, in terms of the reply alone. */
  lemma JudgeMeans(reply: Reply)
    ensures Judge(reply).Retry? <==> Transient(reply)
    ensures Judge(reply).Accept? <==> Completions(reply).Some?
    ensures Judge(reply).Escape? <==> reply.ClientRaised?
    ensures Judge(reply).Accept? ==> Judge(reply).texts == Completions(reply).value
    ensures Fails(Judge(reply)) ==> Classifies(ClassOf(Judge(reply)), reply)
  {
    hide Parse;
  }

  // ----- specification of the loop -----

  /** The attempt at which the loop stops: the first reply that is not retried, or the last allowed. */
  function StopsAt(replies: seq<Reply>, max: nat): (n: nat)
    requires 0 < max <= |replies|
    ensures 1 <= n <= max
    ensures forall i :: 0 <= i < n - 1 ==> Judge(replies[i]).Retry?
    ensures n < max ==> !Judge(replies[n - 1]).Retry?
    decreases max
  {
    if max == 1 || !Judge(replies[0]).Retry? then 1 else 1 + StopsAt(replies[1..], max - 1)
  }

  /** Only one attempt number has these properties. */
  lemma StopIsUnique(replies: seq<Reply>, max: nat, n: nat)
    requires 0 < max <= |replies| && 1 <= n <= max
    requires forall i :: 0 <= i < n - 1 ==> Judge(replies[i]).Retry?
    requires n < max ==> !Judge(replies[n - 1]).Retry?
    ensures n == StopsAt(replies, max)
  {
    hide Judge;
  }

  function ErrorsOf(replies: seq<Reply>, n: nat): (r: seq<ErrorClass>)
    requires n <= |replies| && forall i :: 0 <= i < n ==> Fails(Judge(replies[i]))
    ensures |r| == n && forall i :: 0 <= i < n ==> r[i] == ClassOf(Judge(replies[i]))
  {
    seq(n, i requires 0 <= i < n => ClassOf(Judge(replies[i])))
  }

  /** The result, or the escaping exception, that the replies entail. */
  function Verdicts(requestId: string, taskId: string, replies: seq<Reply>, max: nat): RequestEnd
    requires 0 < max <= |replies|
  {
    var n := StopsAt(replies, max);
    match Judge(replies[n - 1])
    case Accept(texts) =>
      Answered(GenerationResult(requestId, taskId, Succeeded, texts, n, None, ErrorsOf(replies, n - 1)))
    case Retry(cls) =>
      Answered(GenerationResult(requestId, taskId, Failed, [], n, Some(cls), ErrorsOf(replies, n)))
    case Reject(cls) =>
      Answered(GenerationResult(requestId, taskId, Failed, [], n, Some(cls), ErrorsOf(replies, n)))
    case Escape => Escaped(ClientFailure)
  }

  /** A result record the constructor accepts. */
  predicate WellFormed(r: GenerationResult) {
    && r.attempts >= 1
    && match r.status
       case Succeeded => r.texts != [] && r.errorClass.None?
       case Failed => r.errorClass.Some?
  }

  /** The history explains the result: it has one error per failed attempt, every error but the last
      is retryable, a success has one error fewer than attempts, and a failure ends with its class;
      a failure whose class is retryable used every attempt. */
  lemma HistoryExplains(requestId: string, taskId: string, replies: seq<Reply>, max: nat)
    requires 0 < max <= |replies| && Verdicts(requestId, taskId, replies, max).Answered?
    ensures var r := Verdicts(requestId, taskId, replies, max).result; var h := r.history;
            && r.requestId == requestId && WellFormed(r) && r.attempts <= max
            && |h| == (if r.status.Succeeded? then r.attempts - 1 else r.attempts)
            && (forall i :: 0 <= i < r.attempts - 1 ==> Retryable(h[i]))
            && (r.status.Failed? ==> r.errorClass == Some(h[|h| - 1]))
            && (r.status.Failed? && Retryable(h[|h| - 1]) ==> r.attempts == max)
  {
    hide Parse, StopsAt;
  }

  /** Attempt `n` has verdict `v` after retryable failures only. */
  ghost predicate ReachedAs(replies: seq<Reply>, n: nat, v: Verdict) {
    1 <= n <= |replies| && Judge(replies[n - 1]) == v && forall i :: 0 <= i < n - 1 ==> Judge(replies[i]).Retry?
  }

  predicate Succeeds(end: RequestEnd) { end.Answered? && end.result.status.Succeeded? }

  /** A request succeeds exactly when some attempt within the limit is accepted, and an exception escapes
      exactly when the client raises one on such an attempt, all before it being retryable failures. */
  lemma EndsExactly(requestId: string, taskId: string, replies: seq<Reply>, max: nat)
    requires 0 < max <= |replies|
    ensures var end := Verdicts(requestId, taskId, replies, max);
            && (Succeeds(end) <==> exists n: nat, texts :: n <= max && ReachedAs(replies, n, Accept(texts)))
            && (end == Escaped(ClientFailure) <==> exists n: nat :: n <= max && ReachedAs(replies, n, Escape))
            && (end.Answered? || end == Escaped(ClientFailure))
  {
    hide Judge, StopsAt;
    var m := StopsAt(replies, max);
    assert ReachedAs(replies, m, Judge(replies[m - 1]));
    if n: nat, texts :| n <= max && ReachedAs(replies, n, Accept(texts)) { StopIsUnique(replies, max, n); }
    if n: nat :| n <= max && ReachedAs(replies, n, Escape) { StopIsUnique(replies, max, n); }
  }

  lemma SameErrors(a: seq<Reply>, b: seq<Reply>, n: nat)
    requires n <= |a| && n <= |b| && a[..n] == b[..n] && forall i :: 0 <= i < n ==> Fails(Judge(a[i]))
    ensures forall i :: 0 <= i < n ==> Fails(Judge(b[i]))
    ensures ErrorsOf(a, n) == ErrorsOf(b, n)
  {
    hide Judge;
    forall i | 0 <= i < n ensures b[i] == a[i] { assert a[..n][i] == b[..n][i]; }
  }

  /** Replies after the stopping attempt cannot matter. */
  lemma LaterRepliesIgnored(requestId: string, taskId: string, a: seq<Reply>, b: seq<Reply>, max: nat)
    requires 0 < max <= |a| && max <= |b|
    requires a[..StopsAt(a, max)] == b[..StopsAt(a, max)]
    ensures Verdicts(requestId, taskId, a, max) == Verdicts(requestId, taskId, b, max)
  {
    hide Judge, StopsAt, ErrorsOf, ClassOf;
    var n := StopsAt(a, max);
    forall i | 0 <= i < n ensures b[i] == a[i] { assert a[..n][i] == b[..n][i]; }
    StopIsUnique(b, max, n);
    assert a[..n - 1] == a[..n][..n - 1] && b[..n - 1] == b[..n][..n - 1];
    SameErrors(a, b, n - 1);
    if Fails(Judge(a[n - 1])) { SameErrors(a, b, n); }
  }

  /** `end` after `posts` posts, in terms of the replies alone: posting stops at the first reply that is
      not transient or at the limit; that reply decides the answer; and every recorded class is that of
      the reply it stands for. */
  ghost predicate ReadOff(replies: seq<Reply>, max: nat, end: RequestEnd, posts: nat) {
    && 1 <= posts <= max <= |replies|
    && (forall i :: 0 <= i < posts - 1 ==> Transient(replies[i]))
    && (posts < max ==> !Transient(replies[posts - 1]))
    && var last := replies[posts - 1];
       && (end.Escaped? <==> last.ClientRaised?)
       && (end.Answered? ==>
             && var r := end.result;
                && r.attempts == posts
                && (r.status.Succeeded? <==> Completions(last).Some?)
                && (r.status.Succeeded? ==>
                      r.texts == Completions(last).value && r.errorClass.None? && |r.history| == posts - 1)
                && (r.status.Failed? ==>
                      r.texts == [] && |r.history| == posts && r.errorClass == Some(r.history[posts - 1]))
                && forall i :: 0 <= i < |r.history| ==> Classifies(r.history[i], replies[i]))
  }

  lemma VerdictsReadOff(requestId: string, taskId: string, replies: seq<Reply>, max: nat)
    requires 0 < max <= |replies|
    ensures ReadOff(replies, max, Verdicts(requestId, taskId, replies, max), StopsAt(replies, max))
  {
    hide Judge, StopsAt, Completions, Transient, Classifies;
    forall i | 0 <= i < max
      ensures Judge(replies[i]).Retry? <==> Transient(replies[i])
      ensures Judge(replies[i]).Accept? <==> Completions(replies[i]).Some?
      ensures Judge(replies[i]).Escape? <==> replies[i].ClientRaised?
      ensures Judge(replies[i]).Accept? ==> Judge(replies[i]).texts == Completions(replies[i]).value
      ensures Fails(Judge(replies[i])) ==> Classifies(ClassOf(Judge(replies[i])), replies[i])
    {
      JudgeMeans(replies[i]);
    }
  }

  // ----- a well-formed body -----

  /** The body in which a provider sends these completions. */
  function BodyOf(texts: seq<string>): Json {
    Object(map["choices" := List(seq(|texts|, i requires 0 <= i < |texts| => ChoiceOf(texts[i])))])
  }

  function ChoiceOf(text: string): Json { Object(map["message" := Object(map["content" := Text(text)])]) }

  lemma ChoiceBack(text: string)
    ensures ContentOf(ChoiceOf(text)) == if text == "" then None else Some(text)
  {}

  /** The choice's message has this text as its content. */
  predicate Says(choice: Json, text: string) {
    && choice.Object? && "message" in choice.fields
    && choice.fields["message"].Object? && "content" in choice.fields["message"].fields
    && choice.fields["message"].fields["content"] == Text(text)
  }

  /** A body is accepted with these texts exactly when it lists that many choices, each with its text
      and none of them empty. */
  lemma ParseReads(body: Json, texts: seq<string>)
    ensures Parse(body) == Some(texts) <==>
              && texts != [] && body.Object? && "choices" in body.fields && body.fields["choices"].List?
              && var items := body.fields["choices"].items;
                 && |items| == |texts|
                 && forall i :: 0 <= i < |texts| ==> texts[i] != "" && Says(items[i], texts[i])
  {
    hide ContentOf, Says;
    if body.Object? && "choices" in body.fields && body.fields["choices"].List? {
      var items := body.fields["choices"].items;
      if |items| == |texts| {
        forall i | 0 <= i < |texts|
          ensures ContentOf(items[i]) == Some(texts[i]) <==> texts[i] != "" && Says(items[i], texts[i])
        {
          ContentIs(items[i], texts[i]);
        }
        if forall i :: 0 <= i < |texts| ==> texts[i] != "" && Says(items[i], texts[i]) {
          forall i | 0 <= i < |items| ensures ContentOf(items[i]) == Some(texts[i]) {}
          assert Contents(items) == texts;
        }
      }
    }
  }

  lemma ContentIs(choice: Json, text: string)
    ensures ContentOf(choice) == Some(text) <==> text != "" && Says(choice, text)
  {}

  /** Parsing reads back exactly what such a body was made of, and rejects it if a text is empty or there
      is none. */
  lemma ParseBack(texts: seq<string>)
    ensures Parse(BodyOf(texts)) ==
              if texts != [] && forall i :: 0 <= i < |texts| ==> texts[i] != "" then Some(texts) else None
  {
    hide ContentOf, ChoiceOf;
    var body := BodyOf(texts);
    var items := body.fields["choices"].items;
    forall i | 0 <= i < |texts| ensures ContentOf(items[i]) == if texts[i] == "" then None else Some(texts[i]) {
      ChoiceBack(texts[i]);
    }
    if texts != [] && forall i :: 0 <= i < |texts| ==> texts[i] != "" {
      assert Contents(items) == texts;
    } else if texts != [] {
      var i :| 0 <= i < |texts| && texts[i] == "";
      assert ContentOf(items[i]).None?;
    }
  }

  // ----- back-off -----

  function Pow2(n: nat): (p: nat)
    ensures p >= 1
  {
    if n == 0 then 1 else 2 * Pow2(n - 1)
  }

  /** The longest pause after attempt `attempt`. */
  function Ceiling(base: real, most: real, attempt: nat): real
    requires attempt >= 1
  {
    var grown := base * Pow2(attempt - 1) as real;
    if most < grown then most else grown
  }

  function Total(delays: seq<real>): real {
    if delays == [] then 0.0 else Total(delays[..|delays| - 1]) + delays[|delays| - 1]
  }

  ghost predicate Bounded(delays: seq<real>, base: real, most: real) {
    forall i :: 0 <= i < |delays| ==> 0.0 <= delays[i] <= Ceiling(base, most, i + 1)
  }

  /** The longest pause starts at the base, doubles with every attempt and is cut off at the maximum. */
  lemma CeilingDoubles(base: real, most: real, attempt: nat)
    requires attempt >= 1 && 0.0 <= base <= most
    ensures Ceiling(base, most, 1) == base
    ensures Ceiling(base, most, attempt + 1) ==
              if 2.0 * Ceiling(base, most, attempt) < most then 2.0 * Ceiling(base, most, attempt) else most
  {
    var grown := base * Pow2(attempt - 1) as real;
    assert base * Pow2(attempt) as real == 2.0 * grown;
  }

  lemma CeilingBounds(base: real, most: real, attempt: nat)
    requires attempt >= 1 && 0.0 <= base <= most
    ensures 0.0 <= Ceiling(base, most, attempt) <= most
    ensures Ceiling(base, most, attempt) <= base * Pow2(attempt - 1) as real
  {}

  /** `n` pauses of the longest length. */
  function Flat(n: nat, most: real): real { n as real * most }

  /** The first `n` terms of the doubling series that starts at `base`. */
  function Geometric(n: nat, base: real): real { base * (Pow2(n) - 1) as real }

  lemma OneMorePause(n: nat, base: real, most: real)
    requires 0.0 <= base <= most
    ensures Flat(0, most) == 0.0 && Geometric(0, base) == 0.0
    ensures Flat(n, most) + Ceiling(base, most, n + 1) <= Flat(n + 1, most)
    ensures Geometric(n, base) + Ceiling(base, most, n + 1) <= Geometric(n + 1, base)
  {
    CeilingBounds(base, most, n + 1);
  }

  /** Pauses that stay under their ceilings add up to at most both bounds. */
  lemma {:induction false} TotalBounded(delays: seq<real>, base: real, most: real)
    requires 0.0 <= base <= most && Bounded(delays, base, most)
    ensures 0.0 <= Total(delays) <= Flat(|delays|, most)
    ensures Total(delays) <= Geometric(|delays|, base)
  {
    hide Ceiling, Flat, Geometric;
    if delays == [] {
      OneMorePause(0, base, most);
    } else {
      TotalBounded(delays[..|delays| - 1], base, most);
      OneMorePause(|delays| - 1, base, most);
    }
  }

  lemma {:induction false} BoundsGrow(m: nat, n: nat, base: real, most: real)
    requires m <= n && 0.0 <= base <= most
    ensures Flat(m, most) <= Flat(n, most) && Geometric(m, base) <= Geometric(n, base)
    decreases n
  {
    hide Flat, Geometric, Ceiling;
    if m < n {
      BoundsGrow(m, n - 1, base, most);
      OneMorePause(n - 1, base, most);
      CeilingBounds(base, most, n);
    }
  }

  // ----- the loop -----

  datatype RetryPolicy = RetryPolicy(maxAttempts: nat, baseDelay: real, maxDelay: real)

  predicate PolicyOk(p: RetryPolicy) { p.maxAttempts > 0 && 0.0 <= p.baseDelay <= p.maxDelay }

  /** Posts until a reply is final, the client raises or attempts run out; `replies[i]` answers post `i + 1` and the jitter
      is arbitrary. The end of the loop is never reached. */
  method RequestWithRetries(requestId: string, taskId: string, policy: RetryPolicy, replies: seq<Reply>)
    returns (end: RequestEnd, posts: nat, delays: seq<real>)
    requires PolicyOk(policy) && policy.maxAttempts <= |replies|
    ensures end == Verdicts(requestId, taskId, replies, policy.maxAttempts)
    ensures posts == StopsAt(replies, policy.maxAttempts) && |delays| == posts - 1
    ensures ReadOff(replies, policy.maxAttempts, end, posts)
    ensures end.Answered? ==> end.result.requestId == requestId && end.result.taskId == taskId
    ensures Bounded(delays, policy.baseDelay, policy.maxDelay)
    ensures Total(delays) <= Flat(policy.maxAttempts - 1, policy.maxDelay)
    ensures Total(delays) <= Geometric(policy.maxAttempts - 1, policy.baseDelay)
  {
    hide Judge, Total, Pow2, Ceiling, ReadOff;
    VerdictsReadOff(requestId, taskId, replies, policy.maxAttempts);
    var history: seq<ErrorClass> := [];
    posts, delays := 0, [];
    for attempt := 1 to policy.maxAttempts + 1
      invariant posts == |delays| == |history| == attempt - 1
      invariant forall i :: 0 <= i < attempt - 1 ==> Judge(replies[i]).Retry? && history[i] == Judge(replies[i]).cls
      invariant attempt <= policy.maxAttempts
      invariant Bounded(delays, policy.baseDelay, policy.maxDelay)
    {
      var reply := replies[attempt - 1];
      posts := posts + 1;
      var verdict := Judge(reply);
      if !verdict.Retry? || attempt == policy.maxAttempts {
        StopIsUnique(replies, policy.maxAttempts, attempt);
        TotalWithin(policy, delays);
        if verdict.Accept? {
          assert history == ErrorsOf(replies, attempt - 1);
          end := Answered(GenerationResult(requestId, taskId, Succeeded, verdict.texts, attempt, None, history));
          return;
        }
        if verdict.Escape? {
          end := Escaped(ClientFailure);
          return;
        }
        history := history + [verdict.cls];
        assert history == ErrorsOf(replies, attempt);
        end := Answered(GenerationResult(requestId, taskId, Failed, [], attempt, Some(verdict.cls), history));
        return;
      }
      history := history + [verdict.cls];
      CeilingBounds(policy.baseDelay, policy.maxDelay, attempt);
      var delay: real :| 0.0 <= delay <= Ceiling(policy.baseDelay, policy.maxDelay, attempt);
      delays := delays + [delay];
    }
    assert false;
  }

  lemma TotalWithin(policy: RetryPolicy, delays: seq<real>)
    requires PolicyOk(policy) && |delays| < policy.maxAttempts
    requires Bounded(delays, policy.baseDelay, policy.maxDelay)
    ensures Total(delays) <= Flat(policy.maxAttempts - 1, policy.maxDelay)
    ensures Total(delays) <= Geometric(policy.maxAttempts - 1, policy.baseDelay)
  {
    hide Total, Flat, Geometric, Bounded;
    TotalBounded(delays, policy.baseDelay, policy.maxDelay);
    BoundsGrow(|delays|, policy.maxAttempts - 1, policy.baseDelay, policy.maxDelay);
  }
}
