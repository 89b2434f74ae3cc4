/**
 * The batch plan and the sequential batch loop of `fetchQuestions`
 * (src/pages/testing.tsx), as a specification function over an abstract
 * generator. The stateful loop itself is `QuizSession.Session.FetchQuestions`.
 */
module QuizFetch {
  import opened Wrappers
  import opened QuizBatch

  /** The generator seen by the page: the API key, the model call and the JSON parser. */
  datatype Generator = Generator(apiKey: string, call: (int, int) -> Reply, parse: string -> Parsed)

  /** The arguments of one `generateQuestionsBatch(startIndex, count)` call. */
  datatype Request = Request(start: int, count: int)

  /** The outcome of a whole batch loop: the requests issued, the questions kept and the first failure. */
  datatype Run = Run(requests: seq<Request>, collected: seq<Question>, failure: Option<string>)

  /** `Math.min(3, questionCount)`: the effective batch size. */
  function BatchSize(n: int): (size: int)
    requires n > 0
    ensures 1 <= size <= 3 && size <= n
    ensures size == 3 || size == n
  {
    if 3 < n then 3 else n
  }

  /** `Math.ceil(questionCount / size)`: the number of loop iterations. */
  function BatchCount(n: int): (count: nat)
    requires n > 0
    ensures count >= 1
  {
    (n + BatchSize(n) - 1) / BatchSize(n)
  }

  /** The batch count is the ceiling of `n / size`: the fewest batches of `size` that hold `n` questions. */
  lemma BatchCountIsCeiling(n: int)
    requires n > 0
    ensures (BatchCount(n) - 1) * BatchSize(n) < n <= BatchCount(n) * BatchSize(n)
  {
    var size := BatchSize(n);
    assert size == 1 || size == 2 || size == 3;
  }

  /** The request of iteration `i` after `collected` questions: `min(size, questionCount - collected)` at `i * size`. */
  function NextRequest(n: int, i: nat, collected: nat): Request
    requires n > 0
  {
    var size := BatchSize(n);
    Request(i * size, if n - collected < size then n - collected else size)
  }

  /** The outcome of one batch request: the questions or the error message. */
  type Attempt = Request -> Result<seq<Question>, string>

  /** One call of `generateQuestionsBatch` against the generator. */
  function BatchAttempt(g: Generator): Attempt {
    (req: Request) => GenerateBatch(g.apiKey, g.call(req.start, req.count), g.parse)
  }

  /** The questions of the successful attempts among `reqs`, concatenated in order. */
  function Gathered(attempt: Attempt, reqs: seq<Request>): seq<Question> {
    if reqs == [] then []
    else
      var first := attempt(reqs[0]);
      (if first.Ok? then first.value else []) + Gathered(attempt, reqs[1..])
  }

  /** Iterations `i` up to the batch count, with `acc` already collected. */
  function RunFrom(attempt: Attempt, n: int, i: nat, acc: seq<Question>): Run
    requires n > 0
    decreases BatchCount(n) - i
  {
    if i >= BatchCount(n) then Run([], acc, None)
    else
      var req := NextRequest(n, i, |acc|);
      match attempt(req)
      case Err(message) => Run([req], acc, Some(message))
      case Ok(qs) =>
        var rest := RunFrom(attempt, n, i + 1, acc + qs);
        Run([req] + rest.requests, rest.collected, rest.failure)
  }

  /** The whole batch loop for `questionCount == n`. */
  function FetchRun(attempt: Attempt, n: int): (run: Run)
    requires n > 0
    ensures 1 <= |run.requests| <= BatchCount(n)
    ensures run.failure.None? ==> |run.requests| == BatchCount(n)
  {
    RunFromStops(attempt, n, 0, []);
    RunFrom(attempt, n, 0, [])
  }

  /** One step of the loop: the planned request failed, so the run ends here. */
  lemma RunFromFails(attempt: Attempt, n: int, i: nat, acc: seq<Question>)
    requires n > 0 && i < BatchCount(n) && attempt(NextRequest(n, i, |acc|)).Err?
    ensures RunFrom(attempt, n, i, acc)
              == Run([NextRequest(n, i, |acc|)], acc, Some(attempt(NextRequest(n, i, |acc|)).error))
  {
  }

  /** One step of the loop: the planned request succeeded, so the run goes on with its questions. */
  lemma RunFromContinues(attempt: Attempt, n: int, i: nat, acc: seq<Question>)
    requires n > 0 && i < BatchCount(n) && attempt(NextRequest(n, i, |acc|)).Ok?
    ensures var rest := RunFrom(attempt, n, i + 1, acc + attempt(NextRequest(n, i, |acc|)).value);
            RunFrom(attempt, n, i, acc) == Run([NextRequest(n, i, |acc|)] + rest.requests, rest.collected, rest.failure)
  {
  }

  /** Every request before the last succeeded; the run failed exactly when its last request failed. */
  ghost predicate StopsAtFirstFailure(attempt: Attempt, run: Run) {
    && (forall k :: 0 <= k < |run.requests| - 1 ==> attempt(run.requests[k]).Ok?)
    && (run.failure.None? ==> forall k :: 0 <= k < |run.requests| ==> attempt(run.requests[k]).Ok?)
    && (run.failure.Some? ==>
          |run.requests| > 0 && attempt(run.requests[|run.requests| - 1]) == Err(run.failure.value))
  }

  /** The requests of a run that succeeded: all of them, or all but the failed last one. */
  function Succeeded(run: Run): seq<Request> {
    if run.failure.Some? && run.requests != [] then run.requests[..|run.requests| - 1] else run.requests
  }

  /** Request `k` of `reqs` is iteration `i + k`, asking for `min(size, n - collected)` at `(i + k) * size`. */
  ghost predicate PlannedFrom(attempt: Attempt, n: int, i: nat, acc: seq<Question>, reqs: seq<Request>)
    requires n > 0
  {
    forall k :: 0 <= k < |reqs| ==> reqs[k] == NextRequest(n, i + k, |acc| + |Gathered(attempt, reqs[..k])|)
  }

  /** From iteration `i`: the run stops at its first failure and issues at most the remaining iterations. */
  lemma {:induction false} RunFromStops(attempt: Attempt, n: int, i: nat, acc: seq<Question>)
    requires n > 0 && i <= BatchCount(n)
    ensures var run := RunFrom(attempt, n, i, acc);
            && StopsAtFirstFailure(attempt, run)
            && |run.requests| <= BatchCount(n) - i
            && (i < BatchCount(n) ==> |run.requests| >= 1)
            && (run.failure.None? ==> |run.requests| == BatchCount(n) - i)
    decreases BatchCount(n) - i
  {
    var run := RunFrom(attempt, n, i, acc);
    if i < BatchCount(n) {
      var req := NextRequest(n, i, |acc|);
      var first := attempt(req);
      if first.Ok? {
        var rest := RunFrom(attempt, n, i + 1, acc + first.value);
        RunFromStops(attempt, n, i + 1, acc + first.value);
        assert run.requests == [req] + rest.requests && run.failure == rest.failure;
        assert forall k :: 1 <= k < |run.requests| ==> run.requests[k] == rest.requests[k - 1];
      } else {
        assert run == Run([req], acc, Some(first.error));
      }
    }
  }

  /** From iteration `i`: the questions collected are `acc` followed by those of the successful requests, in order. */
  lemma {:induction false} RunFromCollects(attempt: Attempt, n: int, i: nat, acc: seq<Question>)
    requires n > 0
    ensures RunFrom(attempt, n, i, acc).collected == acc + Gathered(attempt, Succeeded(RunFrom(attempt, n, i, acc)))
    decreases BatchCount(n) - i
  {
    var run := RunFrom(attempt, n, i, acc);
    if i < BatchCount(n) {
      var req := NextRequest(n, i, |acc|);
      if attempt(req).Err? {
        RunFromFails(attempt, n, i, acc);
        assert Succeeded(run) == [];
      } else {
        var qs := attempt(req).value;
        RunFromCollects(attempt, n, i + 1, acc + qs);
        CollectsStep(attempt, n, i, acc);
      }
    } else {
      assert Succeeded(run) == [];
    }
  }

  /** One successful iteration extends what the rest of the run collects by its own questions. */
  lemma CollectsStep(attempt: Attempt, n: int, i: nat, acc: seq<Question>)
    requires n > 0 && i < BatchCount(n) && attempt(NextRequest(n, i, |acc|)).Ok?
    requires var rest := RunFrom(attempt, n, i + 1, acc + attempt(NextRequest(n, i, |acc|)).value);
             rest.collected == acc + attempt(NextRequest(n, i, |acc|)).value + Gathered(attempt, Succeeded(rest))
    ensures RunFrom(attempt, n, i, acc).collected == acc + Gathered(attempt, Succeeded(RunFrom(attempt, n, i, acc)))
  {
    var req := NextRequest(n, i, |acc|);
    var qs := attempt(req).value;
    var rest := RunFrom(attempt, n, i + 1, acc + qs);
    RunFromContinues(attempt, n, i, acc);
    RunFromFailureHasRequest(attempt, n, i + 1, acc + qs);
    var later := Succeeded(rest);
    SucceededCons(req, rest);
    GatheredCons(attempt, req, later);
    assert acc + (qs + Gathered(attempt, later)) == acc + qs + Gathered(attempt, later);
  }

  /** A run that failed issued at least the failing request. */
  lemma RunFromFailureHasRequest(attempt: Attempt, n: int, i: nat, acc: seq<Question>)
    requires n > 0
    ensures RunFrom(attempt, n, i, acc).failure.Some? ==> RunFrom(attempt, n, i, acc).requests != []
  {
  }

  lemma SucceededCons(req: Request, rest: Run)
    requires rest.failure.Some? ==> rest.requests != []
    ensures Succeeded(Run([req] + rest.requests, rest.collected, rest.failure)) == [req] + Succeeded(rest)
  {
    if rest.failure.Some? && rest.requests != [] {
      assert ([req] + rest.requests)[..|rest.requests|] == [req] + rest.requests[..|rest.requests| - 1];
    }
  }

  lemma GatheredCons(attempt: Attempt, req: Request, reqs: seq<Request>)
    requires attempt(req).Ok?
    ensures Gathered(attempt, [req] + reqs) == attempt(req).value + Gathered(attempt, reqs)
  {
    assert ([req] + reqs)[1..] == reqs;
  }

  /** A planned first request followed by a run planned from the next iteration is planned as a whole. */
  lemma PlannedCons(attempt: Attempt, n: int, i: nat, acc: seq<Question>, rest: seq<Request>)
    requires n > 0 && attempt(NextRequest(n, i, |acc|)).Ok?
    requires PlannedFrom(attempt, n, i + 1, acc + attempt(NextRequest(n, i, |acc|)).value, rest)
    ensures PlannedFrom(attempt, n, i, acc, [NextRequest(n, i, |acc|)] + rest)
  {
    var req := NextRequest(n, i, |acc|);
    var reqs := [req] + rest;
    forall k | 0 <= k < |reqs|
      ensures reqs[k] == NextRequest(n, i + k, |acc| + |Gathered(attempt, reqs[..k])|)
    {
      if k == 0 {
        assert reqs[..0] == [];
      } else {
        assert reqs[..k] == [req] + rest[..k - 1];
        GatheredCons(attempt, req, rest[..k - 1]);
      }
    }
  }

  /** From iteration `i`: every request follows the plan. */
  lemma {:induction false} RunFromPlanned(attempt: Attempt, n: int, i: nat, acc: seq<Question>)
    requires n > 0
    ensures PlannedFrom(attempt, n, i, acc, RunFrom(attempt, n, i, acc).requests)
    decreases BatchCount(n) - i
  {
    if i < BatchCount(n) {
      var req := NextRequest(n, i, |acc|);
      if attempt(req).Err? {
        RunFromFails(attempt, n, i, acc);
        assert [req][..0] == [];
      } else {
        var qs := attempt(req).value;
        RunFromContinues(attempt, n, i, acc);
        RunFromPlanned(attempt, n, i + 1, acc + qs);
        PlannedCons(attempt, n, i, acc, RunFrom(attempt, n, i + 1, acc + qs).requests);
      }
    }
  }

  /**
   * The batch loop issues its planned requests, keeps the questions of the
   * successful ones in order, and stops at the first failure: no request
   * follows a failed one.
   */
  lemma FetchRunShape(attempt: Attempt, n: int)
    requires n > 0
    ensures var run := FetchRun(attempt, n);
            && 1 <= |run.requests| <= BatchCount(n)
            && StopsAtFirstFailure(attempt, run)
            && (run.failure.None? ==> |run.requests| == BatchCount(n))
            && run.collected == Gathered(attempt, Succeeded(run))
            && forall k :: 0 <= k < |run.requests| ==>
                 run.requests[k] == NextRequest(n, k, |Gathered(attempt, run.requests[..k])|)
  {
    RunFromStops(attempt, n, 0, []);
    RunFromCollects(attempt, n, 0, []);
    RunFromPlanned(attempt, n, 0, []);
    assert [] + Gathered(attempt, Succeeded(FetchRun(attempt, n))) == Gathered(attempt, Succeeded(FetchRun(attempt, n)));
  }

  /** The generator answers every request for 1 to 3 questions with exactly that many questions. */
  ghost predicate AnswersExactly(attempt: Attempt) {
    forall req: Request :: 1 <= req.count <= 3 ==>
      attempt(req).Ok? && |attempt(req).value| == req.count
  }

  /** The sum of the counts asked for. */
  function TotalAsked(reqs: seq<Request>): int {
    if reqs == [] then 0 else reqs[0].count + TotalAsked(reqs[1..])
  }

  lemma {:induction false} ExactFrom(attempt: Attempt, n: int, i: nat, acc: seq<Question>)
    requires n > 0 && AnswersExactly(attempt) && i <= BatchCount(n)
    requires |acc| == if i * BatchSize(n) < n then i * BatchSize(n) else n
    ensures var run := RunFrom(attempt, n, i, acc);
            && run.failure.None? && |run.collected| == n
            && |run.requests| == BatchCount(n) - i
            && TotalAsked(run.requests) == n - |acc|
            && forall k :: 0 <= k < |run.requests| ==> 1 <= run.requests[k].count <= 3
    decreases BatchCount(n) - i
  {
    var size := BatchSize(n);
    BatchCountIsCeiling(n);
    if i < BatchCount(n) {
      assert i * size <= (BatchCount(n) - 1) * size;
      var req := NextRequest(n, i, |acc|);
      assert 1 <= req.count <= 3;
      var qs := attempt(req).value;
      assert (i + 1) * size == i * size + size;
      ExactFrom(attempt, n, i + 1, acc + qs);
      var rest := RunFrom(attempt, n, i + 1, acc + qs);
      assert ([req] + rest.requests)[1..] == rest.requests;
    } else {
      assert BatchCount(n) * size >= n;
    }
  }

  /**
   * When the generator returns exactly what it is asked for, the loop runs
   * `ceil(n / size)` times, each request asks for 1 to 3 questions, the
   * requests add up to `n` and exactly `n` questions are collected.
   */
  lemma FetchRunExact(attempt: Attempt, n: int)
    requires n > 0 && AnswersExactly(attempt)
    ensures var run := FetchRun(attempt, n);
            && run.failure.None? && |run.collected| == n
            && |run.requests| == BatchCount(n)
            && TotalAsked(run.requests) == n
            && forall k :: 0 <= k < |run.requests| ==> 1 <= run.requests[k].count <= 3
  {
    ExactFrom(attempt, n, 0, []);
  }
}
