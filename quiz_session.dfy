/**
 * The quiz session controller of src/pages/testing.tsx: the entry gate on the
 * navigation state, the session state with its batch loop, answer selection,
 * advancing, scoring, and the choice of the screen to render.
 */
module QuizSession {
  import opened Wrappers
  import opened Seqs
  import opened QuizBatch
  import opened QuizFetch

  // ---------------------------------------------------------------------
  // Entry gate
  // ---------------------------------------------------------------------

  /** `location.state` as handed over by the navigation; an absent key is None. */
  datatype TestState = TestState(
    title: Option<string>,
    description: Option<string>,
    level: Option<string>,
    estimatedTime: Option<string>,
    questionCount: Option<int>)

  /** The required fields, in the order the missing-fields list names them. */
  datatype Field = Title | Description | Level | EstimatedTime | QuestionCount

  const RequiredFields: seq<Field> := [Title, Description, Level, EstimatedTime, QuestionCount]

  /** A string field is truthy when present and non-empty. */
  predicate Truthy(s: Option<string>) {
    s.Some? && s.value != ""
  }

  /** The field is truthy in the state (a count is truthy when present and non-zero). */
  predicate Provided(state: TestState, f: Field) {
    match f
    case Title => Truthy(state.title)
    case Description => Truthy(state.description)
    case Level => Truthy(state.level)
    case EstimatedTime => Truthy(state.estimatedTime)
    case QuestionCount => state.questionCount.Some? && state.questionCount.value != 0
  }

  lemma EveryFieldRequired()
    ensures forall f: Field :: f in RequiredFields
  {
    forall f: Field ensures f in RequiredFields {
      if f.Title? { assert RequiredFields[0] == f; }
      else if f.Description? { assert RequiredFields[1] == f; }
      else if f.Level? { assert RequiredFields[2] == f; }
      else if f.EstimatedTime? { assert RequiredFields[3] == f; }
      else { assert RequiredFields[4] == f; }
    }
  }

  /** The fields listed under "Missing fields", in display order. */
  function MissingFields(state: TestState): (missing: seq<Field>)
    ensures forall f :: f in missing <==> !Provided(state, f)
    ensures IsSubsequence(missing, RequiredFields)
  {
    var keep := f => !Provided(state, f);
    EveryFieldRequired();
    FilterMembers(RequiredFields, keep);
    Filter(RequiredFields, keep)
  }

  /** Nothing is missing exactly when every field is provided. */
  lemma NoneMissingIff(state: TestState)
    ensures MissingFields(state) == [] <==> forall f :: Provided(state, f)
  {
    var missing := MissingFields(state);
    if missing != [] {
      assert missing[0] in missing;
    }
  }

  /** When nothing is missing, every field is present. */
  lemma NoneMissingAllPresent(state: TestState)
    requires MissingFields(state) == []
    ensures && state.title.Some? && state.description.Some? && state.level.Some?
            && state.estimatedTime.Some? && state.questionCount.Some?
  {
    assert Provided(state, Title) && Provided(state, Description) && Provided(state, Level);
    assert Provided(state, EstimatedTime) && Provided(state, QuestionCount);
  }

  /** The test description a session runs on. */
  datatype TestSpec = TestSpec(title: string, description: string, level: string, estimatedTime: string, questionCount: nat)

  /** What the page does with the navigation state before any session state exists. */
  datatype Entry =
    | NoTestData                      // "No test data provided"
    | MissingInfo(fields: seq<Field>) // "Missing required test information"
    | BadQuestionCount                // `Array(questionCount)` throws unless the count is a valid array length
    | Ready(spec: TestSpec)

  /** The array lengths `Array(n)` accepts: the 32-bit unsigned integers. */
  const ArrayLengthLimit := 0x1_0000_0000

  /** The count is present and a length `Array(n)` accepts for a non-empty test. */
  predicate ValidLength(count: Option<int>) {
    count.Some? && 0 < count.value < ArrayLengthLimit
  }

  /** The session's description carries the values of the navigation state. */
  predicate Describes(spec: TestSpec, state: TestState) {
    && Some(spec.title) == state.title
    && Some(spec.description) == state.description
    && Some(spec.level) == state.level
    && Some(spec.estimatedTime) == state.estimatedTime
    && Some(spec.questionCount as int) == state.questionCount
  }

  /** The two early returns of the page and the allocation of `answers`. */
  function Enter(state: Option<TestState>): (e: Entry)
    ensures e == NoTestData <==> state.None?
    ensures e.MissingInfo? <==> state.Some? && MissingFields(state.value) != []
    ensures e.MissingInfo? ==> e.fields == MissingFields(state.value)
    ensures e.Ready? <==>
              state.Some? && MissingFields(state.value) == [] && ValidLength(state.value.questionCount)
    ensures e == BadQuestionCount <==>
              state.Some? && MissingFields(state.value) == [] && !ValidLength(state.value.questionCount)
    ensures e.Ready? ==> 0 < e.spec.questionCount < ArrayLengthLimit && Describes(e.spec, state.value)
  {
    match state
    case None => NoTestData
    case Some(st) =>
      var missing := MissingFields(st);
      if missing != [] then MissingInfo(missing)
      else
        NoneMissingAllPresent(st);
        if !ValidLength(st.questionCount) then BadQuestionCount
        else
          Ready(TestSpec(st.title.value, st.description.value, st.level.value,
                         st.estimatedTime.value, st.questionCount.value))
  }

  // ---------------------------------------------------------------------
  // Answers and score
  // ---------------------------------------------------------------------

  /**
   * One entry of `answers`: the initial `null`, a hole left by writing past
   * the end, an `undefined` that a hole becomes when the array is copied with
   * spread syntax, or a chosen option key.
   */
  datatype Slot = Null | Hole | Undefined | Chosen(key: string)

  /**
   * `answers[idx] === questions[idx]?.correct` at a visited index: a chosen
   * key equal to the question's `correct`, or an `undefined` answer where
   * the question or its `correct` is missing. `reduce` skips holes, and
   * `null` never equals a string or `undefined`.
   */
  function Hit(answers: seq<Slot>, questions: seq<Question>, idx: int): (hit: bool)
    ensures hit ==> 0 <= idx < |answers| && (answers[idx].Chosen? || answers[idx].Undefined?)
    ensures 0 <= idx < |answers| && answers[idx].Chosen? ==>
              (hit <==> idx < |questions| && questions[idx].correct == Some(answers[idx].key))
    ensures 0 <= idx < |answers| && answers[idx].Undefined? ==>
              (hit <==> idx >= |questions| || questions[idx].correct.None?)
  {
    && 0 <= idx < |answers|
    && match answers[idx]
       case Chosen(key) => idx < |questions| && questions[idx].correct == Some(key)
       case Undefined => idx >= |questions| || questions[idx].correct.None?
       case _ => false
  }

  /** The `reduce` over the first `k` answers. */
  function CountHits(answers: seq<Slot>, questions: seq<Question>, k: nat): (c: nat)
    requires k <= |answers|
    ensures c <= k
  {
    if k == 0 then 0
    else CountHits(answers, questions, k - 1) + (if Hit(answers, questions, k - 1) then 1 else 0)
  }

  /** `score`: the number of answers equal to their question's `correct`; 0 while there are no questions. */
  function Score(answers: seq<Slot>, questions: seq<Question>): (score: nat)
    ensures score <= |answers|
    ensures questions == [] ==> score == 0
  {
    if |questions| > 0 then CountHits(answers, questions, |answers|) else 0
  }

  /** The indices that score. */
  ghost function Hits(answers: seq<Slot>, questions: seq<Question>, k: nat): set<int> {
    set idx | 0 <= idx < k && Hit(answers, questions, idx)
  }

  /** One more visited index adds itself to the hits exactly when it scores. */
  lemma HitsStep(answers: seq<Slot>, questions: seq<Question>, k: nat)
    requires 0 < k <= |answers|
    ensures k - 1 !in Hits(answers, questions, k - 1)
    ensures Hits(answers, questions, k)
              == Hits(answers, questions, k - 1) + (if Hit(answers, questions, k - 1) then {k - 1} else {})
  {
    var before, after := Hits(answers, questions, k - 1), Hits(answers, questions, k);
    var added: set<int> := if Hit(answers, questions, k - 1) then {k - 1} else {};
    forall idx ensures idx in after <==> idx in before + added {
      if idx == k - 1 {
        assert idx !in before;
      }
    }
  }

  lemma {:induction false} CountHitsIsHitCount(answers: seq<Slot>, questions: seq<Question>, k: nat)
    requires k <= |answers|
    ensures CountHits(answers, questions, k) == |Hits(answers, questions, k)|
  {
    if k > 0 {
      CountHitsIsHitCount(answers, questions, k - 1);
      HitsStep(answers, questions, k);
    }
  }

  /** The score is the number of indices whose answer equals their question's `correct`. */
  lemma ScoreIsHitCount(answers: seq<Slot>, questions: seq<Question>)
    requires questions != []
    ensures Score(answers, questions) == |Hits(answers, questions, |answers|)|
  {
    CountHitsIsHitCount(answers, questions, |answers|);
  }

  /** No `undefined` answer sits beyond the last question. */
  predicate NoUndefinedBeyond(answers: seq<Slot>, questions: seq<Question>) {
    forall j :: |questions| <= j < |answers| ==> !answers[j].Undefined?
  }

  lemma {:induction false} CountHitsAtMostQuestions(answers: seq<Slot>, questions: seq<Question>, k: nat)
    requires k <= |answers| && NoUndefinedBeyond(answers, questions)
    ensures CountHits(answers, questions, k) <= |questions|
  {
    if k > 0 {
      CountHitsAtMostQuestions(answers, questions, k - 1);
      if k - 1 < |questions| {
        assert CountHits(answers, questions, k - 1) <= k - 1;
      } else {
        assert !Hit(answers, questions, k - 1);
      }
    }
  }

  /**
   * Null answers never score, and unless an `undefined` answer lies beyond
   * the last question the score is at most the number of questions.
   */
  lemma ScoreBounds(answers: seq<Slot>, questions: seq<Question>)
    ensures forall idx :: 0 <= idx < |answers| && answers[idx].Null? ==> !Hit(answers, questions, idx)
    ensures NoUndefinedBeyond(answers, questions) ==> Score(answers, questions) <= |questions|
  {
    if NoUndefinedBeyond(answers, questions) && questions != [] {
      CountHitsAtMostQuestions(answers, questions, |answers|);
    }
  }

  /** What spread syntax makes of an entry: a hole becomes `undefined`. */
  function Spread(slot: Slot): (copied: Slot)
    ensures copied != Hole
    ensures slot != Hole ==> copied == slot
  {
    if slot == Hole then Undefined else slot
  }

  /** `[...answers]`. */
  function SpreadAll(answers: seq<Slot>): (copy: seq<Slot>)
    ensures |copy| == |answers|
    ensures forall j :: 0 <= j < |answers| ==> copy[j] == Spread(answers[j])
  {
    seq(|answers|, j requires 0 <= j < |answers| => Spread(answers[j]))
  }

  /**
   * `updated = [...answers]; updated[idx] = key`: the copy turns holes into
   * `undefined`, and a write past the end grows the array with new holes.
   */
  function WithAnswer(answers: seq<Slot>, idx: nat, key: string): (updated: seq<Slot>)
    ensures |updated| == if idx < |answers| then |answers| else idx + 1
    ensures updated[idx] == Chosen(key)
    ensures forall j :: 0 <= j < |answers| && j != idx ==> updated[j] == Spread(answers[j])
    ensures forall j :: |answers| <= j < idx ==> updated[j] == Hole
  {
    var copy := SpreadAll(answers);
    if idx < |copy| then copy[idx := Chosen(key)]
    else copy + seq(idx - |copy|, _ => Hole) + [Chosen(key)]
  }

  /**
   * Selecting twice for the same question keeps only the second choice; the
   * second copy only turns the holes the first write left into `undefined`.
   */
  lemma LastWriteWins(answers: seq<Slot>, idx: nat, first: string, second: string)
    ensures WithAnswer(WithAnswer(answers, idx, first), idx, second) == SpreadAll(WithAnswer(answers, idx, second))
    ensures idx < |answers| ==>
              WithAnswer(WithAnswer(answers, idx, first), idx, second) == WithAnswer(answers, idx, second)
  {
    var a := WithAnswer(WithAnswer(answers, idx, first), idx, second);
    var b := WithAnswer(answers, idx, second);
    assert |a| == |SpreadAll(b)|;
    forall j | 0 <= j < |a| ensures a[j] == SpreadAll(b)[j] {
    }
    if idx < |answers| {
      forall j | 0 <= j < |b| ensures SpreadAll(b)[j] == b[j] {
      }
    }
  }

  /** Without holes, one selection, inside the answers or past their end, changes the score by at most one. */
  lemma SelectChangesScoreByAtMostOne(answers: seq<Slot>, questions: seq<Question>, idx: nat, key: string)
    requires questions != []
    requires forall j :: 0 <= j < |answers| ==> answers[j] != Hole
    ensures var after := Score(WithAnswer(answers, idx, key), questions);
            Score(answers, questions) - 1 <= after <= Score(answers, questions) + 1
  {
    var updated := WithAnswer(answers, idx, key);
    ScoreIsHitCount(answers, questions);
    ScoreIsHitCount(updated, questions);
    var before, after := Hits(answers, questions, |answers|), Hits(updated, questions, |updated|);
    forall j ensures j in after - {idx} <==> j in before - {idx} {
      if 0 <= j < |answers| && j != idx {
        assert updated[j] == answers[j];
      }
    }
    assert after - {idx} == before - {idx};
    assert |before| <= |before - {idx}| + 1;
    assert |after| <= |after - {idx}| + 1;
    assert |before - {idx}| <= |before| && |after - {idx}| <= |after|;
  }

  // ---------------------------------------------------------------------
  // Session state and the screen shown for it
  // ---------------------------------------------------------------------

  /** The page's state hooks. */
  datatype SessionState = SessionState(
    started: bool,
    questions: seq<Question>,
    current: nat,
    answers: seq<Slot>,
    showScore: bool,
    isLoading: bool,
    error: Option<string>)

  /** The state right after the gate: `answers` holds `questionCount` nulls. */
  function Initial(questionCount: nat): (s: SessionState)
    ensures |s.answers| == questionCount && forall j :: 0 <= j < questionCount ==> s.answers[j] == Null
    ensures !s.started && s.questions == [] && s.current == 0 && s.error.None?
    ensures !s.showScore && !s.isLoading
  {
    SessionState(false, [], 0, seq(questionCount, _ => Null), false, false, None)
  }

  const FailurePrefix := "Failed to generate questions: "

  /** Whether some batch of the run succeeded, so that `setQuestions` ran at least once. */
  predicate AnySucceeded(run: Run) {
    Succeeded(run) != []
  }

  /** The state `fetchQuestions` leaves behind for a run of the batch loop. */
  function AfterFetch(s: SessionState, run: Run): (after: SessionState)
    ensures after.started && !after.isLoading
    ensures after.questions == if AnySucceeded(run) then run.collected else s.questions
    ensures after.error.None? <==> run.failure.None?
    ensures run.failure.Some? ==> after.error == Some(FailurePrefix + run.failure.value)
    ensures after.current == s.current && after.answers == s.answers && after.showScore == s.showScore
  {
    s.(started := true,
       questions := if AnySucceeded(run) then run.collected else s.questions,
       isLoading := false,
       error := if run.failure.Some? then Some(FailurePrefix + run.failure.value) else None)
  }

  /** The screens the page renders. */
  datatype View =
    | StartCard
    | GeneratingCard(generated: nat, total: nat)
    | ErrorCard(message: string)
    | ScoreCard(score: nat, outOf: nat)
    | QuestionCard(index: nat, count: nat)

  /** The render-phase choice of screen, in the page's order of early returns. */
  function SelectView(s: SessionState, questionCount: nat): (v: View)
    ensures v == StartCard <==> !s.started
    ensures v.GeneratingCard? <==> s.started && (s.isLoading || s.questions == [])
    ensures v.GeneratingCard? ==> v == GeneratingCard(|s.questions|, questionCount)
    ensures v.ErrorCard? <==> s.started && !s.isLoading && s.questions != [] && s.error.Some?
    ensures v.ErrorCard? ==> s.error == Some(v.message)
    ensures v.ScoreCard? <==> s.started && !s.isLoading && s.questions != [] && s.error.None? && s.showScore
    ensures v.ScoreCard? ==> v == ScoreCard(Score(s.answers, s.questions), |s.questions|) && v.score <= |s.answers|
    ensures v.QuestionCard? <==>
              s.started && !s.isLoading && s.questions != [] && s.error.None? && !s.showScore
    ensures v.QuestionCard? ==> v == QuestionCard(s.current, |s.questions|)
  {
    if !s.started then StartCard
    else if s.isLoading || |s.questions| == 0 then GeneratingCard(|s.questions|, questionCount)
    else if s.error.Some? then ErrorCard(s.error.value)
    else if s.showScore then ScoreCard(Score(s.answers, s.questions), |s.questions|)
    else QuestionCard(s.current, |s.questions|)
  }

  /** The screen choice with the error checked before the wait for questions. */
  function SelectViewIntended(s: SessionState, questionCount: nat): (v: View)
    ensures v == StartCard <==> !s.started
    ensures s.started && !s.isLoading && s.error.Some? ==> v == ErrorCard(s.error.value)
    ensures v.ErrorCard? ==> s.error.Some?
    ensures v.QuestionCard? <==>
              s.started && !s.isLoading && s.questions != [] && s.error.None? && !s.showScore
  {
    if !s.started then StartCard
    else if s.isLoading then GeneratingCard(|s.questions|, questionCount)
    else if s.error.Some? then ErrorCard(s.error.value)
    else if |s.questions| == 0 then GeneratingCard(0, questionCount)
    else if s.showScore then ScoreCard(Score(s.answers, s.questions), |s.questions|)
    else QuestionCard(s.current, |s.questions|)
  }

  /**
   * As written, a failure of the very first batch of a fresh session leaves
   * the error set but no questions, so the page keeps showing the
   * "Generating Questions" card and never offers "Try Again".
   */
  lemma FirstBatchFailureHidesError(attempt: Attempt, n: nat)
    requires n > 0 && attempt(NextRequest(n, 0, 0)).Err?
    ensures var after := AfterFetch(Initial(n), FetchRun(attempt, n));
            && after.error == Some(FailurePrefix + attempt(NextRequest(n, 0, 0)).error)
            && SelectView(after, n) == GeneratingCard(0, n)
  {
    var run := FetchRun(attempt, n);
    assert run == Run([NextRequest(n, 0, 0)], [], Some(attempt(NextRequest(n, 0, 0)).error));
    assert Succeeded(run) == [];
  }

  /** With the error checked first, the same failure shows the error card. */
  lemma FirstBatchFailureShownWhenIntended(attempt: Attempt, n: nat)
    requires n > 0 && attempt(NextRequest(n, 0, 0)).Err?
    ensures SelectViewIntended(AfterFetch(Initial(n), FetchRun(attempt, n)), n)
              == ErrorCard(FailurePrefix + attempt(NextRequest(n, 0, 0)).error)
  {
    var run := FetchRun(attempt, n);
    assert run == Run([NextRequest(n, 0, 0)], [], Some(attempt(NextRequest(n, 0, 0)).error));
  }

  /**
   * The outcome of `fetchQuestions`: loading is over, and either no error is
   * set and the questions are those of every batch, or the error names the
   * first failure. When the generator returns exactly what it is asked for,
   * the session holds exactly `questionCount` questions and shows the first one.
   */
  lemma FetchOutcome(s: SessionState, attempt: Attempt, n: nat)
    requires n > 0
    ensures var run := FetchRun(attempt, n);
            var after := AfterFetch(s, run);
            && after.started && !after.isLoading
            && (after.error.None? ==> after.questions == run.collected && run.failure.None?)
            && (after.error.Some? ==> after.error.value == FailurePrefix + run.failure.value)
    ensures AnswersExactly(attempt) ==>
              var after := AfterFetch(s, FetchRun(attempt, n));
              && after.error.None? && |after.questions| == n
              && (!s.showScore ==> SelectView(after, n) == QuestionCard(s.current, n))
  {
    var run := FetchRun(attempt, n);
    FetchRunShape(attempt, n);
    if AnswersExactly(attempt) {
      FetchRunExact(attempt, n);
    }
  }

  // ---------------------------------------------------------------------
  // The page component's state
  // ---------------------------------------------------------------------

  /** The loop has issued `requests`, and what is left of the run is the run from iteration `i` on. */
  ghost predicate LoopAt(attempt: Attempt, n: nat, run: Run, requests: seq<Request>, i: nat, acc: seq<Question>)
    requires n > 0
  {
    var rest := RunFrom(attempt, n, i, acc);
    run == Run(requests + rest.requests, rest.collected, rest.failure)
  }

  lemma LoopStepOk(attempt: Attempt, n: nat, run: Run, requests: seq<Request>, i: nat, acc: seq<Question>)
    requires n > 0 && i < BatchCount(n) && attempt(NextRequest(n, i, |acc|)).Ok?
    requires LoopAt(attempt, n, run, requests, i, acc)
    ensures LoopAt(attempt, n, run, requests + [NextRequest(n, i, |acc|)], i + 1, acc + attempt(NextRequest(n, i, |acc|)).value)
  {
    var req := NextRequest(n, i, |acc|);
    RunFromContinues(attempt, n, i, acc);
    var rest := RunFrom(attempt, n, i + 1, acc + attempt(req).value);
    assert (requests + [req]) + rest.requests == requests + ([req] + rest.requests);
  }

  lemma LoopStepFails(attempt: Attempt, n: nat, run: Run, requests: seq<Request>, i: nat, acc: seq<Question>)
    requires n > 0 && i < BatchCount(n) && attempt(NextRequest(n, i, |acc|)).Err?
    requires LoopAt(attempt, n, run, requests, i, acc)
    ensures run == Run(requests + [NextRequest(n, i, |acc|)], acc, Some(attempt(NextRequest(n, i, |acc|)).error))
    ensures Succeeded(run) == requests
  {
    RunFromFails(attempt, n, i, acc);
  }

  lemma LoopDone(attempt: Attempt, n: nat, run: Run, requests: seq<Request>, i: nat, acc: seq<Question>)
    requires n > 0 && i >= BatchCount(n)
    requires LoopAt(attempt, n, run, requests, i, acc)
    ensures run == Run(requests, acc, None) && Succeeded(run) == requests
  {
  }

  /** The state of one test-taking page, created once the gate has passed. */
  class Session {
    const questionCount: nat
    var started: bool
    var questions: seq<Question>
    var current: nat
    var answers: seq<Slot>
    var showScore: bool
    var isLoading: bool
    var error: Option<string>

    /** The current state as a value. */
    function Snapshot(): SessionState
      reads this
    {
      SessionState(started, questions, current, answers, showScore, isLoading, error)
    }

    /** The screen rendered for the current state. */
    function Screen(): View
      reads this
    {
      SelectView(Snapshot(), questionCount)
    }

    /** The Next/Submit button is enabled: it is disabled only while `answers[current] === null`. */
    function CanAdvance(): (enabled: bool)
      reads this
      ensures current >= |answers| ==> enabled
      ensures current < |answers| ==> (enabled <==> !answers[current].Null?)
    {
      !(current < |answers| && answers[current] == Null)
    }

    constructor (spec: TestSpec)
      requires spec.questionCount > 0
      ensures questionCount == spec.questionCount
      ensures Snapshot() == Initial(questionCount)
      ensures Screen() == StartCard
    {
      questionCount := spec.questionCount;
      started, questions, current := false, [], 0;
      answers := seq(spec.questionCount, _ => Null);
      showScore, isLoading, error := false, false, None;
    }

    /**
     * `fetchQuestions`: runs the batches one after another, publishing the
     * questions gathered so far after each success and stopping at the first
     * failure.
     */
    method FetchQuestions(g: Generator) returns (ghost requests: seq<Request>)
      requires questionCount > 0
      modifies this
      ensures Snapshot() == AfterFetch(old(Snapshot()), FetchRun(BatchAttempt(g), questionCount))
      ensures requests == FetchRun(BatchAttempt(g), questionCount).requests
    {
      var generateBatch := BatchAttempt(g);
      ghost var run := FetchRun(generateBatch, questionCount);
      ghost var before := questions;
      started := true;
      isLoading := true;
      error := None;

      var allQuestions: seq<Question> := [];
      var batchSize := BatchSize(questionCount);
      var batches := BatchCount(questionCount);
      var failure: Option<string> := None;
      requests := [];
      var i := 0;
      while i < batches
        invariant 0 <= i <= batches && |requests| == i
        invariant started && isLoading && error.None?
        invariant current == old(current) && answers == old(answers) && showScore == old(showScore)
        invariant questions == if i > 0 then allQuestions else before
        invariant LoopAt(generateBatch, questionCount, run, requests, i, allQuestions)
        invariant failure.None?
      {
        var remaining := questionCount - |allQuestions|;
        var currentBatchSize := if batchSize < remaining then batchSize else remaining;
        var request := Request(i * batchSize, currentBatchSize);
        assert request == NextRequest(questionCount, i, |allQuestions|);
        var result := generateBatch(request);
        if result.Err? {
          failure := Some(result.error);
          LoopStepFails(generateBatch, questionCount, run, requests, i, allQuestions);
          requests := requests + [request];
          break;
        }
        LoopStepOk(generateBatch, questionCount, run, requests, i, allQuestions);
        requests := requests + [request];
        allQuestions := allQuestions + result.value;
        questions := allQuestions;
        i := i + 1;
      }
      if failure.Some? {
        error := Some(FailurePrefix + failure.value);
      } else {
        LoopDone(generateBatch, questionCount, run, requests, i, allQuestions);
      }
      isLoading := false;
      assert AnySucceeded(run) <==> i > 0;
    }

    /** `selectOption(opt)`: records `opt` as the answer to the current question. */
    method SelectOption(opt: string)
      modifies this`answers
      ensures answers == WithAnswer(old(answers), current, opt)
      ensures CanAdvance()
    {
      var updated := SpreadAll(answers);
      if current < |updated| {
        updated := updated[current := Chosen(opt)];
      } else {
        updated := updated + seq(current - |updated|, _ => Hole) + [Chosen(opt)];
      }
      answers := updated;
    }

    /** `handleNext`: moves to the next question, or shows the score from the last one. */
    method HandleNext()
      requires CanAdvance()
      modifies this`current, this`showScore
      ensures old(current) + 1 < |questions| ==> current == old(current) + 1 && showScore == old(showScore)
      ensures old(current) + 1 >= |questions| ==> current == old(current) && showScore
      ensures old(current) < |questions| ==> current < |questions|
    {
      if current < |questions| - 1 {
        current := current + 1;
      } else {
        showScore := true;
      }
    }
  }
}
