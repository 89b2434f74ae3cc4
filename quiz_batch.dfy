/**
 * One request to the question generator and the chain of checks applied to
 * its reply (`generateQuestionsBatch` in src/pages/testing.tsx).
 *
 * The generative-AI client and `JSON.parse` cannot be seen from here: the
 * settled reply of the client is a `Reply` value and the parser is a function
 * handed in by the caller. The regular expression that cuts the array literal
 * out of the reply text is modelled exactly.
 */
module QuizBatch {
  import opened Wrappers
  import opened Text

  /** A generated question; `correct` is None when the parsed object has no `correct` key. */
  datatype Question = Question(
    question: string,
    options: seq<(string, string)>,
    correct: Option<string>,
    explanation: string)

  /** What the race between the generator call and the 30-second timer settles to. */
  datatype Reply =
    | TimerFired                                // the 30-second timer won the race
    | Rejected(message: string)                 // the call or `text()` rejected
    | Settled(hasResponse: bool, text: string)  // `result && result.response`, and the awaited text

  /** What `JSON.parse` makes of the matched array literal. */
  datatype Parsed =
    | SyntaxError(message: string)
    | NotAnArray
    | ArrayOf(items: seq<Question>)

  const KeyMissing := "API key is missing"
  const InvalidResponse := "Invalid API response"
  const EmptyResponse := "Empty response from API"
  const InvalidFormat := "Invalid response format from API"
  const NoQuestions := "No questions generated"
  const TimedOut := "API call timed out after 30 seconds"

  // ---------------------------------------------------------------------
  // The regular expression /\[\s*{[\s\S]*}\s*]/
  // ---------------------------------------------------------------------

  /** The text `text[i..j]` is a whole match of the regular expression. */
  ghost predicate RegexMatch(text: string, i: int, j: int) {
    && 0 <= i < j <= |text|
    && text[i] == '[' && text[j - 1] == ']'
    && exists p, q :: BracesAt(text, i, j, p, q)
  }

  /** `{` at `p` after only whitespace since `[` at `i`, and `}` at `q` followed by only whitespace up to `]` at `j - 1`. */
  ghost predicate BracesAt(text: string, i: int, j: int, p: int, q: int) {
    && 0 <= i < p < q < j - 1 && j <= |text|
    && AllWhitespace(text[i + 1..p]) && text[p] == '{'
    && text[q] == '}' && AllWhitespace(text[q + 1..j - 1])
  }

  /** A `[` at `i` whose first non-whitespace successor is `{`. */
  predicate IsOpenAt(text: string, i: nat) {
    && i < |text| && text[i] == '['
    && SkipWhitespace(text, i + 1) < |text| && text[SkipWhitespace(text, i + 1)] == '{'
  }

  /** A `}` at `q` whose first non-whitespace successor is `]`. */
  predicate IsCloseAt(text: string, q: nat) {
    && q < |text| && text[q] == '}'
    && SkipWhitespace(text, q + 1) < |text| && text[SkipWhitespace(text, q + 1)] == ']'
  }

  /** The last closing position below `hi`. */
  function LastClose(text: string, hi: nat): (r: Option<nat>)
    requires hi <= |text|
    ensures r.Some? ==> r.value < hi && IsCloseAt(text, r.value)
    ensures r.Some? ==> forall q :: r.value < q < hi ==> !IsCloseAt(text, q)
    ensures r.None? ==> forall q :: 0 <= q < hi ==> !IsCloseAt(text, q)
  {
    if hi == 0 then None
    else if IsCloseAt(text, hi - 1) then Some(hi - 1)
    else LastClose(text, hi - 1)
  }

  /** The first opening position at or after `lo` whose `{` lies before `q`. */
  function FirstOpen(text: string, lo: nat, q: nat): (r: Option<nat>)
    requires lo <= |text|
    ensures r.Some? ==> lo <= r.value && IsOpenAt(text, r.value) && SkipWhitespace(text, r.value + 1) < q
    ensures r.Some? ==> forall i :: lo <= i < r.value && IsOpenAt(text, i) ==> SkipWhitespace(text, i + 1) >= q
    ensures r.None? ==> forall i :: lo <= i < |text| && IsOpenAt(text, i) ==> SkipWhitespace(text, i + 1) >= q
    decreases |text| - lo
  {
    if lo == |text| then None
    else if IsOpenAt(text, lo) && SkipWhitespace(text, lo + 1) < q then Some(lo)
    else FirstOpen(text, lo + 1, q)
  }

  /** `text.match(/\[\s*{[\s\S]*}\s*]/)`: the start and end of the match, if any. */
  function ArrayMatch(text: string): (r: Option<(nat, nat)>)
    ensures r.Some? ==> RegexMatch(text, r.value.0, r.value.1)
  {
    match LastClose(text, |text|)
    case None => None
    case Some(q) =>
      match FirstOpen(text, 0, q)
      case None => None
      case Some(i) =>
        OpenCloseMatch(text, i, q);
        Some((i, SkipWhitespace(text, q + 1) + 1))
  }

  /** An opening position whose `{` lies before a closing position delimits a whole match. */
  lemma OpenCloseMatch(text: string, i: nat, q: nat)
    requires IsOpenAt(text, i) && IsCloseAt(text, q) && SkipWhitespace(text, i + 1) < q
    ensures RegexMatch(text, i, SkipWhitespace(text, q + 1) + 1)
  {
    var p := SkipWhitespace(text, i + 1);
    var j := SkipWhitespace(text, q + 1) + 1;
    var gap1, gap2 := text[i + 1..p], text[q + 1..j - 1];
    assert AllWhitespace(gap1) by {
      forall k | 0 <= k < |gap1| ensures IsWhitespace(gap1[k]) { assert gap1[k] == text[i + 1 + k]; }
    }
    assert AllWhitespace(gap2) by {
      forall k | 0 <= k < |gap2| ensures IsWhitespace(gap2[k]) { assert gap2[k] == text[q + 1 + k]; }
    }
    assert BracesAt(text, i, j, p, q);
  }

  /** Any whole match is built from an opening and a closing position, the `{` before the `}`. */
  lemma MatchParts(text: string, i: int, j: int) returns (q: nat)
    requires RegexMatch(text, i, j)
    ensures IsOpenAt(text, i) && IsCloseAt(text, q)
    ensures SkipWhitespace(text, i + 1) < q && j == SkipWhitespace(text, q + 1) + 1
  {
    var p, q' :| BracesAt(text, i, j, p, q');
    q := q';
    assert forall m :: i + 1 <= m < p ==> IsWhitespace(text[m]) by {
      forall m | i + 1 <= m < p ensures IsWhitespace(text[m]) { assert text[i + 1..p][m - (i + 1)] == text[m]; }
    }
    assert forall m :: q + 1 <= m < j - 1 ==> IsWhitespace(text[m]) by {
      forall m | q + 1 <= m < j - 1 ensures IsWhitespace(text[m]) { assert text[q + 1..j - 1][m - (q + 1)] == text[m]; }
    }
  }

  /** Skipping whitespace is monotone in the starting index. */
  lemma SkipWhitespaceMonotone(text: string, k1: nat, k2: nat)
    requires k1 <= k2 <= |text|
    ensures SkipWhitespace(text, k1) <= SkipWhitespace(text, k2)
  {
  }

  /** The match found is the one JavaScript reports: leftmost start, and the longest (greedy) match from it. */
  lemma {:induction false} ArrayMatchLeftmostLongest(text: string)
    ensures ArrayMatch(text).Some? ==>
              && (forall i', j' :: 0 <= i' < ArrayMatch(text).value.0 ==> !RegexMatch(text, i', j'))
              && (forall j' :: RegexMatch(text, ArrayMatch(text).value.0, j') ==> j' <= ArrayMatch(text).value.1)
    ensures ArrayMatch(text).None? ==> forall i', j' :: !RegexMatch(text, i', j')
  {
    var last := LastClose(text, |text|);
    forall i', j' | RegexMatch(text, i', j')
      ensures last.Some? && last.value >= SkipWhitespace(text, i' + 1)
      ensures ArrayMatch(text).Some? && ArrayMatch(text).value.0 <= i'
      ensures ArrayMatch(text).value.0 == i' ==> j' <= ArrayMatch(text).value.1
    {
      var q' := MatchParts(text, i', j');
      var q := last.value;
      var first := FirstOpen(text, 0, q);
      assert first.Some? && first.value <= i';
      SkipWhitespaceMonotone(text, q' + 1, q + 1);
    }
  }

  /** The matched array literal. */
  function Matched(text: string): (r: string)
    requires ArrayMatch(text).Some?
    ensures |r| >= 4 && r[0] == '[' && r[|r| - 1] == ']'
  {
    text[ArrayMatch(text).value.0..ArrayMatch(text).value.1]
  }

  // ---------------------------------------------------------------------
  // The validation chain
  // ---------------------------------------------------------------------

  /**
   * `generateQuestionsBatch`: the checks of one reply, in the order the page
   * applies them, each failing with its own message.
   */
  function GenerateBatch(apiKey: string, reply: Reply, parse: string -> Parsed): (r: Result<seq<Question>, string>)
    ensures apiKey == "" ==> r == Err(KeyMissing)
    ensures apiKey != "" && reply.TimerFired? ==> r == Err(TimedOut)
    ensures apiKey != "" && reply.Rejected? ==> r == Err(reply.message)
    ensures apiKey != "" && reply.Settled? ==>
              && (!reply.hasResponse ==> r == Err(InvalidResponse))
              && (reply.hasResponse && reply.text == "" ==> r == Err(EmptyResponse))
              && (reply.hasResponse && reply.text != "" && ArrayMatch(reply.text).None? ==> r == Err(InvalidFormat))
    ensures apiKey != "" && reply.Settled? && reply.hasResponse && reply.text != "" && ArrayMatch(reply.text).Some? ==>
              var parsed := parse(Matched(reply.text));
              && (parsed.SyntaxError? ==> r == Err(parsed.message))
              && (parsed.NotAnArray? || parsed == ArrayOf([]) ==> r == Err(NoQuestions))
    ensures r.Ok? <==>
              && apiKey != "" && reply.Settled? && reply.hasResponse && reply.text != ""
              && ArrayMatch(reply.text).Some?
              && parse(Matched(reply.text)).ArrayOf? && parse(Matched(reply.text)).items != []
    ensures r.Ok? ==> r.value != [] && r.value == parse(Matched(reply.text)).items
  {
    if apiKey == "" then Err(KeyMissing)
    else match reply
      case TimerFired => Err(TimedOut)
      case Rejected(message) => Err(message)
      case Settled(hasResponse, text) =>
        if !hasResponse then Err(InvalidResponse)
        else if text == "" then Err(EmptyResponse)
        else if ArrayMatch(text).None? then Err(InvalidFormat)
        else match parse(Matched(text))
          case SyntaxError(message) => Err(message)
          case NotAnArray => Err(NoQuestions)
          case ArrayOf(items) => if items == [] then Err(NoQuestions) else Ok(items)
  }

  /** A reply whose text holds no array literal at all never yields questions. */
  lemma NoArrayLiteralNoQuestions(apiKey: string, text: string, parse: string -> Parsed)
    requires apiKey != "" && text != ""
    requires forall i, j :: !RegexMatch(text, i, j)
    ensures GenerateBatch(apiKey, Settled(true, text), parse) == Err(InvalidFormat)
  {
  }

  /** Questions are only ever taken from a leftmost-longest array literal of the reply text. */
  lemma QuestionsComeFromArrayLiteral(apiKey: string, reply: Reply, parse: string -> Parsed)
    requires GenerateBatch(apiKey, reply, parse).Ok?
    ensures reply.Settled?
    ensures exists i, j :: RegexMatch(reply.text, i, j)
                        && parse(reply.text[i..j]) == ArrayOf(GenerateBatch(apiKey, reply, parse).value)
  {
    var (i, j) := ArrayMatch(reply.text).value;
    assert RegexMatch(reply.text, i, j);
  }
}
