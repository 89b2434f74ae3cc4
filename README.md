# SkillSwap pages: a Dafny model

This project models the logic of four pages of the SkillSwap web application.

- **The test-taking page** (`src/pages/testing.tsx`).
  - An entry gate checks the test description handed over by navigation.
  - Questions are generated in batches of at most three, one request after another. The loop stops at the first failure.
  - Each reply of the question generator goes through a chain of checks, each with its own error message.
  - The page records answers, advances through the questions and computes the score.
  - It chooses one of five screens from its state.
- **The test catalogue** (`src/pages/Test.tsx`).
  - A case-insensitive search is combined with a level filter.
  - A search that finds nothing opens a "request this test" dialog.
  - Completed scores get colour bands, and levels get badge variants.
- **The skill marketplace** (`src/pages/Marketplace.tsx`).
  - Listings are filtered by search text, category, level and mode. Each select box has an "All …" sentinel.
  - The "Verified Only" and "Recommended" tabs filter further.
  - A listing card shows a row of five stars.
- **The profile page** (`src/pages/Profile.tsx`). An edit mode is toggled by a button. While it is on, the name, the role and the skill list can be edited.

Modules:

- `Wrappers`: Option and Result.
- `Text`: JavaScript's `toLowerCase` on ASCII, `includes`, `trim` and the `\s` whitespace class.
- `Seqs`: `Array.prototype.filter` and order preservation.
- `QuizBatch`: one generator reply and its checks, including the regular expression `/\[\s*{[\s\S]*}\s*]/`, modelled exactly as leftmost-longest matching.
- `QuizFetch`: the batch plan and the batch loop as a specification function.
- `QuizSession`: the gate, the answers and the score, the screen choice, and the page state as a class.
- `TestCatalogue`, `Marketplace` and `Profile`.

State that the pages update in place is modelled as classes whose methods change their fields:

- `QuizSession.Session`
- `TestCatalogue.CataloguePage`
- `Profile.ProfileEditor`

The filters, the checks and the screen choice are functions.

The question generator is a parameter, `QuizFetch.Generator`. It has three parts:

- the API key;
- `call`, a function from a request's start index and count to a `QuizBatch.Reply`: the 30-second timer won, the call rejected with a message, or the call settled with or without a response and its text;
- `parse`, which stands for `JSON.parse` of the matched text.

The page ignores the start index when it builds the prompt. The model still passes it, so that two calls asking for the same count may get different replies.

Behaviours of the code worth noting, all modelled as written:

- The constant batch size 5 (`testing.tsx:11`) is shadowed inside the loop by `min(3, questionCount)`.
- The `!questionCount` test inside `fetchQuestions` (`testing.tsx:137-139`) can never fire after the entry gate.
- `answers` can become longer than `questionCount`. `selectOption` writes at `current`, and `current` ranges over the questions actually received, which can outnumber those asked for. Writing past the end leaves holes.
- `[...answers]` turns holes into `undefined`. `reduce` skips holes but not `undefined`, and `undefined === questions[idx]?.correct` holds where a question has no `correct` key. `QuizSession.Hit` models all of this.
- "Try Again" re-runs `fetchQuestions` without clearing `questions` or the answers. Until the first batch of the retry succeeds, the previous questions stay in place.
- A negative `questionCount` passes the gate (it is truthy), but `Array(questionCount)` then throws a range error. So does a count of 2^32 or more, which is not a valid array length (`QuizSession.Entry.BadQuestionCount`).
- "Cancel" on the profile page does not undo edits. It only leaves edit mode, like "Save Changes".

## Model

| member | source | states |
|---|---|---|
| QuizSession.MissingFields | src/pages/testing.tsx:40-56 | the "Missing fields" list names exactly the fields that are falsy, in display order |
| QuizSession.Enter | src/pages/testing.tsx:18-74 | no state gives "No test data"; a falsy field gives the missing-fields error with that list; a session starts exactly when nothing is missing and the count is a valid array length above 0 (below 2^32); with nothing missing, a negative or too large count makes `Array(questionCount)` throw; a started session carries the state's values |
| QuizSession.Initial | src/pages/testing.tsx:71-77 | a new session is not started, has no questions, is at question 0, has no error, is neither loading nor showing the score, and holds `questionCount` null answers |
| QuizSession.Session.constructor | src/pages/testing.tsx:71-77 | the page state starts as `Initial(questionCount)`, on the start card |
| QuizBatch.ArrayMatch | src/pages/testing.tsx:110-114 | a reported match is a whole match of `/\[\s*{[\s\S]*}\s*]/`: `[`, whitespace, `{`, anything, `}`, whitespace, `]` |
| QuizBatch.ArrayMatchLeftmostLongest | src/pages/testing.tsx:110 | the match reported is the leftmost one and, from that start, the longest; no match is reported only when the text has none |
| QuizBatch.GenerateBatch | src/pages/testing.tsx:79-128 | the checks fail in source order, each with its own message: "API key is missing", the timeout message, the rejection's message, "Invalid API response", "Empty response from API", "Invalid response format from API", the parse error's message, and "No questions generated" for a non-array or an empty array; a batch succeeds exactly when every check passes, and then returns the parsed non-empty array of the matched text |
| QuizBatch.NoArrayLiteralNoQuestions | src/pages/testing.tsx:110-114 | a reply whose text contains no array literal fails with "Invalid response format from API" |
| QuizBatch.QuestionsComeFromArrayLiteral | src/pages/testing.tsx:110-127 | the questions of a successful batch are the parse of a whole regex match inside the reply text |
| QuizFetch.BatchSize | src/pages/testing.tsx:142 | the batch size is between 1 and 3, at most the count, and 3 unless the count is smaller |
| QuizFetch.BatchCount | src/pages/testing.tsx:143 | at least one batch is planned |
| QuizFetch.BatchCountIsCeiling | src/pages/testing.tsx:143 | the batch count is `ceil(n / size)`: the fewest batches of `size` that hold `n` questions |
| QuizFetch.FetchRunShape | src/pages/testing.tsx:141-159 | between one request and the batch count; every request before the last succeeded; a run without failure issues every batch; request k asks for `min(size, n - collected)` at `k * size`; the questions collected are those of the successful requests, in order |
| QuizFetch.FetchRunExact | src/pages/testing.tsx:141-159 | when the generator returns exactly the count asked for, there is no failure, every request asks for 1 to 3 questions, the counts add up to n, and n questions are collected |
| QuizFetch.FetchRun | src/pages/testing.tsx:141-159 | the loop issues between one request and the batch count, and every batch when none fails |
| QuizSession.AfterFetch | src/pages/testing.tsx:130-166 | after a fetch the session is started and not loading; the questions are those collected when some batch succeeded and are unchanged otherwise; the error is set exactly when a batch failed, to "Failed to generate questions: " plus its message; the position, the answers and the score flag are kept |
| QuizSession.Session.FetchQuestions | src/pages/testing.tsx:130-166 | the loop issues exactly the requests of `FetchRun`; afterwards the session is started and not loading, the questions are those collected if some batch succeeded (and unchanged otherwise), and the error is "Failed to generate questions: " plus the first failure's message, or none |
| QuizSession.FetchOutcome | src/pages/testing.tsx:130-166 | after a fetch, no error means all batches succeeded and the questions are all those collected; an error names the first failure; with an exact generator the session holds `questionCount` questions and, unless the score is showing, shows the question at `current` |
| QuizSession.WithAnswer | src/pages/testing.tsx:168-172 | the answer at the index becomes the chosen key; other entries keep their values, except that holes become `undefined`; the length is unchanged inside the array, and a write past the end adds holes up to the index |
| QuizSession.LastWriteWins | src/pages/testing.tsx:168-172 | two selections for the same question leave the second; inside the array the result equals a single selection |
| QuizSession.Session.CanAdvance | src/pages/testing.tsx:360 | the Next button is disabled exactly when the answer at `current` is null; past the end of the answers it is enabled |
| QuizSession.Session.SelectOption | src/pages/testing.tsx:168-172 | the answers become `WithAnswer(answers, current, opt)` and the Next button is then enabled |
| QuizSession.Session.HandleNext | src/pages/testing.tsx:174-180 | callable only while the Next button is enabled; before the last question, moves on by one; on the last, shows the score and keeps `current`; `current` stays below the number of questions |
| QuizSession.NoneMissingIff | src/pages/testing.tsx:40 | nothing is missing exactly when every field is truthy |
| QuizSession.Hit | src/pages/testing.tsx:183 | `ans === questions[idx]?.correct`: only chosen keys and `undefined` can score; a chosen key scores exactly when there is a question at its index and the key equals that question's `correct`, so a chosen key past the last question never scores; `undefined` scores exactly past the last question or where the question has no `correct` |
| QuizSession.Score | src/pages/testing.tsx:182-184 | the score is at most the number of answers and is 0 without questions |
| QuizSession.ScoreIsHitCount | src/pages/testing.tsx:182-184 | with questions, the score is the number of indices whose answer equals the question's `correct` |
| QuizSession.ScoreBounds | src/pages/testing.tsx:182-184 | null answers never score; unless an `undefined` answer lies beyond the last question, the score is at most the number of questions |
| QuizSession.SelectChangesScoreByAtMostOne | src/pages/testing.tsx:168-184 | without holes in the answers, one selection, inside the answers or past their end, changes the score by at most one |
| QuizSession.SelectView | src/pages/testing.tsx:186-330 | start card exactly when not started; the generating card, showing the questions received out of `questionCount`, exactly while loading or without questions; the error card with its message exactly when loaded with questions and an error; the score card, showing `Score(answers, questions)` out of the number of questions, exactly when loaded with questions, without error and with the score shown; otherwise the question card for `current` out of the number of questions |
| QuizSession.SelectViewIntended | src/pages/testing.tsx:186-330 | the screen choice with the error checked before the wait for questions: a session that has finished loading with an error always shows it |
| QuizSession.FirstBatchFailureHidesError | src/pages/testing.tsx:213-288 | as written, a fresh session whose first batch fails has its error set but stays on the generating card |
| QuizSession.FirstBatchFailureShownWhenIntended | src/pages/testing.tsx:213-288 | with the intended order, the same failure shows the error card with its message |
| Text.ToLower | src/pages/Test.tsx:105-106 | the lower-cased string has the same length, and each character is lower-cased |
| Seqs.Filter | src/pages/Marketplace.tsx:279-297 | `filter` keeps an order-preserving subsequence: every element kept passes the predicate, and every element that passes is kept |
| Seqs.FilterCounts | src/pages/Marketplace.tsx:279-297 | `filter` keeps each passing element exactly as many times as it occurs in the input, and no other element |
| Text.Includes | src/pages/Test.tsx:105-106 | `s.includes(sub)` holds exactly when `sub` occurs in `s` at some index |
| Text.Trim | src/pages/Test.tsx:114 | the trimmed query is the query without leading and trailing whitespace, and starts and ends with non-whitespace |
| Text.TrimEmptyIff | src/pages/Test.tsx:114 | the trimmed query is empty exactly when the query is all whitespace |
| TestCatalogue.FilteredTests | src/pages/Test.tsx:104-110 | the tests shown are an order-preserving subsequence of the tests, each shown test matches the search and the level, every matching test is shown as often as it occurs in the tests, and none is shown exactly when none matches |
| TestCatalogue.EmptySearchShowsAll | src/pages/Test.tsx:104-110 | with an empty query and level "all", every test is shown |
| TestCatalogue.SearchIgnoresQueryCase | src/pages/Test.tsx:105-106 | lower-casing the query does not change the result |
| TestCatalogue.LevelNarrowsAll | src/pages/Test.tsx:107 | choosing a level keeps a subsequence of the tests shown under "all" |
| TestCatalogue.SearchOpensDialogIff | src/pages/Test.tsx:112-118 | the search opens the dialog exactly when the query is not blank and no test matches it at the chosen level |
| TestCatalogue.CataloguePage.constructor | src/pages/Test.tsx:98-110 | the page filters the catalogue's four tests; empty query, level "all", dialog closed, no requested skill (`EmptySearchShowsAll` then lists every test) |
| TestCatalogue.CataloguePage.SetSearchQuery | src/pages/Test.tsx:165 | typing sets the query |
| TestCatalogue.CataloguePage.SetLevelFilter | src/pages/Test.tsx:169 | the select sets the level filter |
| TestCatalogue.CataloguePage.HandleSearch | src/pages/Test.tsx:112-118 | when the dialog condition holds, the requested skill is the query as typed and the dialog is open; otherwise neither changes |
| TestCatalogue.CataloguePage.OpenRequestDialog | src/pages/Test.tsx:230-235 | "Request Test", shown only while no test is listed, opens the dialog |
| TestCatalogue.CataloguePage.ClearSearch | src/pages/Test.tsx:236 | "Clear Search" empties the query; at level "all" every test is then shown |
| TestCatalogue.CataloguePage.HandleRequestTest | src/pages/Test.tsx:120-128 | closes the dialog, keeps the requested skill, and returns the confirmation naming it |
| TestCatalogue.CataloguePage.HandleAddUnverified | src/pages/Test.tsx:130-138 | closes the dialog, keeps the requested skill, and returns the confirmation naming it |
| TestCatalogue.ScoreBand | src/pages/Test.tsx:325-327 | green from 80, amber from 60 to 79, red below 60: exactly one band per score |
| TestCatalogue.BandsAgreeAndAreMonotone | src/pages/Test.tsx:319-327 | the check icon appears exactly with the green band, and a higher score never gets a lower band |
| TestCatalogue.LevelBadge | src/pages/Test.tsx:195-199 | Beginner is outline, Intermediate is secondary, every other level is default |
| Marketplace.FilteredListings | src/pages/Marketplace.tsx:279-297 | the listings shown are an order-preserving subsequence, each passes the search and the three selections, and every listing that passes is shown as often as it occurs in the listings |
| Marketplace.VerifiedTab | src/pages/Marketplace.tsx:400-401 | exactly the filtered listings of verified users, in order and with their multiplicities |
| Marketplace.RecommendedTab | src/pages/Marketplace.tsx:410-411 | exactly the filtered listings rated 4.8 or more, in order and with their multiplicities |
| Marketplace.VerifiedTabIsOneFilter | src/pages/Marketplace.tsx:400-401 | the verified tab is one filter over all listings: passes every filter and is verified |
| Marketplace.RecommendedTabIsOneFilter | src/pages/Marketplace.tsx:410-411 | the recommended tab is one filter over all listings: passes every filter and is rated 4.8 or more |
| Marketplace.NoFiltersShowAll | src/pages/Marketplace.tsx:273-297 | with the initial empty search and the three sentinels, every listing is shown |
| Marketplace.SentinelsWiden | src/pages/Marketplace.tsx:284-294 | resetting any select box to its "All …" sentinel keeps every listing shown before, in order |
| Marketplace.ListingLevelsAndModesOffered | src/pages/Marketplace.tsx:149-152 | every listing's level and mode can be chosen in the level and mode select boxes |
| Marketplace.ProgrammingListingNeedsAllCategories | src/pages/Marketplace.tsx:134-146 | the JavaScript listing's category is not among the choices, so any chosen category other than "All Categories" hides it |
| Marketplace.Stars | src/pages/Marketplace.tsx:174-183 | a card has five stars |
| Marketplace.FilledStarCount | src/pages/Marketplace.tsx:174-183 | exactly `floor(rating)` stars are filled, clamped to 0..5 |
| Profile.ProfileEditor.constructor | src/pages/Profile.tsx:20-25 | not editing; John Doe, Web Developer & Designer, four skills |
| Profile.ProfileEditor.ToggleEdit | src/pages/Profile.tsx:37 | flips the edit mode and leaves the profile unchanged |
| Profile.ProfileEditor.EditName | src/pages/Profile.tsx:71 | replaces the name only |
| Profile.ProfileEditor.EditRole | src/pages/Profile.tsx:77 | replaces the role only |
| Profile.ProfileEditor.Cancel | src/pages/Profile.tsx:84 | leaves edit mode and keeps the edited profile |
| Profile.ProfileEditor.Save | src/pages/Profile.tsx:91 | leaves edit mode and keeps the edited profile |
| Profile.ProfileEditor.AddSkill | src/pages/Profile.tsx:131-141 | available only while editing; appends "New Skill" after the unchanged earlier skills, and keeps name and role |
| Profile.ProfileEditor.EditSkill | src/pages/Profile.tsx:157-163 | available only while editing; replaces skill `index` only, and keeps the length, the other skills, the name and the role |

## Left out

- The generative-AI client, its model name, the prompt text and the 30-second timer are not modelled. The reply of each call is an input (`QuizBatch.Reply`), so the loser of the timeout race and its late resolution are not modelled either.
- `JSON.parse` and the shape of the parsed objects are an input function. A parsed question whose `correct` is JSON `null` is not distinguished from one without `correct`.
- The regular expression is modelled only to the extent of the match it reports: its start and end. There is no general regex engine.
- `toLowerCase` is modelled on ASCII letters only. Case mappings outside ASCII, such as accented letters, are not modelled.
- A `questionCount` that is not an integer (a fraction, a numeric string) is not modelled. The count is an integer or absent.
- Progress percentages are float divisions. The generating card and the question card carry the integer pair instead.
- Ratings are in tenths of a star. Every rating the marketplace holds is a multiple of 0.1.
- The "In Progress" and "Completed" tabs of the catalogue only display constant data and are not modelled, apart from the score bands.
- Toasts are returned as values. They are not displayed, and their 5-second duration is not modelled.
- The following are not part of this model, because they only simulate requests, use libraries not visible here, or render constant data:
  - the rendering itself, animations and "Go Back" (`window.history`);
  - the other pages and components: log-in, sign-up, authentication, schedule, matches, admin, navigation bar, footer and the landing sections.
- React's hook-ordering rule is not modelled: the page declares its state hooks after its early returns.
- The state updates of one event are applied at once. React's batching of renders is not modelled.
- QuizSession.ScoreBounds: the bound by the number of questions holds only when no `undefined` answer lies beyond the last question. The page reaches no such state: answers are given only after a fetch without error, and no later fetch follows one. This is not proved as an invariant of `Session`.
- QuizSession.SelectChangesScoreByAtMostOne: stated only for answers without holes. Copying turns every hole into `undefined`, which can change several hits at once.
- Profile.ProfileEditor.EditName, EditRole, EditSkill, AddSkill, Cancel and Save require edit mode: their controls are rendered only while `isEditing` holds.
- QuizSession.Session.HandleNext requires the Next button to be enabled (`CanAdvance`), because `disabled` at `testing.tsx:360` keeps it from being clicked while the current answer is null.

## Findings

| source | as written | input that shows it | evidently intended | confidence | as-written member | corrected member |
|---|---|---|---|---|---|---|
| src/pages/testing.tsx:213-288 | the generating card is chosen while `questions` is empty, before the error is checked | a fresh session whose first batch fails, e.g. with "API key is missing": `isLoading` is false, `questions` is empty and `error` is set, so the page stays on "Generating Questions" and "Try Again" is never offered | a failed generation shows the error card with its message and "Try Again" | not executed | QuizSession.FirstBatchFailureHidesError | QuizSession.FirstBatchFailureShownWhenIntended |
