# Capital-city quiz engine, modelled in Dafny

The quiz server keeps the **active sessions** of a geography quiz in memory: a map from session id to a
mutable session. The session holds its configuration (tier, question count, id, hints left), the fixed
question list, a cursor, the answers given so far and a running score. Five operations drive it:

- `quizCreate` validates the tier and the count, draws the questions and stores a session.
- `quizGetQuestion` shows the current question with its curiosity withheld.
- `quizSubmitAnswer` scores the current question and advances the cursor.
- `quizRequestHint` spends a hint to reveal the curiosity or to remove one wrong option.
- `quizGetResult` reports the totals of a finished quiz and deletes the session.

Questions come from `generateQuestions`:

- It takes the countries of the requested tier from the bank.
- It shuffles them with a Fisher-Yates `shuffleArray` and keeps the first `quantity`.
- For each country it adds up to three shuffled wrong capitals, then shuffles those options with the correct one.

On the client, a history store keeps the ten latest results, newest first. Its operations are
add, filter by tier, best score and clear.

Modules (one file each):

| file | module | models |
|---|---|---|
| `wrappers.dfy` | `Wrappers` | `Option`, `Result` |
| `seqs.dfy` | `Seqs` | `filter`, subsequence, distinctness, index-aware `map` |
| `shuffle.dfy` | `Shuffle` | `shuffleArray` as an array method, with its specification function `Shuffled` |
| `decimal.dfy` | `Decimal` | decimal rendering of numbers in template strings, the progress label `n de total` |
| `quiz_types.dfy` | `QuizTypes` | the two enums, the records and the error messages |
| `question_generator.dfy` | `QuestionGenerator` | `generateQuestions` |
| `scoring.dfy` | `Scoring` | `getPointsForDifficulty`, the answer record and the result totals |
| `quiz_engine.dfy` | `QuizEngine` | classes `QuizSession` and `QuizService` (the session map) with the five operations |
| `quiz_history.dfy` | `QuizHistory` | the history store as a class |

How the model represents the source:

- **Randomness.** Every `Math.random()` value is a parameter of type `Unit`, a real in `[0, 1)`.
  A shuffle receives one value per loop step, as a function of the step counter. `Draws` bundles the
  values `generateQuestions` consumes: one sequence for the tier shuffle, and two per question.
- **Session ids and the clock.** The fresh id `uuidv4()` returns is a parameter of `QuizCreate`, and it
  must not already be in use. The timestamp `new Date().toISOString()` is the `now` parameter of
  `QuizGetResult`.
- **Tier and hint kind.** Both arrive as their string labels, so the validation and the fallback for an
  unknown hint kind are both part of the model.
- **Errors.** Each thrown error is one constructor of `QuizError`.
- **Percentage.** It is kept in tenths of a percent as `Option<nat>`, and `None` stands for `NaN`.
  The double `(c / t) * 100` and `toFixed(1)` become exact rational arithmetic, rounding halves upward.
  The performance bands compare `100 * c` with `90 * t`, `70 * t` and `50 * t`. For the reachable
  question counts 5, 10, 15 and 20, `t` and `c` make both readings agree: only 0.5, 0.7 and 0.9 land
  exactly on a band boundary. 0.7 and 0.9 are not exact in binary, but their products with 100 round
  to exactly 70.0 and 90.0.

Behaviour of the code worth noting:

- **Hint on a finished quiz.** `quizRequestHint` has no completion check. On a finished session it
  reads `questions[index]`, which is `undefined`, and it still spends the hint. Reading a field of the
  missing question then throws, for both known kinds (`CurrentQuestionMissing`). An unknown kind
  returns `{}` (`NoHint`).
- **Options per question.** A question is guaranteed four distinct options when the bank has at least
  four countries with pairwise distinct capitals (`GeneratedQuestionsFourDistinctOptions`). Otherwise
  it may have fewer options, or repeated ones.
- **Which options an elimination removes.** It deletes every copy of the chosen wrong option, so the
  options shrink by that option's number of copies. Exactly one goes when the chosen option occurs
  once, in particular when the options are distinct.
- **No hints left.** The test is `dicas_disponiveis <= 0`. The session invariant keeps the count
  between 0 and 3, so it fails exactly when the count is 0.

## Model

| member | source | states |
|---|---|---|
| QuizTypes.ParseDifficulty | backend/src/services/quiz/quizLogic.ts:162-165 | a tier label is accepted exactly when it is one of `fácil`, `médio`, `difícil`, and then it names the tier with that label |
| QuizTypes.DifficultyLabelRoundTrip | backend/src/services/quiz/quizTypes.ts:13-17 | every tier's label is recognised as that tier, so the three labels are distinct |
| QuizTypes.ParseHintKind | backend/src/services/quiz/quizTypes.ts:23-26 | a hint label is recognised exactly when it is `eliminar_alternativa` or `mostrar_curiosidade`, and then it names the kind with that label |
| QuizTypes.HintLabelRoundTrip | backend/src/services/quiz/quizTypes.ts:23-26 | each hint kind's label is recognised as that kind |
| Scoring.GetPointsForDifficulty | backend/src/services/quiz/quizLogic.ts:58-69 | a correct answer is worth 5 points on easy, 10 on medium and 15 on hard |
| Scoring.PointsRiseWithDifficulty | backend/src/services/quiz/quizLogic.ts:58-69 | easy pays less than medium, which pays less than hard |
| Shuffle.RandomIndex | backend/src/services/quiz/quizLogic.ts:85 | `floor(r * n)` for `r` in [0, 1) is an index below `n` |
| Shuffle.RandomIndexReaches | backend/src/services/quiz/quizLogic.ts:85 | every index below `n` is reached by some draw, so no position is ruled out |
| Shuffle.Swap | backend/src/services/quiz/quizLogic.ts:86 | the destructuring swap exchanges entries `i` and `j` and leaves every other entry alone |
| Shuffle.SwapPartner | backend/src/services/quiz/quizLogic.ts:85 | the partner of step `i` is at most `i` |
| Shuffle.ShuffleFrom | backend/src/services/quiz/quizLogic.ts:84-87 | the remaining swap steps keep the length |
| Shuffle.Shuffled | backend/src/services/quiz/quizLogic.ts:82-89 | a shuffle keeps the length |
| Shuffle.SwapMultiset | backend/src/services/quiz/quizLogic.ts:86 | a swap keeps the same elements with the same multiplicities |
| Shuffle.ShuffleFromPermutes | backend/src/services/quiz/quizLogic.ts:84-87 | the remaining swap steps permute the sequence |
| Shuffle.ShuffledPermutes | backend/src/services/quiz/quizLogic.ts:82-89 | the shuffled copy is a permutation of the input, whatever the draws |
| Shuffle.ShuffleFromKeepsDistinctBy | backend/src/services/quiz/quizLogic.ts:84-87 | the swap steps keep the keys pairwise distinct when they were |
| Shuffle.ShuffledKeepsDistinctBy | backend/src/services/quiz/quizLogic.ts:82-89 | shuffling keeps pairwise distinct keys distinct |
| Shuffle.ShuffledKeepsDistinct | backend/src/services/quiz/quizLogic.ts:82-89 | shuffling keeps pairwise distinct elements distinct |
| Shuffle.ShuffleArray | backend/src/services/quiz/quizLogic.ts:82-89 | the in-place descending swap loop over a fresh array yields the specified shuffle of the input, a permutation of it |
| Decimal.NatToString | backend/src/services/quiz/quizLogic.ts:130 | a number renders as a non-empty string of decimal digits with no leading zero |
| Decimal.NatToStringRoundTrip | backend/src/services/quiz/quizLogic.ts:130 | reading the digits back gives the number |
| Decimal.NatToStringInjective | backend/src/services/quiz/quizLogic.ts:130 | distinct numbers render differently |
| Decimal.ProgressLabel | backend/src/services/quiz/quizLogic.ts:130 | the label `${n} de ${total}`; `ProgressLabelRoundTrip` proves it determines both numbers |
| Decimal.ProgressLabelRoundTrip | backend/src/services/quiz/quizLogic.ts:130 | the label `n de total` determines both `n` and `total` |
| QuestionGenerator.TierCountries | backend/src/services/quiz/quizLogic.ts:107 | every country kept is a bank country carrying the tier's label |
| QuestionGenerator.IncorrectCapitals | backend/src/services/quiz/quizLogic.ts:117-119 | the distractor candidates; `IncorrectCapitalsAreWrong` and `IncorrectCapitalsCount` prove what they are and how many |
| QuestionGenerator.QuestionOptions | backend/src/services/quiz/quizLogic.ts:117-122 | the options of one question; `QuestionOptionsContainCorrect` and `QuestionOptionsDistinct` prove their content, size and distinctness |
| QuestionGenerator.BuildQuestion | backend/src/services/quiz/quizLogic.ts:124-132 | the record pushed for one country; `GeneratedQuestionsSpec` proves each field of every generated question |
| QuestionGenerator.GeneratedQuestions | backend/src/services/quiz/quizLogic.ts:105-136 | what `generateQuestions` returns or throws; `GenerateQuestions` is proved equal to it and `GeneratedQuestionsSpec` characterises it |
| QuestionGenerator.Capitals | backend/src/services/quiz/quizLogic.ts:119 | one capital per country, in order |
| QuestionGenerator.SelectedCountries | backend/src/services/quiz/quizLogic.ts:113 | the slice has exactly `quantity` countries |
| QuestionGenerator.MakeQuestion | backend/src/services/quiz/quizLogic.ts:116-133 | the `forEach` callback, with its two shuffles, builds the question the specification assigns to position `index` |
| QuestionGenerator.GenerateQuestions | backend/src/services/quiz/quizLogic.ts:105-136 | the tier filter, the size check, the shuffle and the push loop produce the specified outcome |
| QuestionGenerator.IncorrectCapitalsAreWrong | backend/src/services/quiz/quizLogic.ts:117-119 | every distractor candidate differs from the correct capital and is the capital of a country in the bank |
| QuestionGenerator.IncorrectCapitalsCount | backend/src/services/quiz/quizLogic.ts:117-119 | with pairwise distinct capitals, a country in the bank has one distractor candidate per other country |
| QuestionGenerator.QuestionOptionsContainCorrect | backend/src/services/quiz/quizLogic.ts:117-122 | the options hold the correct capital, have `1 + min(3, candidates)` entries, and every other option is a distractor candidate |
| QuestionGenerator.QuestionOptionsDistinct | backend/src/services/quiz/quizLogic.ts:117-122 | with pairwise distinct capitals in the bank, the options are pairwise distinct |
| QuestionGenerator.SelectedCountriesFromTier | backend/src/services/quiz/quizLogic.ts:107-113 | the selected countries are drawn without repetition from the tier, each a bank country carrying the tier's label |
| QuestionGenerator.GeneratedQuestionsSpec | backend/src/services/quiz/quizLogic.ts:105-136 | it fails exactly when the tier has fewer than `quantity` countries; otherwise there are `quantity` questions, question `k` numbered `k + 1` for the `k`-th selected country, with its country, capital and curiosity, 30 seconds, label `k+1 de quantity`, and at most four options among which the correct capital sits and all others are wrong capitals |
| QuestionGenerator.GeneratedQuestionsDistinctCountries | backend/src/services/quiz/quizLogic.ts:113 | with distinct country names in the bank, no country is asked twice |
| QuestionGenerator.GeneratedQuestionsFourDistinctOptions | backend/src/services/quiz/quizLogic.ts:117-122 | with at least four countries and pairwise distinct capitals, every question has exactly four distinct options |
| Scoring.AnswerFor | backend/src/services/quiz/quizLogic.ts:252-263 | an answer is correct exactly when it equals the correct capital; it earns the tier's points when correct and 0 otherwise; the feedback is `Correto!` or names the correct capital |
| Scoring.TotalPoints | backend/src/services/quiz/quizLogic.ts:266 | the sum of the points of the answers, which the session invariant ties to the running score; `TotalPointsAppend` proves each push adds its points |
| Scoring.TotalPointsAppend | backend/src/services/quiz/quizLogic.ts:265-266 | pushing an answer adds its points to the sum of points |
| Scoring.CountCorrect | backend/src/services/quiz/quizLogic.ts:352 | the number of correct answers never exceeds the number of answers |
| Scoring.ScoreIsCorrectTimesPoints | backend/src/services/quiz/quizLogic.ts:254-266 | when each answer is scored by the tier's table, the score is the tier's points per correct answer |
| Scoring.PerformanceMessage | backend/src/services/quiz/quizLogic.ts:356-363 | each message is chosen exactly for its band (at least 90, 70 or 50 percent, else the lowest), and `NaN` falls to the lowest |
| Scoring.PerformanceMonotone | backend/src/services/quiz/quizLogic.ts:356-363 | more correct answers never earn a lower message |
| Scoring.PercentTenths | backend/src/services/quiz/quizLogic.ts:354-369 | the percentage is `NaN` exactly when there are no answers, otherwise it is the exact percentage rounded to one decimal, at most 100.0 |
| Scoring.EightOfTen | backend/src/services/quiz/quizLogic.ts:354-363 | eight correct out of ten is 80.0 percent and `Muito bom!` |
| Scoring.ComputeResult | backend/src/services/quiz/quizLogic.ts:352-372 | the result counts the correct answers, the wrong ones make up the rest, and the score, percentage, message and timestamp are as specified |
| QuizEngine.IncorrectOptions | backend/src/services/quiz/quizLogic.ts:311-313 | the wrong options are options of the question that differ from the correct capital |
| QuizEngine.OptionsAfterElimination | backend/src/services/quiz/quizLogic.ts:310-317 | the elimination keeps the order and the correct capital; when there is a wrong option it removes exactly one wrong value, all its copies and nothing else, one entry fewer when the options are distinct; with none it changes nothing |
| QuizEngine.FilterOutCount | backend/src/services/quiz/quizLogic.ts:315 | filtering out a value removes as many entries as it has copies |
| QuizEngine.EliminationLeavesThree | backend/src/services/quiz/quizLogic.ts:310-317 | on four distinct options an elimination leaves three, the correct capital among them |
| QuizEngine.EliminationKeepsOthers | backend/src/services/quiz/quizLogic.ts:315 | filtering out one value keeps every other option |
| QuizEngine.EliminationOfDistinct | backend/src/services/quiz/quizLogic.ts:315 | among distinct options, filtering out a present value removes one entry |
| QuizEngine.QuizSession.constructor | backend/src/services/quiz/quizLogic.ts:177-183 | a new session starts at question 0 with no answers and score 0 |
| QuizEngine.QuizSession.RecordAnswer | backend/src/services/quiz/quizLogic.ts:265-267 | the answer is appended, its points are added, the cursor advances, and the session invariant is kept |
| QuizEngine.QuizSession.SpendHint | backend/src/services/quiz/quizLogic.ts:302 | the hint count drops by one and nothing else changes |
| QuizEngine.QuizSession.ReplaceOptions | backend/src/services/quiz/quizLogic.ts:317 | only the options of the given question change, and the invariant is kept while the correct capital remains |
| QuizEngine.QuizService.constructor | backend/src/services/quiz/quizLogic.ts:24-25 | the service starts with no active session |
| QuizEngine.QuizService.QuizCreate | backend/src/services/quiz/quizLogic.ts:153-188 | an invalid count fails first, then an unknown tier; an unsatisfiable tier fails with no session stored; otherwise a fresh session with the generated questions, cursor 0, no answers, score 0 and 3 hints is stored under the new id, and every other session is kept |
| QuizEngine.QuizService.QuizGetQuestion | backend/src/services/quiz/quizLogic.ts:204-221 | an unknown id and a finished quiz fail; otherwise the current question comes back with its curiosity withheld and the correct capital among its options |
| QuizEngine.QuizService.QuizSubmitAnswer | backend/src/services/quiz/quizLogic.ts:238-270 | an unknown id and a finished quiz fail and change nothing; otherwise the answer to the current question is recorded, scored and returned, the cursor advances, and the service invariant holds |
| QuizEngine.QuizService.QuizRequestHint | backend/src/services/quiz/quizLogic.ts:287-325 | with no hints left it fails and changes nothing; otherwise exactly one hint is spent, a curiosity hint shows the curiosity or `''`, an elimination hint replaces the current options by the eliminated ones and returns them, an unknown kind returns nothing, and on a finished quiz both known kinds fail after spending the hint |
| QuizEngine.QuizService.QuizGetResult | backend/src/services/quiz/quizLogic.ts:341-377 | an unknown id or an unfinished quiz fails and keeps the map; otherwise the result of the session's answers is returned and the session is deleted; the result then has one answer per question, a score of the tier's points per correct answer, and a defined percentage |
| QuizEngine.ResultIsOneShot | backend/src/services/quiz/quizLogic.ts:374 | once a result has been fetched, fetching it again finds no session |
| QuizEngine.StartQuiz | backend/src/services/quiz/quizLogic.ts:167-187 | after a successful create the configuration has 3 hints and the requested count, and the first question is number 1 labelled `1 de <count>` |
| QuizHistory.Prepend | frontend/src/domain/quiz/stores/quizHistoryStore.ts:28 | the new record comes first, then the older records in order, cut to ten |
| QuizHistory.PrependTwice | frontend/src/domain/quiz/stores/quizHistoryStore.ts:28 | the later of two additions comes first; below the limit nothing is lost |
| QuizHistory.MaxScore | frontend/src/domain/quiz/stores/quizHistoryStore.ts:43 | the result is at least every score and equal to one of them |
| QuizHistory.QuizHistoryStore.constructor | frontend/src/domain/quiz/stores/quizHistoryStore.ts:24 | the history starts empty |
| QuizHistory.QuizHistoryStore.AddRecord | frontend/src/domain/quiz/stores/quizHistoryStore.ts:26-30 | the stored list becomes the prepended one, never longer than ten |
| QuizHistory.QuizHistoryStore.GetRecords | frontend/src/domain/quiz/stores/quizHistoryStore.ts:32-38 | no filter, an empty one or `todos` give every record; otherwise the records of that tier come back in their order, each as often as it is stored, and no other |
| QuizHistory.QuizHistoryStore.GetBestScore | frontend/src/domain/quiz/stores/quizHistoryStore.ts:40-44 | 0 for an empty history, otherwise a score that is recorded and is at least every recorded score |
| QuizHistory.QuizHistoryStore.ClearHistory | frontend/src/domain/quiz/stores/quizHistoryStore.ts:46 | the history becomes empty |
| QuizHistory.FilterSelectsTier | frontend/src/domain/quiz/stores/quizHistoryStore.ts:37 | the tier filter keeps each record of the tier as often as it occurs |
| QuizHistory.BestScoreAfterAdd | frontend/src/domain/quiz/stores/quizHistoryStore.ts:26-44 | below the limit, the best score after an addition is the new score when it is at least the old best, and the old best otherwise |

## Left out

- Reading `countries.json` (`loadCountriesData`): the country bank is the constructor argument `countriesData`.
- `uuidv4()`: the id is a parameter of `QuizCreate`, and it must not already be in use.
- `Math.random()`: each draw is a `Unit` parameter; the model says nothing about its distribution.
- `new Date().toISOString()`: the clock read is the `now` parameter.
- Floating-point arithmetic: the percentage and the bands use exact rationals, which agree with the double computation for the reachable question counts 5, 10, 15 and 20.
- Scoring.GetPointsForDifficulty: the `default: return 5` branch is not modelled, because the `Difficulty` datatype has exactly three tiers.
- `Promise`s and `async`: every operation is synchronous, and concurrent requests are not modelled.
- The HTTP controllers, their request validation, the React pages and hooks, and the zustand persistence to `localStorage` are not part of this model.
- Aliasing of the returned configuration: `quizCreate` returns the session's own configuration object, so each later `dicas_disponiveis--` is visible through it. The model returns a copy, so it does not capture this.
- Shuffle.ShuffleFrom and Shuffle.Shuffled: their own contracts state only the length. The permutation and distinctness facts are the separate lemmas listed above.
- QuizHistory.BestScoreAfterAdd: stated only while the history is below ten records. When the oldest record is dropped, the best score may fall.
- The curiosity of a generated question is always present, because every country in the bank has one. Only `quizGetQuestion` withholds it.
