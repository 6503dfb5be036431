# Quiz "Sou da Banda" — a verified model of the content and game core

"Sou da Banda" is a mobile quiz about Angola. Its content (an app config, the categories and
the quizzes) is published as JSON and downloaded on first start. It is cached on the device
and refreshed when the remote config reports a new version or a newer timestamp. A game round
shows ten shuffled questions with a 30-second clock each, and the score rewards streaks.
Player profiles live in a remote `profiles` table and are addressed by an id cached on the device.

This project models that core in Dafny and proves what it promises:

- `quiz_types.dfy` — the records: quizzes in the current format, questions in the legacy
  format, the app config, the sync status, JavaScript primitive answers and `String()` of them.
- `quiz_adapter.dfy` — conversion of a quiz to a legacy question, branch by quiz kind.
- `cache.dfy` — the device cache: five keys, typed save and get operations, `clearAll` and
  `hasCachedData`, as a class over a `map` from key to stored value.
- `update_service.dfy` — the sync coordinator, as a class. It covers the update decision,
  the all-or-nothing download, check-and-update, initialisation, the single auto-update timer
  and the listener set. Each step's effect on the store is specified by a pure function,
  and the class methods are proved equal to those functions.
- `questions_service.dfy` — queries over the bundled question bank: by category, a random
  subset, by id, and the distinct categories in first-occurrence order.
- `user_service.dfy` — the profile service: id resolution with its in-memory cache, the
  score and average-time update, the max-streak update and the rank position.
- `quiz_renderer.dfy` — the dynamic quiz renderer. It dispatches on quiz kind, checks answers
  (with `trim`/`toLowerCase` normalisation for text answers) and submits at most once.
- `game_round.dfy` — the game screen state: answering, the countdown, moving on, and the
  streak-weighted score, with its closed form and upper bound.
- `wrappers.dfy` — `Option`, a pass/fail `Outcome`, and the duplicate-free predicate shared by the listener set and the category list.

Conventions of the model:

- Network fetches, storage failures and remote-query failures are inputs to each operation.
  Examples are the `Remote` record of fetched values, `Storage(readFails, failingWrites)`
  and `Backend(readFails, selectFails, updateFails)`.
- Timestamps are integer milliseconds. `new Date().toISOString()` is the `now` parameter.
- A `toISOString` RangeError is modelled as `None` from `CalculateNextSync`. It happens when
  the hours are missing (NaN) or the instant leaves ±8.64·10¹⁵ ms.
- JSON serialisation is the identity: a value saved under a key is the value read back.

Four behaviours of the code are easy to miss:

- `initialize`'s catch block, which would record an offline status with version
  `'unknown'`, cannot run. Every step inside its `try` catches its own errors, so an
  initialisation never records that status (`InitializeNeverRecordsOffline`).
- A config without `intervalo_atualizacao_horas` still gets its content written by
  `downloadInitialData`. Computing `nextSync` then throws, so the sync status is not
  written, no listener is called and the download reports failure
  (`MissingIntervalWritesContentButFails`).
- `getQuestionsByCategory` and the other question queries read only the bundled bank.
  Nothing merges downloaded quizzes into it.
- `setupAutoUpdate` uses `intervalo || 24`, so an interval of 0 also means 24 hours.

## Model

| member | source | states |
|---|---|---|
| QuizTypes.NatToString | services/quizAdapter.ts:39 | `String()` of a non-negative integer is a canonical decimal numeral (non-empty, digits only, no leading zero unless it is `0`) whose value is the number |
| QuizTypes.AnswerToString | services/quizAdapter.ts:21-25 | `String(v)`: an integer prints as a canonical decimal numeral denoting its value (after a leading `-` when negative), a boolean as `true`/`false`, a string as itself |
| QuizTypes.IdToString | services/quizAdapter.ts:39 | `String(id)`: a numeric id prints as a canonical decimal numeral denoting its value (after a leading `-` when negative), a string id as itself |
| QuizAdapter.WrapOptions | services/quizAdapter.ts:10 | one option per text, same order, carrying only that text |
| QuizAdapter.QuizToQuestion | services/quizAdapter.ts:4-47 | id is `String(id)`; category and prompt are copied; a missing explanation becomes `""`; every branch except multiple choice yields at least one option, and its answer index points at one of them |
| QuizAdapter.QuizzesToQuestions | services/quizAdapter.ts:49-51 | same length, and element i is the adaptation of quiz i |
| QuizAdapter.MultipleChoiceKeepsOptions | services/quizAdapter.ts:9-12 | a multiple-choice quiz with options keeps its option texts in order and its answer key, and has kind `text` |
| QuizAdapter.MultipleChoiceAnswerText | services/quizAdapter.ts:9-12 | an in-range index key still names the same option text after adaptation |
| QuizAdapter.TrueFalseMapping | services/quizAdapter.ts:13-19 | options are exactly "Verdadeiro" and "Falso"; the index is 0 only when the key is boolean `true`, else 1 |
| QuizAdapter.ImageToTextMapping | services/quizAdapter.ts:20-23 | one option holding `String(key)` and the image; index 0; kind `image` |
| QuizAdapter.CompleteSentenceMapping | services/quizAdapter.ts:24-27 | one option holding `String(key)`; index 0; kind `text` |
| QuizAdapter.FallbackMapping | services/quizAdapter.ts:28-36 | any other kind, including multiple choice without options, gets the three placeholder options and index 0 |
| QuizAdapter.QuizzesToQuestionsAppend | services/quizAdapter.ts:49-51 | adapting a concatenation is the concatenation of the adaptations |
| Cache.KeyNamesDistinct | services/cache.ts:4-10 | the five storage keys are pairwise different strings, so no save overwrites another kind |
| Cache.CacheService.SaveConfig | services/cache.ts:13-20 | the config is stored under its key unless the write fails; a failure is reported and changes nothing |
| Cache.CacheService.GetConfig | services/cache.ts:22-30 | the stored config, or none when absent or when the read fails |
| Cache.CacheService.SaveCategorias | services/cache.ts:32-39 | as SaveConfig, for the categories |
| Cache.CacheService.GetCategorias | services/cache.ts:41-49 | as GetConfig, for the categories |
| Cache.CacheService.SaveQuizzes | services/cache.ts:51-58 | as SaveConfig, for the quizzes |
| Cache.CacheService.GetQuizzes | services/cache.ts:60-68 | as GetConfig, for the quizzes |
| Cache.CacheService.SaveSyncStatus | services/cache.ts:70-77 | as SaveConfig, for the sync status |
| Cache.CacheService.GetSyncStatus | services/cache.ts:79-87 | as GetConfig, for the sync status |
| Cache.CacheService.UpdateLastSync | services/cache.ts:89-97 | the current instant is stored as the last sync unless the write fails |
| Cache.CacheService.GetLastSync | services/cache.ts:99-106 | the stored last-sync instant, or none when absent or on a read error |
| Cache.CacheService.ClearAll | services/cache.ts:108-115 | all five keys are removed and every other entry is kept; a failure changes nothing |
| Cache.CacheService.HasCachedData | services/cache.ts:117-125 | true exactly when the reads succeed, a config is stored and the stored quiz list is non-empty |
| Cache.SaveConfigThenGet | services/cache.ts:13-30 | reading back a saved config gives it; the other four entries are unchanged |
| Cache.SaveCategoriasThenGet | services/cache.ts:32-49 | reading back saved categories gives them; the other entries are unchanged |
| Cache.SaveQuizzesThenGet | services/cache.ts:51-68 | reading back saved quizzes gives them; the other entries are unchanged |
| Cache.SaveSyncStatusThenGet | services/cache.ts:70-87 | reading back a saved status gives it; the other entries are unchanged |
| Cache.ClearAllEmpties | services/cache.ts:108-110 | after clearing, none of the five kinds can be read back, and HasData is false |
| Cache.HasDataNeedsNonEmptyQuizzes | services/cache.ts:117-121 | an empty quiz list or a missing config means no cached data; categories do not matter |
| UpdateService.CalculateNextSync | services/updateService.ts:195-199 | defined exactly when the hours are present and the instant is within the Date range, and then it lies that many hours after now |
| UpdateService.AutoUpdateHours | services/updateService.ts:176 | never 0; 24 exactly when there is no config, no interval, or an interval of 0 or 24; otherwise the configured interval |
| UpdateService.DefaultInterval | services/updateService.ts:176 | a missing config, a missing interval or a zero interval schedules every 24 hours |
| UpdateService.Without | services/updateService.ts:205-207 | removal keeps exactly the other listeners, keeps them duplicate-free, shortens by one when present, and leaves the set alone when absent |
| UpdateService.WithoutAppend | services/updateService.ts:205-207 | removal distributes over concatenation, so the remaining listeners keep their relative order |
| UpdateService.Deliveries | services/updateService.ts:209-211 | one call per registered listener, in registration order, each with the same status |
| UpdateService.EachListenerCalledOnce | services/updateService.ts:209-211 | a registered listener receives the status exactly once per notification |
| UpdateService.UnregisteredNeverCalled | services/updateService.ts:201-211 | a listener not in the set is never called |
| UpdateService.UnreachableRemoteNeverUpdates | services/updateService.ts:56-59 | without a remote config the decision is "no update" |
| UpdateService.NoLocalConfigUpdates | services/updateService.ts:61-64 | with a remote config and no local one the decision is "update" |
| UpdateService.VersionChangeAloneTriggers | services/updateService.ts:66-71 | a different version triggers an update even when the remote timestamp is not newer |
| UpdateService.NewerTimestampAloneTriggers | services/updateService.ts:66-71 | a newer remote timestamp triggers an update with the same version |
| UpdateService.SameVersionOlderTimestampKeepsCache | services/updateService.ts:124-131 | same version and no newer timestamp: check-and-update changes nothing and notifies nobody |
| UpdateService.DownloadAllOrNothing | services/updateService.ts:88-97 | if any of the three fetches fails, the download writes nothing and notifies nobody |
| UpdateService.DownloadSucceedsIff | services/updateService.ts:84-122 | a download publishes a status exactly when all fetches arrive, every write lands and the next sync is representable |
| UpdateService.DownloadSuccessCommitsTrio | services/updateService.ts:99-114 | on success the cache holds the fetched config, categories and quizzes, `now` as last sync, and an online status with the new version and next sync; that status is what is published |
| UpdateService.MissingIntervalWritesContentButFails | services/updateService.ts:99-121 | without an interval the content is written, but the status is untouched and the download fails |
| UpdateService.DownloadNeverRecordsOffline | services/updateService.ts:106-111 | a download leaves the status unchanged or records the online status it published |
| UpdateService.InitializeNeverRecordsOffline | services/updateService.ts:147-171 | initialisation never records an offline status: it is unchanged, or it is the online status carrying the remote version |
| UpdateService.FailedFirstDownloadLeavesStore | services/updateService.ts:149-153 | a first start whose fetch fails leaves the store as it was |
| UpdateService.FreshInstallOnline | services/updateService.ts:149-159 | a first start with reachable content and working storage ends online with the remote version |
| UpdateService.UpdateService.constructor | services/updateService.ts:12-14 | no timer and no listeners |
| UpdateService.UpdateService.ShouldUpdate | services/updateService.ts:49-82 | the answer is the update decision on the fetched remote config and the cached local one |
| UpdateService.UpdateService.NotifyListeners | services/updateService.ts:209-211 | the deliveries are appended in registration order, and nothing else changes |
| UpdateService.UpdateService.DownloadInitialData | services/updateService.ts:84-122 | the store and the deliveries after the call are those of the download effect, and the result says whether a status was published |
| UpdateService.UpdateService.CheckAndUpdate | services/updateService.ts:124-145 | the store and deliveries are those of the check-and-update effect: a download only when the decision says so |
| UpdateService.UpdateService.ManualUpdate | services/updateService.ts:217-220 | same effect as check-and-update |
| UpdateService.UpdateService.SetupAutoUpdate | services/updateService.ts:173-193 | the previous timer is cancelled; exactly one new timer is live, with the cached (or default) interval |
| UpdateService.UpdateService.Initialize | services/updateService.ts:147-171 | download when nothing is cached (or the read fails), else check-and-update; then exactly one timer is armed |
| UpdateService.UpdateService.FireTimer | services/updateService.ts:184-187 | a timer firing runs check-and-update, notifying the unchanged listener list, and leaves the timer armed |
| UpdateService.UpdateService.AddListener | services/updateService.ts:201-203 | the listener is appended once; adding it again changes nothing |
| UpdateService.UpdateService.RemoveListener | services/updateService.ts:205-207 | the list becomes `Without` of the old one: the listener is gone, and the others keep their order (by `WithoutAppend`) |
| UpdateService.UpdateService.GetSyncStatus | services/updateService.ts:213-215 | the cached sync status, or none on a read error |
| UpdateService.UpdateService.Dispose | services/updateService.ts:222-228 | no timer left live, no listeners |
| QuestionsService.GetAllQuestions | services/questionsService.ts:7-9 | the whole bank, unchanged |
| QuestionsService.GetQuestionsByCategory | services/questionsService.ts:11-13 | exactly the questions of the category, no more than the bank holds |
| QuestionsService.ByCategoryAppend | services/questionsService.ts:11-13 | filtering a concatenation is the concatenation of the filtered parts, so order is kept |
| QuestionsService.ByCategoryMultiplicity | services/questionsService.ts:11-13 | each question of the category appears as often as in the bank, and others not at all |
| QuestionsService.SliceEnd | services/questionsService.ts:17 | `slice`'s end: clamped to the length, and counted from the back when negative |
| QuestionsService.GetRandomQuestions | services/questionsService.ts:15-18 | a prefix of the shuffle; its length is `min(count, n)` for a non-negative count; a sub-multiset of the bank |
| QuestionsService.RandomQuestionsAllWhenCountLarge | services/questionsService.ts:15-18 | asking for at least the bank's size returns a permutation of the whole bank |
| QuestionsService.RandomQuestionsNegativeCount | services/questionsService.ts:17 | a negative count drops that many questions from the end of the shuffle |
| QuestionsService.GetQuestionById | services/questionsService.ts:20-22 | none exactly when no question has the id; otherwise the first question with it |
| QuestionsService.Distinct | services/questionsService.ts:25-26 | same members as the input, each once |
| QuestionsService.GetCategories | services/questionsService.ts:24-27 | each category of the bank exactly once, and nothing else |
| QuestionsService.DistinctFirstOccurrenceOrder | services/questionsService.ts:25-26 | the distinct values appear in the order of their first occurrence (insertion order of a `Set`) |
| QuestionsService.CategoriesFirstOccurrenceOrder | services/questionsService.ts:24-27 | categories are listed in the order they first appear in the bank |
| UserService.RoundDiv | services/userService.ts:107 | `Math.round(a / b)`: the nearest integer, halves rounded up |
| UserService.ScoreUpdate | services/userService.ts:101-114 | points are added; exactly one of hits and misses grows by one; the average time is the rounded running mean over all answers |
| UserService.RoundDivWithin | services/userService.ts:107 | rounding a quotient stays between integer bounds of the quotient |
| UserService.AverageWithinBounds | services/userService.ts:105-107 | the new average lies between bounds that hold the old average and the new time |
| UserService.AverageStableAtSameTime | services/userService.ts:105-107 | answering in exactly the average time keeps the average |
| UserService.MaxStreakNeverDecreases | services/userService.ts:120-131 | the recorded maximum streak never decreases and ends at least the new streak |
| UserService.UpdateRows | services/userService.ts:79-82 | the rows with the id get the update and a new `updated_at`; the others are unchanged |
| UserService.Matching | services/userService.ts:56-60 | exactly the rows with the id |
| UserService.MatchingMultiplicity | services/userService.ts:56-60 | each row with the id is matched as often as it occurs, other rows never |
| UserService.MatchingUniqueRow | services/userService.ts:56-60 | a row whose id no other row shares is the only match |
| UserService.SelectSingle | services/userService.ts:56-60 | a row is returned exactly when one row matches, and then it is that row |
| UserService.CountAbove | services/userService.ts:179-182 | at most the table's size |
| UserService.Position | services/userService.ts:189 | a rank between 1 and the table's size plus one |
| UserService.PositionWithinTable | services/userService.ts:174-189 | a profile in the table ranks within the table |
| UserService.PositionMonotone | services/userService.ts:174-189 | a higher score never ranks lower |
| UserService.TopScoreRanksFirst | services/userService.ts:174-189 | a score no one beats ranks first |
| UserService.ResolvedIdIsSticky | services/userService.ts:36-49 | once an id is resolved and cached, later resolutions return it whatever storage holds or whether its read fails |
| UserService.UserService.CheckOnboardingComplete | services/userService.ts:26-34 | true exactly when the flag reads as the string "true"; false on a read error |
| UserService.UserService.GetCurrentProfileId | services/userService.ts:36-49 | a non-empty cached id is returned without reading; otherwise the stored id is read and cached, and none on a read error |
| UserService.UserService.GetCurrentProfile | services/userService.ts:51-72 | the single row with the resolved id; none without an id, on a query error, or when rows are not exactly one; the id is cached as by GetCurrentProfileId |
| UserService.UserService.UpdateProfile | services/userService.ts:74-94 | the id is resolved and cached as by GetCurrentProfileId; without an id, or on an update error, the table is unchanged and the result is false; otherwise the rows with the id are updated |
| UserService.UserService.UpdateScore | services/userService.ts:96-118 | the current profile's row gets the score update; without a profile the table is unchanged; the id is cached as by GetCurrentProfileId |
| UserService.UserService.UpdateMaxStreak | services/userService.ts:120-131 | the streak is written only when it beats the current profile's record; the id is cached as by GetCurrentProfileId |
| UserService.UserService.GetUserPosition | services/userService.ts:174-194 | 1 + the number of strictly higher scores; none without a profile; the id is cached as by GetCurrentProfileId |
| UserService.UserService.ClearProfile | services/userService.ts:196-206 | the stored id and onboarding flag are removed and the cached id forgotten; an error changes nothing and is swallowed |
| QuizRenderer.TrimStart | components/DynamicQuizRenderer.tsx:43-44 | a suffix of the input that does not start with white space, and everything removed is white space |
| QuizRenderer.TrimEnd | components/DynamicQuizRenderer.tsx:43-44 | a prefix of the input that does not end with white space, and everything removed is white space |
| QuizRenderer.ToLower | components/DynamicQuizRenderer.tsx:44 | same length, each character lower-cased |
| QuizRenderer.Normalize | components/DynamicQuizRenderer.tsx:44 | `trim().toLowerCase()`: the trimmed text lower-cased character by character, with no white space at either end |
| QuizRenderer.MultipleChoiceCorrect | components/DynamicQuizRenderer.tsx:29 | strict equality: only a numeric key equal to the index is correct; a string or boolean key never is |
| QuizRenderer.TrueFalseCorrect | components/DynamicQuizRenderer.tsx:37 | strict equality: correct exactly when the key is that boolean; a non-boolean key never is |
| QuizRenderer.TextCorrect | components/DynamicQuizRenderer.tsx:44 | an answer whose trimmed text is the trimmed `String(key)` is accepted, and an accepted answer has the key's trimmed length |
| QuizRenderer.Render | components/DynamicQuizRenderer.tsx:49-115 | each known kind shows its own view, with options defaulting to `[]` and the image to `""`; an unknown kind with options shows them as multiple choice, and nothing is shown only for an unknown kind without options |
| QuizRenderer.TrueFalseNeedsBooleanKey | components/DynamicQuizRenderer.tsx:37 | a non-boolean key is never matched by a true/false answer |
| QuizRenderer.MultipleChoiceUniqueIndex | components/DynamicQuizRenderer.tsx:29 | at most one index is correct |
| QuizRenderer.TrimEmptyIffWhitespace | components/DynamicQuizRenderer.tsx:43 | an answer is blank exactly when it is all white space |
| QuizRenderer.TrimStartAppend | components/DynamicQuizRenderer.tsx:43-44 | start-trimming a concatenation skips an all-white-space first part and otherwise keeps the second part whole |
| QuizRenderer.TrimEndSkipsTrailing | components/DynamicQuizRenderer.tsx:43-44 | trailing white space does not change the end-trimmed text |
| QuizRenderer.PaddingIgnored | components/DynamicQuizRenderer.tsx:44 | white space on either side does not change the trimmed text |
| QuizRenderer.ToLowerIdempotent | components/DynamicQuizRenderer.tsx:44 | lower-casing twice is lower-casing once |
| QuizRenderer.TextCheckIgnoresPadding | components/DynamicQuizRenderer.tsx:44 | the text check gives the same verdict with or without surrounding white space |
| QuizRenderer.TextCheckAcceptsKey | components/DynamicQuizRenderer.tsx:44 | typing `String(key)` exactly is accepted |
| QuizRenderer.Renderer.constructor | components/DynamicQuizRenderer.tsx:21-24 | nothing selected, empty text, not submitted |
| QuizRenderer.Renderer.SetDisabled | components/DynamicQuizRenderer.tsx:18 | only the `disabled` prop changes: selections, text and submissions are kept |
| QuizRenderer.Renderer.SelectMultipleChoice | components/DynamicQuizRenderer.tsx:26-32 | while disabled or already submitted nothing happens; otherwise the index is selected and the one submission is whether it is the key |
| QuizRenderer.Renderer.SelectTrueFalse | components/DynamicQuizRenderer.tsx:34-40 | as above, correct only when the key is that boolean |
| QuizRenderer.Renderer.ChangeText | components/DynamicQuizRenderer.tsx:82 | only the typed text changes: selections, the prop and submissions are kept |
| QuizRenderer.Renderer.SubmitText | components/DynamicQuizRenderer.tsx:42-47 | a blank answer, a disabled view or a second submit does nothing; otherwise the one submission is the normalised comparison with the key |
| GameRound.IsCorrect | app/jogo.tsx:48 | only an index equal to a numeric key is correct; a time-out or a non-numeric key never is |
| GameRound.Award | app/jogo.tsx:48-70 | a correct answer adds 10 + 2·streak and extends the streak; a wrong one resets the streak and keeps the score |
| GameRound.TrailingCorrect | app/jogo.tsx:50-70 | the run of correct answers since the last miss |
| GameRound.ReplayAppend | app/jogo.tsx:42-73 | replaying one more answer is one more award |
| GameRound.StreakIsTrailingRun | app/jogo.tsx:50-70 | the streak is always the number of correct answers since the last miss |
| GameRound.ScoreNeverDecreases | app/jogo.tsx:50-70 | the score never goes down |
| GameRound.ScoreBound | app/jogo.tsx:50-70 | n answers raise the streak by at most n and the score by at most what n correct answers in a row earn |
| GameRound.CorrectRunScore | app/jogo.tsx:50-53 | k correct answers from streak s add 10k + 2sk + k(k−1) points |
| GameRound.PerfectRoundScore | app/jogo.tsx:50-53 | a round of n answers scores at most n² + 9n, reached when all are correct |
| GameRound.ProgressColor | app/jogo.tsx:87-91 | green exactly above 20 s, red exactly at 10 s or below, gold between |
| GameRound.ColorMonotone | app/jogo.tsx:87-91 | as the clock runs down the colour only moves towards red |
| GameRound.Round.constructor | app/jogo.tsx:15-21 | first question, score and streak 0, 30 s, nothing answered |
| GameRound.Round.HandleAnswer | app/jogo.tsx:42-73 | only the first answer to a question counts; it is scored with the award and schedules the explanation |
| GameRound.Round.Tick | app/jogo.tsx:26-40 | nothing changes once answered; otherwise one second off the clock, and at the last second the question times out as a wrong answer with the clock at 0 and the explanation scheduled |
| GameRound.Round.RevealExplanation | app/jogo.tsx:72 | the scheduled explanation appears; nothing else changes |
| GameRound.Round.HandleNext | app/jogo.tsx:75-85 | the next question with a reset state and 30 s, or finished after the last one with the state unchanged; score and streak carry over |
| GameRound.Round.GetProgressColor | app/jogo.tsx:87-91 | the ring's colour for the current clock, green on a fresh question |
| GameRound.Round.ScoreWithinPerfect | app/jogo.tsx:42-85 | in any reachable state the score is at most n² + 9n for n answers so far, and the streak is the trailing run |

## Left out

- Network fetches of the config, categories and quizzes: their results are the `Remote` input; HTTP status and JSON parsing are not modelled.
- AsyncStorage and `JSON.stringify`/`JSON.parse`: the store is a typed map, and serialisation is the identity. A stored empty string read back as `null` is not modelled.
- The remote `profiles` table is a sequence of rows. `getRanking` and `getRankingByProvincia` (ordering and limit done by the database) are not part of this model.
- Concurrency: `Promise.all` and the async interleaving of two sync runs, timer callbacks racing a running update, and React's stale closures. Each operation is modelled as one atomic step.
- Date parsing and ISO formatting: instants are integer milliseconds, and `new Date(x) > new Date(y)` on unparsable strings (always false) is not modelled.
- Floating-point numbers: scores, times and hours are integers; `Math.round` is exact on them.
- QuizTypes.NatToString: models `String()` only for integers; fractional numbers, and the exponent notation JavaScript uses from 1e21 on (`"1e+21"`), are not modelled, so numeric quiz ids and answers are taken to be integers below 1e21.
- UpdateService.CalculateNextSync: adds whole hours of absolute time; `setHours(getHours() + n)` works in local wall-clock time, so across a daylight-saving change the real gap is n hours ± 1 h. A JSON `null` interval (which adds 0 hours) is treated like a missing one (NaN, a RangeError).
- Cache.CacheService.ClearAll: a failed `multiRemove` is modelled as removing nothing; a removal that fails part-way is not modelled. The same holds for UserService.UserService.ClearProfile.
- `toLowerCase` beyond ASCII and Latin-1 capitals, and Unicode case mappings that change length.
- Listener exceptions and listeners that add or remove listeners while being notified.
- `syncWithGoogleDrive` (a placeholder that only logs), onboarding screens, profile creation, the presentation components (`QuestionCard`, the four quiz views), styles, haptics and animations.
- The 500 ms explanation timeout is the explicit `RevealExplanation` step; the 1 s interval is the explicit `Tick` step.
- `Math.random` in the shuffle: the shuffled order is an input with the same multiset as the bank, so no property of the distribution is stated.
- GameRound.Round.constructor: requires a non-empty question list; with no questions the screen reads `gameQuestions[0]` as `undefined` and fails.
- UpdateService.UpdateService.Initialize: one `readFails` flag covers every cache read of the call, so a mix of failing and succeeding reads inside one call is not modelled.
- UserService.UserService.GetUserPosition: one `selectFails` flag covers both remote queries of the call; the second query's own error case is folded into it.
- UserService.UserService.UpdateProfile: the partial update carries only the five columns the service writes (score, hits, misses, average time, max streak), not arbitrary `Partial<UserProfile>` fields.
- QuizRenderer.Renderer.ChangeText: the view's own disabling of its input after submission is not modelled.
