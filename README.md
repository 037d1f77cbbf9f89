# ApoIA conversation core, modelled in Dafny

ApoIA is a WhatsApp literacy assistant. A learner is greeted, asked for a name
and an age, and given a word-list reading test. After the test the learner gets
a literacy level and personalised conversation. This project models the
services behind that flow:

- `TextDetection` (`text_detection.dfy`): the regular-expression detector of a
  name and an age in a free-text message. Each pattern is a hand-written
  recogniser that follows Python's `re` backtracking order where it matters.
  `DetectionExamples` (`detection_examples.dfy`) proves the documented examples
  and some edge cases about it.
- `LiteracyEvaluator`: scoring of the read-aloud word list, and the three
  literacy levels.
- `ReadingExercises`: the reading bank, text normalisation, the similarity
  rating, the itemised errors and the feedback message. The word alignment is a
  parameter: any well-formed `difflib` opcode list.
- `UserStates`: the class `UserStateManager`. It holds a per-user state cache
  over a directory of records, with 24-hour expiry and clearing in the first
  phase.
- `ConversationHistory`: the class `ConversationHistoryManager`, a per-user
  message log with Python's `[-limit:]` slicing.
- `VectorStore`: the class `VectorStoreManager`. Each store is the list of
  documents it holds, including the seed document of a new store.
- `Conversation`: the phase machine of `ConversationManager`. The handlers are
  pure functions of the state, the message and the language model's answer.
  The class `ConversationManager` holds the three stores, and its methods are
  proved against those functions.
- `Text`: Python's string operations (`lower`, `split`, `strip`, `capitalize`,
  `str`/`int` of numbers) over Latin-1. `Wrappers` holds `Option`.

The directories of JSON files are maps from user id to record, fields of the
manager classes. The clock is an integer parameter `now`, and `when` is its
formatted text. The language model's reply is a parameter `llm`: `None` when
the call raises.

Where the repository's documentation and its code differ, the model follows
the code:

- Every repetition of a shown word scores a hit, so the rate can exceed 100
  (`LiteracyEvaluator.RepetitionsCount`).
- The words are compared after `lower()` only, without stripping punctuation or
  accents.
- There is no rule that four correct words make a pass: the level comes from
  the rate alone.
- `acertos` of a reading attempt can be negative (`ReadingExercises.HitsCanBeNegative`).
- The introduction phrases carry no `\b`, so "sou" matches inside "pousou"
  (`DetectionExamples.PhraseInsideWord`).
- The apology to a user whose name is unknown says "None"
  (`Conversation.ApologyToUnnamed`).
- The fourth age pattern can never decide (`TextDetection.OnlyNumberIsSubsumed`).

## Model

| member | source | states |
|---|---|---|
| TextDetection.DetectAge | AiHelper/services/text_detection.py:56-82 | a detected age is always within 1..120 |
| TextDetection.DetectAgeWith | AiHelper/services/text_detection.py:73-82 | trying the age patterns in order yields only an age accepted by the 1..120 check |
| TextDetection.AgeFirstAccepted | AiHelper/services/text_detection.py:73-80 | the first pattern whose first match lies in 1..120 decides the age, whatever later patterns match |
| TextDetection.AgeNoneWhenNoneAccepted | AiHelper/services/text_detection.py:73-82 | no age is detected exactly when no pattern's first match lies in 1..120 |
| TextDetection.SearchSkipsFailures | AiHelper/services/text_detection.py:74 | `re.search` gives the first match position: leading positions without a match are skipped |
| TextDetection.SkipNoAge | AiHelper/services/text_detection.py:74 | the search passes over a stretch of positions where nothing matches |
| TextDetection.OnlyNumberIsSubsumed | AiHelper/services/text_detection.py:68-70 | whenever `^\s*(\d{1,3})\s*$` matches, `\b(\d{1,3})\s*$` has already matched the same number |
| TextDetection.SearchAge | AiHelper/services/text_detection.py:67-70 | a pattern's match is at most three digits, so its value is below 1000 |
| TextDetection.GroupTry | AiHelper/services/text_detection.py:97 | the captured name group is a non-empty slice of the message that begins where the group begins |
| TextDetection.CanonicalName | AiHelper/services/text_detection.py:117-119 | the rejoined name has every word capitalised |
| TextDetection.CanonicalWords | AiHelper/services/text_detection.py:119 | joining capitalised words with single spaces gives a capitalised name |
| TextDetection.DetectNameWith | AiHelper/services/text_detection.py:114-126 | a detected name is outside the stop list, longer than one character and capitalised |
| TextDetection.DetectName | AiHelper/services/text_detection.py:85-126 | a detected name is outside the 13 stop words, longer than one character and capitalised |
| TextDetection.NameFirstAccepted | AiHelper/services/text_detection.py:114-124 | the first pattern whose first match survives the stop list decides; later matches of a rejected pattern are not tried |
| TextDetection.DetectNameAndAge | AiHelper/services/text_detection.py:18-53 | the two facts each keep their detector's guarantee: an age in 1..120; a name outside the stop list, longer than one character and capitalised |
| DetectionExamples.NoDigitNoAge | AiHelper/services/text_detection.py:66-82 | a message without a digit has no age |
| DetectionExamples.NoDigitAt | AiHelper/services/text_detection.py:66-82 | without a digit in the message, no age pattern matches at any position |
| TextDetection.AgeSkip | AiHelper/services/text_detection.py:73-80 | a pattern whose match is missing or out of range hands over to the next pattern |
| TextDetection.AgeTake | AiHelper/services/text_detection.py:76-80 | a pattern whose match is within range returns that number |
| DetectionExamples.NameNoneWhenNoneAccepted | AiHelper/services/text_detection.py:114-126 | no name is detected exactly when no pattern's first match yields an accepted name |
| DetectionExamples.ScanNone | AiHelper/services/text_detection.py:115 | a pattern that matches at no later position finds nothing |
| TextDetection.NameSkip | AiHelper/services/text_detection.py:114-124 | a pattern without an accepted candidate hands over to the next pattern |
| TextDetection.NameTake | AiHelper/services/text_detection.py:122-124 | a pattern with an accepted candidate returns it |
| DetectionExamples.IntroNeedsInitial | AiHelper/services/text_detection.py:97 | an introduction phrase can only start at an m, n, e or s |
| DetectionExamples.Greeting | AiHelper/services/text_detection.py:18-53 | "oi" yields neither a name nor an age |
| DetectionExamples.LowerCaseName | AiHelper/services/text_detection.py:101-104 | "joao" yields the name "Joao": the match ignores case and the result is capitalised |
| DetectionExamples.NameAndBareNumber | AiHelper/services/text_detection.py:31 | "Pedro 45" yields Pedro, 45 |
| DetectionExamples.IntroductionAndYears | AiHelper/services/text_detection.py:28 | "Meu nome é João e tenho 25 anos" yields João, 25 |
| DetectionExamples.NameCommaYears | AiHelper/services/text_detection.py:29 | "João, 25 anos" yields João, 25 |
| DetectionExamples.IntroductionAndHaveNumber | AiHelper/services/text_detection.py:30 | "Sou a Maria e tenho 30" yields Maria, 30 |
| DetectionExamples.PhraseInsideWord | AiHelper/services/text_detection.py:97 | with no `\b` before the phrases, "Ele pousou aqui" yields the name "Aqui" |
| LiteracyEvaluator.ClassifyLevel | AiHelper/services/literacy_evaluator.py:58-73 | advanced exactly from 80, beginner exactly below 50, intermediate in between |
| LiteracyEvaluator.ClassifyMonotone | AiHelper/services/literacy_evaluator.py:68-73 | a higher rate never gives a lower level |
| LiteracyEvaluator.ExpectedSet | AiHelper/services/literacy_evaluator.py:40 | the expected words, lower-cased, and nothing else |
| LiteracyEvaluator.CountHitsIsPositionCount | AiHelper/services/literacy_evaluator.py:39-43 | the hit count is the number of response tokens in the expected set, repetitions included |
| LiteracyEvaluator.HitRate | AiHelper/services/literacy_evaluator.py:44-45 | the rate times the total is 100 times the hits; 0 for an empty test; 100 exactly when all hit |
| LiteracyEvaluator.HitRateMonotone | AiHelper/services/literacy_evaluator.py:45 | more hits never give a lower rate |
| LiteracyEvaluator.AnalyzeReadingLevel | AiHelper/services/literacy_evaluator.py:17-55 | hits are the hitting token positions, total is the expected count, and the level is the classified rate |
| LiteracyEvaluator.MoreHitsNoLowerLevel | AiHelper/services/literacy_evaluator.py:17-55 | on the same word list, more hits never give a lower level |
| LiteracyEvaluator.GetTestWords | AiHelper/services/literacy_evaluator.py:76-92 | four words per level; an unknown level gets the basic list |
| LiteracyEvaluator.TwoOfFourIsIntermediate | AiHelper/services/literacy_evaluator.py:17-55 | "casa bola" on the basic list is 2 of 4, 50%, intermediate |
| LiteracyEvaluator.RepetitionsCount | AiHelper/services/literacy_evaluator.py:41-45 | one word read five times is 5 of 4, 125%, advanced |
| ReadingExercises.LevelTexts | AiHelper/services/reading_exercises.py:31-89 | every bank is non-empty, and an unknown level gets the beginner bank |
| ReadingExercises.GetReadingText | AiHelper/services/reading_exercises.py:20-94 | the text comes from the level's bank and has the bank's difficulty |
| ReadingExercises.GetReadingTextIndex | AiHelper/services/reading_exercises.py:92-94 | the text is the bank entry at `(n - 1) % len(bank)`, with a non-negative remainder |
| ReadingExercises.GetReadingTextPeriodic | AiHelper/services/reading_exercises.py:92-94 | exercise numbers one bank length apart give the same text |
| ReadingExercises.FirstExercise | AiHelper/services/reading_exercises.py:20 | exercise 1 is the first text of the bank |
| ReadingExercises.Decompose | AiHelper/services/reading_exercises.py:158 | NFD turns an accented Latin-1 letter into an ASCII letter and a combining mark, keeping its case |
| ReadingExercises.Nfd | AiHelper/services/reading_exercises.py:158-159 | after NFD every character is a combining mark or has no decomposition |
| ReadingExercises.Normalize | AiHelper/services/reading_exercises.py:148-163 | the result has no punctuation, capitals, marks or accented letters, and single spaces between words |
| ReadingExercises.NormalizeIdempotent | AiHelper/services/reading_exercises.py:148-163 | normalising twice gives the same text as normalising once |
| ReadingExercises.NormalIsFixed | AiHelper/services/reading_exercises.py:148-163 | a text already in normal form is left unchanged |
| ReadingExercises.IdentityOps | AiHelper/services/reading_exercises.py:117 | a list aligned with itself is one well-formed equal block |
| ReadingExercises.MatchesBound | AiHelper/services/reading_exercises.py:117-118 | the matched words number at most the length of either list |
| ReadingExercises.SimilarityBounds | AiHelper/services/reading_exercises.py:117-118 | the similarity lies between 0 and 100 |
| ReadingExercises.IdentitySimilarity | AiHelper/services/reading_exercises.py:117-118 | two identical lists are 100% similar |
| ReadingExercises.RateSimilarity | AiHelper/services/reading_exercises.py:124-135 | the four ratings split the percentage at 90, 70 and 50, one rating for each range |
| ReadingExercises.PairsFrom | AiHelper/services/reading_exercises.py:188-194 | a replace block's pairs are read at the same offset in both lists, and there are at most as many as the block is long |
| ReadingExercises.SwapsFromReplace | AiHelper/services/reading_exercises.py:186-194 | every swapped pair comes from a replace block, expected word from the text and read word from the reading |
| ReadingExercises.SwapsBound | AiHelper/services/reading_exercises.py:186-194 | there are no more swaps than words in either list |
| ReadingExercises.IdentitySwaps | AiHelper/services/reading_exercises.py:186-194 | an identical reading has no swaps |
| ReadingExercises.SetToList | AiHelper/services/reading_exercises.py:198-199 | `list(set)` holds each element of the set exactly once |
| ReadingExercises.TakeFive | AiHelper/services/reading_exercises.py:198-199 | the first five of such a list are distinct members of the set, as many as the set allows |
| ReadingExercises.IdentifyErrors | AiHelper/services/reading_exercises.py:166-200 | the swaps of the replace blocks, and up to five distinct missing and five distinct extra words |
| ReadingExercises.AppendBlockSwaps | AiHelper/services/reading_exercises.py:187-194 | the loop over one block appends exactly that block's pairs |
| ReadingExercises.IdenticalWords | AiHelper/services/reading_exercises.py:117-144 | identical readings: 100%, no errors, every word a hit |
| ReadingExercises.AnalyzeWords | AiHelper/services/reading_exercises.py:117-145 | similarity in 0..100, its rating, the word counts, the itemised errors and the hit count of the attempt |
| ReadingExercises.AnalyzeReadingAttempt | AiHelper/services/reading_exercises.py:97-145 | the same on the normalised texts; an identical reading is excellent with no errors |
| ReadingExercises.HitsCanBeNegative | AiHelper/services/reading_exercises.py:144 | "x" read as "y" scores -1 hits, since the swap is also counted as missing |
| ReadingExercises.BuildSwapLines | AiHelper/services/reading_exercises.py:227-228 | the loop renders one line per shown swap, in order |
| ReadingExercises.BuildSkipLines | AiHelper/services/reading_exercises.py:233-234 | the loop renders one line per shown missing word, in order |
| ReadingExercises.GenerateFeedbackMessage | AiHelper/services/reading_exercises.py:203-245 | the message is the header, the two sections and the closing for the rating |
| ReadingExercises.SectionsIffNonEmpty | AiHelper/services/reading_exercises.py:225-235 | a section appears exactly when its list is non-empty |
| ReadingExercises.AtMostThreeShown | AiHelper/services/reading_exercises.py:227-234 | only the first three swaps and missing words are shown |
| ReadingExercises.ClosingByRating | AiHelper/services/reading_exercises.py:238-243 | fair and needs-work ratings get the same closing |
| UserStates.Default | AiHelper/services/user_state_manager.py:137-153 | the first phase, no personal data, accessed now |
| UserStates.ClearIfInitial | AiHelper/services/user_state_manager.py:61-68 | a first-phase state loses its personal data; any other state is unchanged |
| UserStates.ClearIfInitialIdempotent | AiHelper/services/user_state_manager.py:61-68 | clearing twice is clearing once |
| UserStates.ExpiryBoundary | AiHelper/services/user_state_manager.py:155-173 | exactly 24 hours is fresh, one second more has expired, and no timestamp never expires |
| UserStates.ExpiryMonotone | AiHelper/services/user_state_manager.py:155-173 | an expired state stays expired as time passes |
| UserStates.Load | AiHelper/services/user_state_manager.py:106-135 | a missing or expired record loads as the default state, any other record with its access time set to now |
| UserStates.LoadKeepsFreshState | AiHelper/services/user_state_manager.py:106-135 | a fresh complete state loads unchanged except for its access time |
| UserStates.LoadedIsFresh | AiHelper/services/user_state_manager.py:106-135 | a loaded record is never expired at load time |
| UserStates.UserStateManager.GetUserState | AiHelper/services/user_state_manager.py:45-70 | the cached record, or else the loaded one, is cleared, cached and handed out; the disk is untouched |
| UserStates.UserStateManager.SaveUserState | AiHelper/services/user_state_manager.py:72-86 | the cached record is written, or `{}` for an uncached user |
| UserStates.UserStateManager.ClearUserState | AiHelper/services/user_state_manager.py:88-104 | the user leaves both the cache and the disk |
| UserStates.UnknownUserGetsDefault | AiHelper/services/user_state_manager.py:45-70 | a new user gets the default state |
| UserStates.HandedOutInitialIsCleared | AiHelper/services/user_state_manager.py:61-70 | a handed-out first-phase state has no personal data |
| UserStates.ClearThenGet | AiHelper/services/user_state_manager.py:88-104 | after clearing, the next get starts over from the default state |
| UserStates.RepeatedGet | AiHelper/services/user_state_manager.py:56-59 | a cached user gets the same state later, however much time has passed |
| UserStates.SaveLeavesOthers | AiHelper/services/user_state_manager.py:72-86 | saving one user leaves every other user's record as it was |
| ConversationHistory.RoleOf | AiHelper/services/conversation_history.py:57 | the role is "user" exactly when the message is the user's |
| ConversationHistory.LoadHistory | AiHelper/services/conversation_history.py:107-123 | a missing file is an empty history, otherwise the stored one |
| ConversationHistory.SliceFrom | AiHelper/services/conversation_history.py:86 | Python's `xs[start:]`, including a negative start clamped to the front |
| ConversationHistory.Limited | AiHelper/services/conversation_history.py:85-87 | no limit or 0 gives everything, a positive limit the last that many, a negative one drops that many from the front |
| ConversationHistory.LargeLimitIsWhole | AiHelper/services/conversation_history.py:85-86 | a limit at least the length gives the whole history |
| ConversationHistory.LimitedEndsWithLast | AiHelper/services/conversation_history.py:85-86 | a positive limit always keeps the newest message |
| ConversationHistory.ConversationHistoryManager.AddMessage | AiHelper/services/conversation_history.py:42-66 | the message with its role and time is appended to the stored history, which is cached and saved |
| ConversationHistory.ConversationHistoryManager.SaveUserHistory | AiHelper/services/conversation_history.py:125-140 | the cached history is written, or an empty one |
| ConversationHistory.ConversationHistoryManager.GetHistory | AiHelper/services/conversation_history.py:68-87 | the limited stored history; the disk is untouched |
| ConversationHistory.ConversationHistoryManager.ClearHistory | AiHelper/services/conversation_history.py:89-105 | the user leaves the cache and the disk |
| ConversationHistory.ClearThenGet | AiHelper/services/conversation_history.py:89-105 | after clearing, the history is empty |
| ConversationHistory.AddLeavesOthers | AiHelper/services/conversation_history.py:42-66 | adding for one user leaves every other history unchanged |
| ConversationHistory.AddTwoKeepsOrder | AiHelper/services/conversation_history.py:42-66 | two additions are kept in order after the earlier history |
| VectorStore.SeedDoc | AiHelper/services/vectorstore_manager.py:149-175 | the seed document of a new store has the system type |
| VectorStore.Opened | AiHelper/services/vectorstore_manager.py:112-147 | a user without a saved store gets a new store holding only the seed document |
| VectorStore.VectorStoreManager.GetOrCreate | AiHelper/services/vectorstore_manager.py:112-147 | the opened store is cached and equals the copy on disk; only a new store is written |
| VectorStore.VectorStoreManager.AddMessage | AiHelper/services/vectorstore_manager.py:45-71 | the message, typed by its role, is appended to the opened store, which is cached and saved |
| VectorStore.VectorStoreManager.ClearVectorstore | AiHelper/services/vectorstore_manager.py:92-110 | the user leaves the cache and the disk |
| VectorStore.FirstMessageAfterSeed | AiHelper/services/vectorstore_manager.py:45-71 | a new user's store holds the seed and then the first message |
| Conversation.FirstAt | AiHelper/services/conversation_manager.py:71-73 | the position of the first `@`, or the length when there is none |
| Conversation.UserId | AiHelper/services/conversation_manager.py:71-73 | the id is the prefix before the first `@`, or the whole number when it has none |
| Conversation.InitialPhaseGreets | AiHelper/services/conversation_manager.py:206-219 | the first phase replies with the greeting, moves to collecting and saves |
| Conversation.KnownFactsKept | AiHelper/services/conversation_manager.py:221-261 | a known name or age is never replaced, and nothing else but the phase and test words changes |
| Conversation.CollectFactsAdvances | AiHelper/services/conversation_manager.py:221-261 | collecting moves on exactly when a name and an age are known, then with the basic words |
| Conversation.NameCollectionAdvances | AiHelper/services/conversation_manager.py:221-261 | the collecting route moves on for the detector's facts, otherwise stays, and saves |
| Conversation.TestRequestKeepsState | AiHelper/services/conversation_manager.py:263-270 | the test request replies with the fixed text and changes and saves nothing |
| Conversation.EvaluationRecorded | AiHelper/services/conversation_manager.py:272-299 | the evaluator's level, hits and total are recorded, the phase becomes personalised, and it saves |
| Conversation.OtherPhasesArePersonalised | AiHelper/services/conversation_manager.py:179-202 | any other phase replies with the model's answer, or the apology when it fails, and changes nothing |
| Conversation.ApologyToUnnamed | AiHelper/services/conversation_manager.py:325-327 | the apology to a user without a name says "None" |
| Conversation.PhaseIndex | AiHelper/services/conversation_manager.py:179-202 | each phase has its position in the phase order |
| Conversation.RouteMovesAtMostOnePhase | AiHelper/services/conversation_manager.py:179-202 | a turn never goes back a phase and advances at most one |
| Conversation.RestartGreets | AiHelper/services/conversation_manager.py:112-126 | a restart starts from the default state and greets as in the first phase |
| Conversation.TurnSteps | AiHelper/services/conversation_manager.py:130-177 | a turn is the route taken after the restart check, and a restart always saves |
| Conversation.RestartOnlyFromEmptyPersonalised | AiHelper/services/conversation_manager.py:112-126 | only a personalised conversation with no history can restart |
| Conversation.ConversationManager.AddMessageToContext | AiHelper/services/conversation_manager.py:97-110 | the message goes to both the history and the vector store of the user |
| Conversation.ConversationManager.GenerateResponse | AiHelper/services/conversation_manager.py:130-177 | one turn: a record without a phase changes nothing; otherwise the reply, the new state and its saving are the turn's, and both logs gain the message and then the reply |
| Conversation.ConversationManager.RespondTo | AiHelper/services/conversation_manager.py:158-177 | the turn on a cached state, as above |
| Conversation.ConversationManager.Restart | AiHelper/services/conversation_manager.py:158-163 | on a restart the default state is cached and saved; otherwise nothing changes |
| Conversation.ConversationManager.CheckRestart | AiHelper/services/conversation_manager.py:112-126 | the restart decision, reading the stored history only for a greeting in the personalised phase and leaving it unchanged |
| Conversation.ConversationManager.Answer | AiHelper/services/conversation_manager.py:165-172 | the message is logged, the handler's state applied, and the reply logged |
| Conversation.ConversationManager.ReadContext | AiHelper/services/conversation_manager.py:306-308 | reading the context for the model changes no store |
| Conversation.ConversationManager.ApplyStep | AiHelper/services/conversation_manager.py:179-202 | the handler's state is cached, and saved when the handler saves |
| Conversation.ConversationManager.ShouldGenerateTestImage | AiHelper/services/conversation_manager.py:382-408 | only a requested test gets an image with the stored words, moving to waiting for the test and saving |
| Conversation.ConversationManager.GetUserInfo | AiHelper/services/conversation_manager.py:410-421 | the id with the phase, name, age and level of the current state |
| Conversation.ConversationManager.GetConversationSummary | AiHelper/services/conversation_manager.py:377-380 | the stored history under the caller's limit, by `Limited`: everything for None or 0, the newest `limit` messages for a positive limit, all but the first `-limit` for a negative one; the default call passes 10 |
| Conversation.ConversationManager.ClearUserContext | AiHelper/services/conversation_manager.py:423-435 | the user leaves all three stores, in memory and on disk |
| Text.RunEndUnique | AiHelper/services/text_detection.py:67-106 | a run of matching characters ends at the one position where the run stops |
| Text.Strip | AiHelper/services/conversation_manager.py:120 | `strip()` leaves no surrounding space |
| Text.StripRemovesSurroundingSpace | AiHelper/services/conversation_manager.py:120 | `strip()` returns a slice of the input, and everything it removes before and after that slice is whitespace |
| Text.NatToString | AiHelper/services/conversation_manager.py:291-293 | `str(n)` is a non-empty string of digits |
| Text.DigitsRoundTrip | AiHelper/services/text_detection.py:77 | reading back a rendered number gives the number |
| Text.SplitJoin | AiHelper/services/reading_exercises.py:161 | splitting words joined with single spaces gives the words back |
| Text.CollapseSpaces | AiHelper/services/reading_exercises.py:161 | `' '.join(s.split())` has the same words and single spaces between them |
| Text.CapitalizeIdempotent | AiHelper/services/text_detection.py:119 | capitalising twice is capitalising once |
| Text.TitleCharFixed | AiHelper/services/text_detection.py:119 | apart from the sharp s, the title case of a letter is its own title case |

## Left out

- Characters outside Latin-1: Python's `\s`, `\w`, `lower`, `title` and NFD are modelled on U+0000..U+00FF, and characters above it are neither letters nor spaces. `\d` is modelled as the ASCII digits.
- ReadingExercises.AnalyzeReadingAttempt: the alignment from `difflib.SequenceMatcher` is a parameter, namely any well-formed opcode list. Its matching heuristics are not modelled.
- ReadingExercises.SetToList: the order of `list(set(...))` is left open. Which five missing or extra words are shown is therefore not fixed.
- ReadingExercises.GenerateFeedbackMessage: the precision is a given text, because the float formatting of `round(..., 1)` is not modelled. Percentages are exact reals, not floats.
- LiteracyEvaluator.HitRate: an exact rational rather than a float, so no rounding is modelled.
- File I/O, JSON encoding, directory creation and deletion: each directory is a map from user id to record. A state file that cannot be parsed is not modelled.
- The clock: `datetime.now()` is the parameter `now`. A turn reads it once, and the formatted text `when` is given as well.
- The language-model chain, `_build_literacy_prompt` and `_get_chat_history`'s conversion to LangChain messages: the model's output is the parameter `llm`, with `None` for a failure.
- `get_relevant_context`: the FAISS similarity search and embeddings are not modelled. In the model the personalised phase opens the store, which the turn has already created, and reads no result from it.
- `generate_test_image_prompt` in literacy_evaluator.py: it only formats a prompt for an image service.
- VectorStore.Opened: a saved store that fails to load, and the timestamp metadata of documents, are not modelled.
- UserStates.UserStateManager.SetCached: Python hands out the cached dictionary itself, which callers then change in place. The model writes the changed state back into the cache instead.
- Logging with `print`, concurrency between requests, and the HTTP routes that call these services.
