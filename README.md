# Overthink Palace, modelled in Dafny

This project models the logic of the Overthink Palace web app, a playful
front end for mood tracking and overthinking. It covers:

- **The two teddy pages.** Each classifies free text into one of six moods
  by counting keyword substrings, breaks ties first-wins, and shows a random
  response and affirmation.
- **The mood bottle.** It averages emoji scores into a 1 to 5 mood, keeps a
  toggled emoji selection, labels the stars and runs a stress-relief teddy
  that must be hit a number of times.
- **The preferences quiz.** A nine-question wizard with gated navigation.
- **The two suggestion pages.** They map quiz answers to lists through lookup
  tables with fallbacks.
- **Four widgets and two effects.**
  - The "seen" panic timer, with stages, an `HH:MM:SS` clock, and start, tick
    and stop.
  - The delusion slider, with levels and highlighted buttons.
  - Late-night mode, with the hour rule, the periodic check and the toggle.
  - The custom cursor trail and sparkles, and the floating hearts background.

Each core source file has one module:

- `Teddy` and `TeddyCompanion`
- `MoodBottle`
- `Quiz`
- `Suggestions` and `Home`, over the shared `Preferences` answer record
- `SeenPanicTimer`, `DelusionSlider`, `LateNightMode`, `CustomCursor` and
  `FloatingHearts`

Three shared modules sit beside them:

- `Wrappers`: `Option`, standing for `null`/`undefined`.
- `Js`: the JavaScript built-ins the code leans on. These are `toLowerCase`
  on ASCII letters, `includes`, `trim`, `Math.floor(Math.random() * n)`,
  `slice(-n)`, `Math.round(t / c)`, `toString` and `padStart`.
- `Thresholds`: the backward "largest threshold not above x" loop that the
  panic timer and the slider share.

Modelling conventions:

- State that React keeps with `useState`/`useRef` is a class field. Each
  handler is a method stating the whole new state.
- A `setTimeout` or `setInterval` callback is a separate method, run as one
  step. A queue or counter of pending callbacks records what is scheduled.
- `Math.random()` is an injected real `r` with `0 <= r < 1`.
- Clock readings, mouse coordinates and the hour of day are parameters.
- The keyword and response tables are functions, copied entry for entry
  from the source. The floating-hearts emoji table is kept twice: as the
  file stores it (`EmojisAsWritten`) and as intended (`Emojis`); see
  "Findings".
- The lookup tables of the suggestion pages are passed to `GetSuggestions`
  as a `Tables` value. `PageTables()` and `HomeTables()` are the pages'
  own tables.

Where the code and its design description disagree, the model follows the
code:

- The classifier returns only the mood, not the winning score.
- Nothing validates the response table when the module loads. Instead
  `Teddy.Responses` guarantees a non-empty message list for every mood.
- The two teddy pages each carry their own copy of the tables.
  `TeddyCompanion` models that copy and proves it equal to `Teddy`'s.

## Model

| member | source | states |
|---|---|---|
| Teddy.Rank | src/pages/Teddy.tsx:12-19 | moods are ranked in the key order of `moodKeywords` (calm, happy, sad, anxious, angry, confused), which is the order of `Object.entries` |
| Teddy.Responses | src/pages/Teddy.tsx:21-84 | every mood has a response with at least one message, so the random pick is always defined |
| Teddy.AnimationTags | src/pages/Teddy.tsx:30-82 | the animation tags are wave, jump, hug, breathe, sit and tilt for calm, happy, sad, anxious, angry and confused |
| Teddy.CountMatches | src/pages/Teddy.tsx:109-113 | each keyword adds at most one to a mood's score |
| Teddy.ScoreList | src/pages/Teddy.tsx:104-114 | the score vector holds each mood's score at that mood's rank |
| Teddy.MaxOf | src/pages/Teddy.tsx:116 | `Math.max` over the scores is one of them and bounds them all |
| Teddy.FindFrom | src/pages/Teddy.tsx:119 | `find` returns the first mood, in order, whose score equals the target, or none when none does |
| Teddy.PickMood | src/pages/Teddy.tsx:116-119 | the picked mood has the maximal score, and every mood ranked before it scores strictly less |
| Teddy.ClassifyIsFirstMaximal | src/pages/Teddy.tsx:101-120 | `analyzeMood` returns m exactly when m has the maximal score and no earlier mood reaches it (both directions) |
| Teddy.CalmWinsTies | src/pages/Teddy.tsx:116-119 | a text on which calm ties for the highest score is classified as calm |
| Teddy.NoKeywordIsCalm | src/pages/Teddy.tsx:117 | a text containing no keyword of any mood is classified as calm |
| Teddy.CountMatchesNone | src/pages/Teddy.tsx:109-111 | a text containing none of a list's keywords scores 0 on that list |
| Teddy.KeywordsNonEmpty | src/pages/Teddy.tsx:12-19 | no keyword is the empty string, so none matches every text |
| Teddy.EmptyTextIsCalm | src/pages/Teddy.tsx:101-119 | the empty text is classified as calm |
| Teddy.KeywordsHaveNoDuplicates | src/pages/Teddy.tsx:12-19 | no mood's keyword list repeats a keyword |
| Teddy.CountMatchesIsDistinctCount | src/pages/Teddy.tsx:109-113 | on a list without repeats, the score is the number of distinct keywords the text contains |
| Teddy.ScoreIsDistinctKeywordsFound | src/pages/Teddy.tsx:102-113 | each mood's score is the number of its keywords found in the lower-cased text |
| Teddy.CaseInsensitive | src/pages/Teddy.tsx:102 | two texts that agree once lower-cased get the same mood |
| Teddy.ClassifyLowerCased | src/pages/Teddy.tsx:102 | lower-casing the text first does not change its mood |
| Teddy.CountMatchesExtend | src/pages/Teddy.tsx:109-111 | adding text before or after never lowers a list's match count |
| Teddy.ExtendingNeverLowersScore | src/pages/Teddy.tsx:104-113 | adding text before or after never lowers any mood's score |
| Teddy.AnalyzeMood | src/pages/Teddy.tsx:101-120 | the nested `for` loops over moods and keywords, followed by the max and the `find`, return `Classify` of the text |
| Teddy.TeddyPage.constructor | src/pages/Teddy.tsx:307-311 | the page starts with empty input, no mood, empty message and affirmation, not analysing |
| Teddy.TeddyPage.SetInput | src/pages/Teddy.tsx:451-452 | typing replaces the input and changes nothing else |
| Teddy.TeddyPage.HandleAnalyze | src/pages/Teddy.tsx:313-318 | a blank input (after `trim`) changes nothing; otherwise the page is analysing, the mood is cleared and the analysis of the current input is scheduled |
| Teddy.TeddyPage.AnalysisDone | src/pages/Teddy.tsx:319-325 | the timer callback sets the classified mood, a random message of that mood, a random affirmation, and ends the analysis |
| TeddyCompanion.KeywordsAgree | src/components/TeddyMoodCompanion.tsx:9-16 | the companion's keyword lists equal the Teddy page's, mood by mood |
| TeddyCompanion.ResponsesAgree | src/components/TeddyMoodCompanion.tsx:18-81 | the companion's responses equal the Teddy page's, mood by mood |
| TeddyCompanion.AffirmationsAgree | src/components/TeddyMoodCompanion.tsx:83-94 | the companion's affirmations equal the Teddy page's |
| TeddyCompanion.ClassifiersAgree | src/components/TeddyMoodCompanion.tsx:98-117 | the companion classifies every text exactly as the Teddy page does |
| TeddyCompanion.AnalyzeMood | src/components/TeddyMoodCompanion.tsx:98-117 | the companion's `analyzeMood`, typed `Mood` with null, always returns some mood, the one `Classify` gives |
| TeddyCompanion.MoodCompanion.HandleAnalyze | src/components/TeddyMoodCompanion.tsx:206-211 | a blank input changes nothing; otherwise analysis of the input is scheduled and the mood cleared |
| TeddyCompanion.MoodCompanion.AnalysisDone | src/components/TeddyMoodCompanion.tsx:212-218 | the timer callback shows the classified mood with a random message of that mood and a random affirmation |
| MoodBottle.Categories | src/pages/MoodBottle.tsx:27-33 | five emoji categories, each scored between 1 and 5 |
| MoodBottle.FirstCategoryFromIsFirst | src/pages/MoodBottle.tsx:59-64 | the category search from position i finds a category exactly when one from i on lists the emoji, and returns the score of the first such |
| MoodBottle.CategoriesDisjoint | src/pages/MoodBottle.tsx:27-33 | no emoji is listed in two categories |
| MoodBottle.EmojiScoreOfMember | src/pages/MoodBottle.tsx:27-64 | an emoji of category i contributes exactly that category's score |
| MoodBottle.EmojiScoreIffListed | src/pages/MoodBottle.tsx:35-64 | an emoji contributes a score exactly when it is one of `allEmojis` |
| MoodBottle.Contributions | src/pages/MoodBottle.tsx:58-66 | there is at most one contribution per selected emoji, each between 1 and 5 |
| MoodBottle.CalculateMoodScore | src/pages/MoodBottle.tsx:52-69 | the `forEach` loop with its inner `for`/`break` search returns `MoodScore`: 3 for an empty selection, otherwise the rounded mean of the contributions, or 3 when none is recognised |
| MoodBottle.ContributionsStep | src/pages/MoodBottle.tsx:59-64 | one more emoji adds its first category's score, or nothing when no category lists it |
| MoodBottle.SumBounds | src/pages/MoodBottle.tsx:61 | n contributions between 1 and 5 sum to between n and 5n |
| MoodBottle.RoundedMeanBounds | src/pages/MoodBottle.tsx:68 | `Math.round` of a mean of values in 1..5 stays in 1..5 |
| MoodBottle.MoodScoreInRange | src/pages/MoodBottle.tsx:52-69 | the mood score always lies in 1..5 |
| MoodBottle.UnrecognisedScoresThree | src/pages/MoodBottle.tsx:53-68 | a selection with no recognised emoji contributes nothing and scores 3 |
| MoodBottle.MoodLabelSteps | src/pages/MoodBottle.tsx:298-304 | ratings up to 1 share the angry label, ratings from 5 share the happy label, and the five ratings have five distinct labels |
| MoodBottle.Remove | src/pages/MoodBottle.tsx:709-710 | `filter(e => e !== emoji)` removes every copy of the emoji and keeps every other entry with its multiplicity, and keeps a duplicate-free list duplicate-free |
| MoodBottle.RemoveConcat | src/pages/MoodBottle.tsx:709-710 | `filter` keeps the order: filtering a concatenation is the concatenation of the filtered parts |
| MoodBottle.RemoveSingle | src/pages/MoodBottle.tsx:709-710 | a single entry is kept exactly when it differs from the removed emoji |
| MoodBottle.Toggle | src/pages/MoodBottle.tsx:707-712 | the toggled emoji is selected afterwards exactly when it was not; every other emoji keeps its membership and its count; an absent emoji is appended at the end; a duplicate-free selection stays duplicate-free |
| MoodBottle.RemoveAbsent | src/pages/MoodBottle.tsx:710 | filtering out an absent emoji leaves the list unchanged |
| MoodBottle.RemoveAppended | src/pages/MoodBottle.tsx:710-711 | filtering out an emoji just appended to a list without it gives back that list |
| MoodBottle.ToggleTwiceRestores | src/pages/MoodBottle.tsx:707-712 | toggling an absent emoji twice restores the selection |
| MoodBottle.MoodBottlePage.ToggleEmoji | src/pages/MoodBottle.tsx:707-712 | the selection becomes its toggle and stays duplicate-free |
| MoodBottle.MoodBottlePage.SaveMood | src/pages/MoodBottle.tsx:718-728 | nothing is saved without a user or with an empty selection; otherwise the row holds the user, the selection and its mood score |
| MoodBottle.RequiredHitsByScore | src/pages/MoodBottle.tsx:365-367 | moods 3, 2 and 1 need 6, 9 and 12 hits; happy and needing relief are complementary; a happy mood needs 1; every score 1..5 needs 1 to 12 |
| MoodBottle.ComfortOnRequiredHit | src/pages/MoodBottle.tsx:367-401 | a fresh teddy hit n times (each animation ending before the next hit) has counted n hits; for a mood needing relief, comfort is first scheduled by exactly the `requiredHits`-th hit and once more by each later hit, and a happy mood never schedules it |
| MoodBottle.StressReliefTeddy.HandleInteract | src/pages/MoodBottle.tsx:369-401 | ignored while animating; otherwise it animates, counts the hit, and either schedules comfort when due or shows a random happy message for a happy mood |
| MoodBottle.StressReliefTeddy.AnimationDone | src/pages/MoodBottle.tsx:383 | the 300 ms timer ends the animation and nothing else |
| MoodBottle.StressReliefTeddy.ComfortDone | src/pages/MoodBottle.tsx:387-390 | the 500 ms timer comforts the teddy and shows a random comforting message |
| MoodBottle.StressReliefTeddy.CloseMessage | src/pages/MoodBottle.tsx:403-405 | closing hides the message only |
| MoodBottle.StressReliefTeddy.ResetTeddy | src/pages/MoodBottle.tsx:407-411 | the reset clears the hit count, the comfort and the message |
| MoodBottle.StressReliefTeddy.SetMoodScore | src/pages/MoodBottle.tsx:414-416 | a changed mood score resets the teddy; an unchanged one leaves it as it is |
| Preferences.Field | src/pages/Quiz.tsx:11-21 | an optional answer field is present exactly when the record holds it |
| Suggestions.Picks | src/pages/Suggestions.tsx:111-131 | the hobby, drink and dessert rules add at most three activities |
| Suggestions.Activities | src/pages/Suggestions.tsx:111-141 | the activities card always has exactly three items |
| Suggestions.BuildActivities | src/pages/Suggestions.tsx:111-141 | the pushes, the `length < 3` top-up and `slice(0, 3)` build `Activities` |
| Suggestions.GetSuggestions | src/pages/Suggestions.tsx:18-146 | six cards in the order self-care, dates, movies, music, shopping, activities, each with the list its answer selects and the season in the date title |
| Suggestions.ColourTablesShareKeys | src/pages/Suggestions.tsx:22-101 | the self-care and shopping tables list the same colours |
| Suggestions.UnknownColourIsPink | src/pages/Suggestions.tsx:31-106 | a missing or unknown colour falls back to the pink self-care and shopping lists |
| Suggestions.UnknownGenreAndMusicFallBack | src/pages/Suggestions.tsx:70-88 | a missing or unknown genre falls back to rom-com, and a missing or unknown music taste to pop |
| Suggestions.SeasonFallsBackToSpring | src/pages/Suggestions.tsx:51-52 | a missing or unknown season gives the spring dates; the title names the answered season, or Spring when there is none |
| Suggestions.ActivitiesArePicksThenDefaults | src/pages/Suggestions.tsx:111-141 | the activities are the matched picks followed by as many defaults as are needed to make three |
| Suggestions.AllAnswersMatch | src/pages/Suggestions.tsx:113-131 | a recognised hobby, drink and dessert give exactly their three activities and no default |
| Suggestions.NoAnswerMatches | src/pages/Suggestions.tsx:133-134 | with no recognised hobby, drink or dessert the three defaults are shown |
| Home.OptField | src/pages/Home.tsx:30 | `preferences?.field` is undefined when there are no preferences |
| Home.GetSuggestions | src/pages/Home.tsx:20-47 | six cards in the fixed title order, each with the list its answer selects, and the three fixed activities |
| Home.NullPreferencesGiveDefaults | src/pages/Home.tsx:30-42 | without preferences every card shows its fallback list |
| Home.MissingGenresFallBack | src/pages/Home.tsx:35-36 | the quiz's horror and animation genres are missing from this table and fall back to rom-com |
| Home.MissingMusicFallsBack | src/pages/Home.tsx:38-39 | the quiz's R&B and classical tastes are missing from this table and fall back to pop |
| Home.ShoppingListSizes | src/pages/Home.tsx:41 | the shopping lists have one or two items |
| Home.ListSizes | src/pages/Home.tsx:22-32 | every date list has two items and every self-care list three |
| Quiz.QuestionsFollowKeys | src/pages/Quiz.tsx:23-130 | there are nine questions, and question i asks for key i |
| Quiz.KeysAreTheAnswerFields | src/pages/Quiz.tsx:11-130 | the nine question keys are distinct and cover every field of the answer record |
| Quiz.SetAnswer | src/pages/Quiz.tsx:179 | `{ ...prev, [key]: value }` sets that key and keeps every other answer |
| Quiz.SetAnswerOverwrites | src/pages/Quiz.tsx:179 | a second answer to a question replaces the first |
| Quiz.QuizPage.HandleAnswer | src/pages/Quiz.tsx:177-180 | the answer is recorded under the current question's key, and nothing else changes |
| Quiz.QuizPage.HandleNext | src/pages/Quiz.tsx:182-186 | moves one question on, except on the last, where nothing changes |
| Quiz.QuizPage.HandlePrevious | src/pages/Quiz.tsx:188-192 | moves one question back, except on the first, where nothing changes |
| Quiz.QuizPage.HandleSubmit | src/pages/Quiz.tsx:194-206 | no row without a user; otherwise the upserted row holds the user, every answer and the completion time |
| Quiz.ButtonsExclusive | src/pages/Quiz.tsx:232-361 | Next and submit are never both enabled; Back is disabled on question 0; submit is enabled only on the answered last question |
| SeenPanicTimer.StageTimesAreTheTable | src/components/SeenPanicTimer.tsx:24-31 | the stage thresholds 0, 60, 300, 600, 1800 and 3600 are strictly increasing |
| SeenPanicTimer.GetCurrentStage | src/components/SeenPanicTimer.tsx:41-48 | the backward loop returns the stage at `StageIndex` |
| SeenPanicTimer.StageIsLatestReached | src/components/SeenPanicTimer.tsx:41-48 | for elapsed ≥ 0 the stage is the one with the largest threshold not above it |
| SeenPanicTimer.StageMonotone | src/components/SeenPanicTimer.tsx:24-48 | more elapsed time never gives an earlier stage |
| SeenPanicTimer.StageBoundaries | src/components/SeenPanicTimer.tsx:25-30 | 59 s gives the first stage, 60 s the second, and 3600 s or more the last |
| SeenPanicTimer.BoundaryStageNames | src/components/SeenPanicTimer.tsx:25-30 | those stages are Calm, Slightly Concerned and Ghosted Era |
| SeenPanicTimer.ClockOf | src/components/SeenPanicTimer.tsx:87-89 | hrs·3600 + mins·60 + secs = seconds, with mins and secs below 60 |
| SeenPanicTimer.TwoDigitsReadsBack | src/components/SeenPanicTimer.tsx:90 | a zero-padded field has at least two digits, exactly two below 100, and reads back as its number |
| SeenPanicTimer.FormatTimeReadsBack | src/components/SeenPanicTimer.tsx:86-91 | the output is an hour field of two or more digits and two two-digit fields below 60, joined by colons, which add back up to the seconds |
| SeenPanicTimer.StartElapsed | src/components/SeenPanicTimer.tsx:58-60 | the stored seconds are the whole seconds since the seen moment, and 0 when that moment lies in the future |
| SeenPanicTimer.PanicTimer.StartPanic | src/components/SeenPanicTimer.tsx:50-71 | an empty seen time changes nothing; otherwise the timer runs from the clamped elapsed seconds with a random message and both intervals registered |
| SeenPanicTimer.PanicTimer.Tick | src/components/SeenPanicTimer.tsx:64-66 | each tick of the registered interval adds exactly one second |
| SeenPanicTimer.PanicTimer.RotateMessage | src/components/SeenPanicTimer.tsx:68-70 | the four-second interval replaces the message with a random one |
| SeenPanicTimer.PanicTimer.StopPanic | src/components/SeenPanicTimer.tsx:73-77 | stopping ends the run and clears both intervals, keeping the elapsed count |
| SeenPanicTimer.MessagesFromTheList | src/components/SeenPanicTimer.tsx:7-62 | every message shown comes from `panicMessages` |
| Thresholds.SearchBelow | src/components/SeenPanicTimer.tsx:42-47 | the backward search over the first n thresholds returns the last index whose threshold is at most x, or 0 when there is none |
| Thresholds.LastAtMostIsLargestBelow | src/components/DelusionSlider.tsx:18-25 | on an ascending table starting at or below x, the result is the entry with the largest threshold not above x |
| Thresholds.FallbackIffBelowFirst | src/components/DelusionSlider.tsx:24 | the loop falls through to the final return exactly when x is below the first threshold |
| Thresholds.SearchBelowMonotone | src/components/SeenPanicTimer.tsx:42-47 | a larger x never moves the result earlier |
| Thresholds.LastAtMostMonotone | src/components/DelusionSlider.tsx:18-25 | a larger x never gives an earlier entry of an ascending table |
| Thresholds.LastAtMostAtThreshold | src/components/DelusionSlider.tsx:19-23 | x equal to entry i's threshold selects entry i |
| Thresholds.FindLastAtMost | src/components/SeenPanicTimer.tsx:42-47 | the `for` loop from the last entry down returns `LastAtMost` |
| DelusionSlider.LevelValuesAreTheTable | src/components/DelusionSlider.tsx:4-10 | the level values 0, 25, 50, 75 and 100 are strictly increasing |
| DelusionSlider.GetCurrentLevel | src/components/DelusionSlider.tsx:18-25 | the backward loop returns the level at `LevelIndex` |
| DelusionSlider.LevelIsLatestReached | src/components/DelusionSlider.tsx:18-25 | for v ≥ 0 the level is the one with the largest value not above v |
| DelusionSlider.FallbackOnlyBelowZero | src/components/DelusionSlider.tsx:24 | the fallback `levels[0]` is reached exactly for negative values |
| DelusionSlider.LevelMonotone | src/components/DelusionSlider.tsx:4-25 | a higher value never shows an earlier level |
| DelusionSlider.HighlightedPrefix | src/components/DelusionSlider.tsx:79 | the highlighted buttons form a prefix, and for v ≥ 0 they are exactly the buttons up to the current level |
| DelusionSlider.ClickSelectsLevel | src/components/DelusionSlider.tsx:19-77 | the value a click on button i sets selects level i |
| DelusionSlider.Slider.Slide | src/components/DelusionSlider.tsx:60-64 | dragging sets the value within 0..100 |
| DelusionSlider.Slider.ClickLevel | src/components/DelusionSlider.tsx:77 | clicking button i sets that level's value, and the shown level is then level i |
| LateNightMode.NightIsEightHoursFromTen | src/components/LateNightMode.tsx:16 | night is exactly the eight hours from 22:00 round midnight |
| LateNightMode.LateNightMode.CheckTime | src/components/LateNightMode.tsx:14-27 | nothing changes when the hour rule agrees with the flag; otherwise the flag takes the rule's value and reports it, and only entering the night shows the notification and starts its hide timer; the class follows the flag |
| LateNightMode.LateNightMode.HideNotification | src/components/LateNightMode.tsx:24 | the five-second timer hides the notification |
| LateNightMode.LateNightMode.ToggleMode | src/components/LateNightMode.tsx:36-46 | the toggle flips the flag, reports the new value and sets the `late-night` class to match |
| LateNightMode.ToggleTwice | src/components/LateNightMode.tsx:36-46 | two toggles restore the flag, having reported the flipped value and then the original |
| LateNightMode.CheckTwice | src/components/LateNightMode.tsx:14-27 | two checks in the same hour act as one: at most one report, of the rule's value and only when it differs from the flag, and a notification with one hide timer only on entering the night |
| CustomCursor.NewSparkle | src/components/CustomCursor.tsx:37-41 | a sparkle takes the given id and lies within 10 pixels of the pointer on each axis |
| CustomCursor.CustomCursor.UpdateCursor | src/components/CustomCursor.tsx:24-49 | the position is the pointer; the trail keeps the last 12 points ending with it; after more than 50 ms a sparkle with the next id joins the last 8, and the time is recorded; the invariant (trail ≤ 12, sparkles ≤ 9, ids increasing and below the counter) is kept |
| CustomCursor.CustomCursor.Cleanup | src/components/CustomCursor.tsx:57-59 | the cleanup keeps the last 5 sparkles in order and keeps the invariant |
| CustomCursor.TailEndsAtPointer | src/components/CustomCursor.tsx:28-31 | the trail ends at the newest point, preceded by the newest older points in order, at most 12 in all |
| CustomCursor.IdsDistinct | src/components/CustomCursor.tsx:38 | sparkle ids are distinct |
| FloatingHearts.EmojisAreSingleCharacters | src/components/FloatingHearts.tsx:13 | each intended entry is a single emoji character |
| FloatingHearts.AsWrittenIsMisreadEmojis | src/components/FloatingHearts.tsx:13 | each stored entry is the intended emoji, saved as UTF-8 and read back as Windows-1254, and is two to four characters long |
| FloatingHearts.NewHeart | src/components/FloatingHearts.tsx:20-27 | the heart's emoji is one of the given table's, with x in [0, 100), delay in [0, 2), duration in [8, 14) and size in [16, 36) |
| FloatingHearts.AsWrittenHeartIsMisread | src/components/FloatingHearts.tsx:13-27 | with the table as stored, each heart is the intended heart of the same draws except that its emoji is shown misread, and so differs from the intended emoji |
| FloatingHearts.FloatingHearts.AddHeart | src/components/FloatingHearts.tsx:19-29 | the list becomes its last 15 hearts followed by a new heart drawn from the page's table, and holds at most 16 |
| FloatingHearts.AddHeartKeepsNewest | src/components/FloatingHearts.tsx:28 | at most 16 hearts, the new one last, the kept ones the newest earlier hearts in order, and none dropped when there were at most 15 |
| Js.RandomIndex | src/pages/Teddy.tsx:99 | `Math.floor(r * len)` is a valid index for every draw in [0, 1) |
| Js.RandomItemInList | src/pages/Teddy.tsx:99 | the pick is an element of the list, and every element can be picked |
| Js.TakeLast | src/components/CustomCursor.tsx:30 | `slice(-n)` gives the last n elements, or all when there are fewer |
| Js.RoundDiv | src/pages/MoodBottle.tsx:68 | `Math.round(t / c)` is the quotient rounded half up |
| Js.Digits | src/components/SeenPanicTimer.tsx:90 | `toString` gives decimal digits without a leading zero |
| Js.ParsePaddedDigits | src/components/SeenPanicTimer.tsx:90 | `padStart(w, '0')` of a number's digits reads back as the number |
| Js.TrimEmptyIffBlank | src/pages/Teddy.tsx:314 | `trim()` is empty exactly when the text is all whitespace |
| Js.ToLowerIdempotent | src/pages/Teddy.tsx:102 | lower-casing twice is lower-casing once |
| Js.IncludesExtend | src/pages/Teddy.tsx:110 | a substring of a text is also a substring of any extension of it |

## Left out

- Backend I/O is not modelled. This covers all hosted-backend calls: session checks, sign-in and sign-out, the profile and preference `select`s, the quiz `upsert`, the mood `insert`, toasts and redirects. They are calls into a foreign SDK. The model keeps only the guards around them and the rows they would send. It keeps `userId` as an `Option` set by a `SignedIn` method, and represents the completion timestamp as an input.
- Rendering and animation are not modelled: the motion props, colours used only for styling, progress bars, sound (`playChime`), the bear poses (`getAnimationVariant`) and the stage and level `color` strings beyond their table values.
- React's scheduling is not modelled. Every `setTimeout`/`setInterval` callback is one atomic method. This leaves out effect re-run ordering (for example LateNightMode re-running `checkTime` right after a manual toggle), stale closures over `hitCount`, and the delays themselves.
- Dates and time zones are not modelled. Neither is any clock reading: `new Date()`, `setHours` and `Date.now()`. The panic timer takes "now" and the seen moment in milliseconds. Late-night mode takes the hour as a parameter. The cursor takes the time of each move.
- `Math.random` itself is not modelled. Every draw is a parameter in [0, 1).
- `FloatingHearts.NewHeart`, `FloatingHearts.FloatingHearts.AddHeart`: they take the emoji table as a parameter, the constructor's argument for the class. The page as the file stores it is the instance over `EmojisAsWritten()`, whose hearts `AsWrittenHeartIsMisread` relates to the intended instance over `Emojis()`; no single member fixes the table to one of the two.
- `CustomCursor.NewSparkle`, `FloatingHearts.NewHeart`: floating point is modelled with exact reals, with no rounding.
- `Js.ToLower`: only ASCII letters are lower-cased. Full Unicode case mapping is not modelled.
- Lookups through JavaScript objects (`table[key]`) are modelled as total functions on strings. Prototype keys such as `"constructor"` are not modelled.
- `Teddy.CalmWinsTies`: the concrete sentence "I'm fine but a bit tired" is not evaluated against the full keyword tables. Evaluating it on literal strings would be too costly for the verifier. The general tie rule it illustrates is proved instead.
- `Suggestions.GetSuggestions`, `Home.GetSuggestions`: they take their lookup tables as a parameter. `PageTables()` and `HomeTables()` are the pages' own tables. The connection to those literal tables is made by the fallback lemmas, not by the method's contract.
- `DelusionSlider.Slider.Slide`: the slider widget that restricts drags to 0..100 in steps of 1 is not modelled beyond that precondition.
- The pointer-hover test (`closest(...)` over the event target) is not modelled. It is an input `clickable` of `UpdateCursor`.

## Findings

| source | as written | input that shows it | evidently intended | confidence | as-written member | corrected member |
|---|---|---|---|---|---|---|
| src/components/FloatingHearts.tsx:13 | the `emojis` table holds mojibake such as `ğŸ’•`. Each entry is the UTF-8 bytes of an emoji read back as Windows-1254 text, and two entries also lost the bytes that code page leaves undefined | any heart drawn with index 0, say with `Math.random()` = 0: it shows the four characters `ğŸ’•` instead of 💕 | the ten single-character emojis 💕 💖 ✨ 🌸 💗 🎀 ⭐ 💫 🌙 🦋 | high; not executed | FloatingHearts.AsWrittenIsMisreadEmojis | FloatingHearts.EmojisAreSingleCharacters |
