# Rewire Quest progression model

A Dafny model of the core of Rewire Quest, a habit-change journal with a
three-level progression. The user faces an urge ("a wave"), goes through a
90-second guided exercise, writes down a feeling and a trigger, and reports
whether they resisted. Successes advance the day at most once per calendar
date and earn points. Failures step the day back, never below the first day
of the current level. At level 2 a surprise check-in may interrupt the user
and award bonus control points. A generative-text service supplies an
insight, a suggestion and alternative activities, each with a fixed fallback.

Modules, one per source file except `App.tsx`, whose pure transitions (`Progression`) and mutable session state (`App`) are two modules:

- `Types` (`types.dfy`): the `LogEntry` and `GameState` records, with `Option` for the nullable fields.
- `WaveJournal` (`journal.dfy`): the journal modal.
  - ECMAScript `trim` and the submit guard.
  - The three exercise phases.
  - The `Modal` class, whose `step`, `timer`, `feeling` and `trigger` change tick by tick.
- `Environment` (`environment.dfy`): the energy-to-stage thresholds.
- `Gemini` (`gemini.dfy`): the service wrapper.
  - The log transcript put into every prompt, with its day rendering read back and its lines split back.
  - The trigger a suggestion is asked about.
  - The fallback results.
- `Progression` (`progression.dfy`): the pure state machine of `App.tsx`.
  - The submission transition, the surprise answer and the insight record.
  - The surprise trigger.
  - The invariant `Consistent`, proved for every state that a run of events reaches from the initial state.
- `App` (`app.dfy`): the component's mutable session state as a class. Its handlers and effects are methods specified by the `Progression` functions.

Inputs that the source reads from its environment are parameters:

- The two clock reads of a submission (`Clock.logTime`, `Clock.successTime`).
- The local-time calendar date (`calendarDate: int -> string`, standing for `toDateString`).
- The clock reading of a surprise evaluation.
- The random wait, a `real` in [3600000, 7200000).
- Every service reply (`TextReply`, `AlternativesReply`).

Behaviour of the code worth noting:

- With no logs the elapsed time is `Infinity`, so the surprise trigger fires. `Progression.Level2HasLogs` shows this case cannot arise from the initial state.
- A present `alternatives` array is returned as is, even when empty and whatever its length. The prompt asks for 3 (services/geminiService.ts:67), but nothing bounds the count.
- The blank-field check lives in the journal modal, not in the transition.
  - `Progression.SubmitWave` accepts any submission.
  - `WaveJournal.Modal.HandleSubmit` lets through only non-blank fields.
  - `App.Component.SubmitFromJournal` composes the two.
- A stored empty-string suggestion is fetched again the next time the effect runs (when `currentDay`, `level` or `insightRequested` change, App.tsx:66), because `!aiSuggestion` is true for "".
- A last-success timestamp of 0 counts as no prior success, because 0 is falsy.

## Model

| member | source | states |
|---|---|---|
| `Progression.InitialState` | App.tsx:17-27 | The initial save-state has no logs and satisfies the reachability invariant: day 1, level 1, zero counters, no insight. |
| `Progression.LevelOf` | App.tsx:112-114 | Every day maps to a level in 1..3, and a positive day is never below its level's floor. |
| `Progression.LevelFloorIsFirstDay` | App.tsx:108 | The floors 1, 4 and 8 are the first days of levels 1, 2 and 3. |
| `Progression.LevelOfMonotone` | App.tsx:112-114 | A later day never has a lower level. |
| `Progression.LevelFloor` | App.tsx:108 | The day a failure cannot go below: 1, 4 or 8 for levels 1, 2, 3, and 8 for any other level. `LevelFloorIsFirstDay` shows each is its level's first day. |
| `Progression.StartsNewDate` | App.tsx:96-98 | A success counts as a new date when there is no last success, when it is 0 (falsy), or when the two calendar dates differ. `AtMostOneAdvancePerDate` relies on it. |
| `Progression.SubmitWave` | App.tsx:84-126 | Appends one log, stamped with the pre-update day and the log time, after the untouched earlier logs. A success on a new date (or with no prior success) adds 1 to the day and records the success time. A same-date success leaves both unchanged. A failure sets the day to max(floor(level), day-1). The level becomes LevelOf(new day). A success adds exactly 1 to the counter of the pre-update level (1 awareness, 2 control, 3 energy), leaving the others unchanged. A failure, or a level outside 1..3, changes no counter. The insight fields are unchanged. |
| `Progression.SubmitNeverLowersLevel` | App.tsx:107-114 | From a consistent state a failure keeps the level and a success never lowers it. |
| `Progression.SubmitKeepsConsistent` | App.tsx:84-126 | A submission with non-blank fields preserves the invariant. |
| `Progression.AtMostOneAdvancePerDate` | App.tsx:94-101 | Of two successes on the same calendar date, the second never advances the day, whatever failures, check-in answers and insight replies come between them (unless the first success was stamped 0, which counts as no prior success; see `StartsNewDate`). |
| `Progression.RunKeepsLastSuccess` | App.tsx:94-101 | Events without a success (failures, check-in answers, insight replies) leave the last-success time unchanged. |
| `Progression.AnswerSurprise` | App.tsx:131-137 | Answering the check-in adds the points to `controlPoints` and changes nothing else. |
| `Progression.WantsInsight` | App.tsx:59 | The effect asks for the insight from day 4 on, once only. |
| `Progression.CanFetchInsight` | App.tsx:41 | The fetch runs only with some logs and no insight requested yet. |
| `Progression.InsightGuardImplied` | App.tsx:41-59 | In a consistent state, day ≥ 4 with no insight requested implies at least three logs, so the fetch's own guard always holds. |
| `Progression.RecordInsight` | App.tsx:44 | Storing the insight sets it and marks it requested, and changes nothing else. |
| `Progression.ReceiveInsight` | App.tsx:40-61 | The insight is stored (the reply text or the apology) only when both guards hold; otherwise the state is unchanged. |
| `Progression.RunKeepsConsistent` | App.tsx:84-136 | Any run of events from a consistent state ends in a consistent state, provided its submissions passed the journal guard. |
| `Progression.ReachableIsConsistent` | App.tsx:17-27 | Every state reached from the initial state is consistent. In particular its level is LevelOf(currentDay) and lies in 1..3. |
| `Progression.RunMonotone` | App.tsx:84-136 | Along any run the three counters never decrease. The logs keep their prefix and grow by one per submission. A requested insight stays requested and unchanged. |
| `Progression.RunLevelNeverDrops` | App.tsx:107-114 | Along any run from a consistent state the level never decreases. |
| `Progression.ElapsedSinceLastLog` | App.tsx:71 | The elapsed time is unbounded exactly when there are no logs. Otherwise it is now minus the last log's timestamp. |
| `Progression.ValidWait` | App.tsx:73 | The random wait `Math.random() * 3600000 + 3600000` lies in [1 h, 2 h); `ShouldOpenSurprise` and `App.Component.SurpriseCheck` take any such draw. |
| `Progression.ShouldOpenSurprise` | App.tsx:70-74 | The check-in opens only at level 2 with the journal closed and no check-in showing. It never opens within an hour of the last log. It always opens, when those gates hold, if there are no logs or the last log is two hours old. |
| `Progression.Level2HasLogs` | App.tsx:70-71 | A consistent level-2 state has at least three logs, so the unbounded case never applies there. |
| `Progression.FirstSuccess` | App.tsx:94-114 | From the initial state a success gives day 2, level 1 and one awareness point. |
| `Progression.FailureAtFloor` | App.tsx:107-114 | A failure on day 4 at level 2 leaves day 4 and level 2. |
| `Progression.SuccessIntoLevel3` | App.tsx:94-114 | A new-date success on day 7 gives day 8 and level 3, and awards the point to the control counter. |
| `App.WantsSuggestion` | App.tsx:50-62 | The suggestion is asked for at level 3, with no suggestion or an empty one (falsy), and some logs. `App.Component.SuggestionEffect` uses it. |
| `App.Component.constructor` | App.tsx:12-34 | A session starts from the initial save-state with the journal and check-in closed and no suggestion. |
| `App.Component.OpenJournal` | App.tsx:186 | Opens the journal and changes nothing else. |
| `App.Component.CloseJournal` | App.tsx:201 | Closes the journal and changes nothing else. |
| `App.Component.HandleWaveSubmit` | App.tsx:84-129 | Applies `SubmitWave` to the save-state, keeps the invariant and closes the journal. |
| `App.Component.SubmitFromJournal` | App.tsx:201 | Called only with the journal open and in its journal step. A submit press changes the save-state, via `SubmitWave`, exactly when both fields are non-blank. Otherwise nothing changes and no log is added. |
| `App.Component.HandleSurpriseTestAnswer` | App.tsx:131-137 | Applies `AnswerSurprise`, keeps the invariant and closes the check-in. |
| `App.Component.DismissSurpriseTest` | App.tsx:202 | Closes the check-in and changes nothing else. |
| `App.Component.SurpriseCheck` | App.tsx:68-81 | The check-in becomes shown exactly when `ShouldOpenSurprise` holds; nothing else changes. |
| `App.Component.InsightEffect` | App.tsx:58-61 | Applies `ReceiveInsight` and keeps the invariant. |
| `App.Component.SuggestionEffect` | App.tsx:49-64 | At level 3, with no (or an empty) suggestion and some logs, stores the reply or its fallback. Otherwise it keeps the old suggestion. |
| `WaveJournal.ExercisePhase` | components/WaveJournalModal.tsx:26-29 | The phase is Breathe above 60 s, Move for 31..60 s and Notice at 30 s or less. |
| `WaveJournal.PhaseNeverGoesBack` | components/WaveJournalModal.tsx:26-29 | As the timer falls the phase only moves forward. |
| `WaveJournal.TrimStart` | components/WaveJournalModal.tsx:33 | The result is a suffix of the input. It is empty or starts with a non-whitespace character, and everything removed is whitespace. |
| `WaveJournal.TrimEnd` | components/WaveJournalModal.tsx:33 | The result is a prefix of the input. It is empty or ends with a non-whitespace character, and everything removed is whitespace. |
| `WaveJournal.Trim` | components/WaveJournalModal.tsx:33 | The trimmed text is a contiguous piece of the input with only whitespace cut before and after it. It is empty, or begins and ends with non-whitespace. |
| `WaveJournal.TrimEmptyIffBlank` | components/WaveJournalModal.tsx:33 | `trim()` gives the empty (falsy) string exactly when every character is whitespace. |
| `WaveJournal.Modal.constructor` | components/WaveJournalModal.tsx:10-13 | The modal opens in the exercise step with the timer at 90 and empty fields. |
| `WaveJournal.Modal.Tick` | components/WaveJournalModal.tsx:15-24 | While exercising with time left the timer drops by exactly 1. At 0 the journal step opens. The timer stays in [0, 90], and the fields are untouched. |
| `WaveJournal.Modal.SetFeeling` | components/WaveJournalModal.tsx:74 | Typing replaces the feeling and nothing else. |
| `WaveJournal.Modal.SetTrigger` | components/WaveJournalModal.tsx:81 | Typing replaces the trigger and nothing else. |
| `WaveJournal.Modal.HandleSubmit` | components/WaveJournalModal.tsx:32-37 | A submission is produced exactly when neither field is blank. It carries the untrimmed fields and the chosen outcome. |
| `WaveJournal.RunCountdown` | components/WaveJournalModal.tsx:15-24 | From any exercise point the journal opens after exactly the remaining seconds plus one firing. The timer ends at 0, never below. |
| `Environment.StageOf` | components/Environment.tsx:9-15 | The stage is the highest one whose threshold (10, 25, 50, 100) the energy reaches, and Seed otherwise. |
| `Environment.StageMonotone` | components/Environment.tsx:9-15 | More energy never shows an earlier stage. |
| `Environment.StageBands` | components/Environment.tsx:10-14 | City at ≥100, Island at 50..99, Garden at 25..49, Sapling at 10..24, Seed below 10. |
| `Gemini.IntToDecimal` | services/geminiService.ts:10 | `${log.day}`: a '-' for a negative day, then the digits of its magnitude. `IntToDecimalRoundTrip` reads it back. |
| `Gemini.NatToDecimal` | services/geminiService.ts:10 | A day renders as a non-empty string of decimal digits with no leading zero. |
| `Gemini.NatToDecimalRoundTrip` | services/geminiService.ts:10 | The digits of a natural number read back as that number. |
| `Gemini.IntToDecimalRoundTrip` | services/geminiService.ts:10 | The rendered day, sign included, parses back to the day. |
| `Gemini.JoinLines` | services/geminiService.ts:11 | A join of lines starts with the first line. |
| `Gemini.SplitJoin` | services/geminiService.ts:11 | Splitting a join of newline-free lines at '\n' gives back the lines. |
| `Gemini.OutcomePhrase` | services/geminiService.ts:10 | The success phrase for a resisted wave, the failure phrase otherwise. |
| `Gemini.FormatLog` | services/geminiService.ts:10 | One line: prefix, day, quoted feeling, quoted trigger, outcome phrase. `LineDayOfFormatLog`, `FormatLogQuotesFields` and `FormatLogOutcome` read each part back. |
| `Gemini.LogLines` | services/geminiService.ts:9-10 | One line per log, in log order. |
| `Gemini.FormatLogsForPrompt` | services/geminiService.ts:7-12 | The transcript is the fixed "no logs yet" text exactly when there are no logs. |
| `Gemini.TranscriptLines` | services/geminiService.ts:9-11 | With newline-free fields, the transcript splits into exactly one line per log, in order. |
| `Gemini.LineDayOfFormatLog` | services/geminiService.ts:10 | The day read back from a log's line is that log's day. |
| `Gemini.FormatLogQuotesFields` | services/geminiService.ts:10 | A line quotes the log's feeling and trigger verbatim, at their fixed places. |
| `Gemini.FormatLogOutcome` | services/geminiService.ts:10 | A line ends with the success phrase exactly when the log succeeded, and otherwise with the failure phrase. |
| `Gemini.CommonTrigger` | services/geminiService.ts:42 | The trigger is the last log's, or the default "boredom" text when there are none. |
| `Gemini.CommonTriggerIsLatest` | services/geminiService.ts:42 | After a log is appended, the suggestion is asked about that log's trigger. |
| `Gemini.AnalyzeJournal` | services/geminiService.ts:28-35 | The insight is the reply text, or the fixed apology on failure. |
| `Gemini.GetPersonalizedSuggestion` | services/geminiService.ts:53-61 | The suggestion is the reply text, or "try taking 3 deep breaths" on failure. |
| `Gemini.GetSurpriseTestAlternatives` | services/geminiService.ts:88-93 | A present `alternatives` field is returned unchanged, even when empty. A missing field, a parse failure or an error gives the fixed 3-item list. |

## Left out

- Persistence: the `localStorage` read and `JSON.parse` at start-up (App.tsx:13-15) and the save after every change (App.tsx:37). Loaded blobs are not validated, so the invariant covers only states reached from the initial value.
- The generative-text SDK calls and the prompt templates around the transcript (services/geminiService.ts:5, 14-31, 44-56, 62-87). Each call's outcome is an input reply value. A `response.text` that is not a string, and an `alternatives` field that holds something other than an array of strings, are not modelled.
- Clock, calendar and randomness (`Date.now`, `new Date`, `toDateString`, `Math.random`) are parameters, not computed. Time zones are inside the abstract `calendarDate`.
- Scheduling: when React runs effects, effects firing twice, the one-second `setTimeout` before the check-in opens, the `setInterval` period, and the ordering of asynchronous replies. Each effect is one atomic method call. The insight and suggestion replies are applied to the state current when they arrive.
- The `console.error` diagnostics on a failed service call (services/geminiService.ts:34, 59, 91): logging only; the fallback value is modelled.
- The loading flags `isLoadingInsight` and `isLoadingSuggestion` (App.tsx:31, 33): presentation only.
- Rendering: JSX, CSS, the SVG ring arithmetic with `Math.PI` (components/WaveJournalModal.tsx:55-56), the level labels of `getLevelInfo` (App.tsx:139-146), the phase colours and labels, the stage emoji and texts, and the `alert` on a blank field. components/AiInsightCard.tsx and components/SurpriseTestCard.tsx are not part of this model, except the constant 2 points that the check-in card passes (components/SurpriseTestCard.tsx:28).
- The new log's `day` is read from the rendered state (App.tsx:87) while the updater reads `prev` (App.tsx:92). The model reads both from the one current state, which is what a single submission between renders sees.
- Numbers are unbounded integers, and the random wait is a real. JavaScript's double precision limits are not modelled. String lengths count code points, not UTF-16 code units.
- App.Component.HandleWaveSubmit: requires non-blank fields, which the source does not check here. Its only caller, the journal modal, guarantees them (see `SubmitFromJournal`). The requirement keeps the non-blank-log part of the invariant.
- App.Component.HandleSurpriseTestAnswer: requires non-negative points, which the source does not check. Its only caller passes 2. The requirement keeps the counters non-negative.
