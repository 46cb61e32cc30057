# Well-being tracker: state container and page logic in Dafny

This project models the logic of a single-user well-being tracker, a
client-rendered application. The user logs moods, writes journal entries
(optionally starting from a generated writing prompt), tracks habits per day,
chats with a supportive assistant, and views mood trends.

What is modelled:

- **The state container** (`AppProvider`, from `src/components/app-provider.tsx`).
  - The state is three collections (mood logs, journal entries, habits) plus a loading flag.
  - Actions form a closed set. `Other` stands for any tag the reducer does not handle.
  - `Step` is the pure reducer.
  - `WriteFor` chooses, as an abstract command, the document-store write that the optimistic dispatch issues for an action. There is at most one, and there is none for `SET_*` actions, unknown tags, or a toggle whose id is not found.
  - The `Store` class runs the local step, records the issued writes, and performs the initial load with its always-clear-loading outcome.
- **The page logic**:
  - the habits page's per-day join, its progress figures, its today-only controls and its form handlers (`HabitsClient`);
  - the seven-day "first log of the day" series, and the thirty-day count per mood with its labels (`TrendsClient`);
  - today-detection and the mood save handler (`MoodTrackerClient`);
  - the journal save handler and the prompt request (`JournalClient`);
  - the chat transcript state machine (`ChatbotClient`).
- **JavaScript's `trim` and first-letter upper-casing** (`JsText`), which the form guards and the chart labels rely on.

Time works as follows:

- Timestamps are integers (milliseconds).
- The calendar day of a timestamp is a function parameter `dayOf`, and today is a day number.
- "Thirty days ago" is a timestamp parameter.
- The ids that the source makes from `Date.now().toString()` are parameters, and the model never assumes they are unique.
- The text-generation calls are parameters too: a reply is `Some(text)`, and a failed call is `None`.

The reducer is modelled exactly as written. Three points about the code matter, because the habits page expects otherwise:

- `ADD_HABIT` prepends the habit. It creates no completion record and sorts nothing.
- The state has no habit-completion collection, and the action set has no completion actions.
- `TOGGLE_HABIT` changes the `completed` flag stored on the habit itself.

The habits page reads `state.habitCompletions`, which the state does not have. `HabitsClient.PageView` models the page as it stands: with that field `undefined`, the per-day lookup throws as soon as there is one habit, so the list and its checkboxes never render. The per-day join `HabitsClient.HabitsForDay` takes the completion records as a separate parameter, so the rest of the page can be stated as if the field existed.

The toggle the page sends carries `habitId` and `date`, but no `id`. The reducer and the writer match on `id`, so the toggle is lost (see Findings). Adding the `id` alone would not help the page either, because the page shows each day's completion record, never the habit's own flag (`HabitsClient.ToggleByIdNotShown`). The corrected model is a per-(habit, day) record update, `HabitsClient.ToggleCompletion`.

Renaming a habit from the page has a related effect. The form receives the habit from the per-day view, whose `completed` comes from that day's record, and `UPDATE_HABIT` stores it over the habit's own flag (`HabitsClient.RenameStoresViewFlag`).

## Model

| member | source | states |
|---|---|---|
| `Types.MoodName` | src/lib/types.ts:1 | each of the five moods has its non-empty string value |
| `Types.MoodNameInjective` | src/lib/types.ts:1 | the five string values are pairwise distinct, so two moods have the same name only when they are the same mood |
| `JsText.Trim` | src/components/habits-client.tsx:66 | `trim` never lengthens its input, and a non-empty result neither starts nor ends with whitespace |
| `JsText.TrimIsSlice` | src/components/habits-client.tsx:66 | `trim` returns one contiguous slice of the input; what it cuts from either end is all whitespace |
| `JsText.BlankIffAllWhitespace` | src/components/journal-client.tsx:49 | `trim` returns the empty string exactly when every character of its input is whitespace (the empty string included) |
| `JsText.IsBlank` | src/components/journal-client.tsx:49 | the `!s.trim()` guard holds exactly when every character of the field is whitespace |
| `JsText.ToUpper` | src/components/trends-client.tsx:72 | `toUpperCase` maps each lower-case ASCII letter to the upper-case letter at the same place in the alphabet, and leaves every other character unchanged |
| `JsText.Capitalize` | src/components/trends-client.tsx:72 | the label has the same length as the name, its first character upper-cased and the rest unchanged |
| `AppProvider.IdMatches` | src/components/app-provider.tsx:58 | `habit.id === action.payload.id` holds only when the payload has an id equal to the habit's, so never for a payload without an id |
| `AppProvider.SetCompleted` | src/components/app-provider.tsx:57-59 | the toggle's `map` keeps the length; each habit whose id equals the payload's gets the new flag with its id and name kept, and every other habit is unchanged |
| `AppProvider.ReplaceHabit` | src/components/app-provider.tsx:66-68 | the update's `map` keeps the length and every position's id; each habit with the payload's id becomes the payload, and every other habit is unchanged |
| `AppProvider.RemoveHabit` | src/components/app-provider.tsx:70-71 | the filter keeps exactly the habits whose id differs from the deleted one, and never grows the list |
| `AppProvider.Step` | src/components/app-provider.tsx:40-75 | each action changes at most its own field: `loading` only through `SET_LOADING`, mood logs and journal entries only through their set and add actions, habits only through the habit actions; toggle and update keep the habit count, and delete never raises it |
| `AppProvider.SetActionsReplaceOneField` | src/components/app-provider.tsx:42-49 | each `SET_*` action replaces its own field, and the other three are unchanged |
| `AppProvider.AddRecordPrepends` | src/components/app-provider.tsx:50-53 | `ADD_MOOD_LOG` and `ADD_JOURNAL_ENTRY` put the record first and keep the old records behind it in order (length + 1); other fields are unchanged |
| `AppProvider.AddHabitPrepends` | src/components/app-provider.tsx:61-62 | `ADD_HABIT` puts the habit first, keeps the old habits in order behind it, and leaves logs, entries and loading unchanged |
| `AppProvider.UpdateHabitReplacesMatching` | src/components/app-provider.tsx:63-69 | `UPDATE_HABIT` keeps length, order and ids; every habit with the payload's id becomes the payload, and all others are untouched |
| `AppProvider.ToggleHabitSetsCompleted` | src/components/app-provider.tsx:54-60 | `TOGGLE_HABIT` keeps length, order, ids and names, and sets `completed` only on habits whose id matches; with no match the whole state is unchanged |
| `AppProvider.ToggleWithoutIdIsNoOp` | src/components/app-provider.tsx:58 | a toggle payload without an `id` leaves the state unchanged |
| `AppProvider.RemoveHabitKeepsOrder` | src/components/app-provider.tsx:71 | deleting distributes over concatenation, so the surviving habits keep their relative order |
| `AppProvider.RemoveAbsentIsIdentity` | src/components/app-provider.tsx:71 | deleting an id that no habit carries leaves the list unchanged |
| `AppProvider.DeleteHabitRemoves` | src/components/app-provider.tsx:70-71 | after `DELETE_HABIT(id)`, no habit has that id and every other habit survives; other fields are unchanged; deleting twice equals deleting once |
| `AppProvider.OtherIsNoOp` | src/components/app-provider.tsx:72-73 | an unhandled action tag returns the state unchanged |
| `AppProvider.WriteFor` | src/components/app-provider.tsx:143-167 | `SET_*` actions and unknown tags choose no write; a toggle's write, when there is one, is a merge of the document with the payload's id, carrying the new flag |
| `AppProvider.FindHabit` | src/components/app-provider.tsx:151 | `find` returns the first habit whose id matches the payload's, and nothing exactly when none matches |
| `AppProvider.WriteRouting` | src/components/app-provider.tsx:143-167 | each add, update and delete action issues exactly one write, to the right collection and keyed by the payload's id; `SET_*` actions and unknown tags issue none |
| `AppProvider.ToggleWriteOnlyIfFound` | src/components/app-provider.tsx:150-155 | a toggle writes exactly when its id is found among the pre-dispatch habits; the written habit carries the new flag and is the one the reducer put in the new state |
| `AppProvider.Store.constructor` | src/components/app-provider.tsx:28-33 | the initial state has empty collections, `loading` set, and no writes issued |
| `AppProvider.Store.Dispatch` | src/components/app-provider.tsx:104 | the reducer's own dispatch applies one step and issues no write |
| `AppProvider.Store.EnhancedDispatch` | src/components/app-provider.tsx:138-172 | the local state becomes the reducer's step, whatever happens to the write; the write log grows by the write chosen from the pre-dispatch state (at most one) |
| `AppProvider.Store.FetchData` | src/components/app-provider.tsx:107-133 | `loading` ends false whether or not a read fails; collections dispatched before the first failed read stay set, later ones keep their old value; no write is issued |
| `HabitsClient.FindCompletion` | src/components/habits-client.tsx:40 | returns the first record matching (habit id, day string), and nothing exactly when none matches |
| `HabitsClient.HabitsForDay` | src/components/habits-client.tsx:38-43 | the per-day view has the habits' length and order, with each id and name kept; an entry is completed iff the first matching record for that day says so |
| `HabitsClient.PageView` | src/components/habits-client.tsx:38-43 | with the provider's state, which has no completion records, the page's per-day view fails exactly when there is at least one habit; with no habits it is empty, and with records present it is the per-day join |
| `HabitsClient.NoRecordMeansNotCompleted` | src/components/habits-client.tsx:41 | a habit with no record for the selected day shows as not completed |
| `HabitsClient.CountCompleted` | src/components/habits-client.tsx:45-46 | `0 <= completedHabits <= totalHabits`; it equals the total iff every entry is completed, and is 0 iff none is |
| `HabitsClient.Progress` | src/components/habits-client.tsx:47 | progress lies in [0, 100], is 0 with no habits, and is 100 exactly when there are habits and all are completed |
| `HabitsClient.SelectedDay` | src/components/habits-client.tsx:97 | `selectedDate \|\| new Date()`: the calendar's selected day, or today when nothing is selected |
| `HabitsClient.ControlEnabled` | src/components/habits-client.tsx:97 | the dialog's save and cancel buttons are always enabled; a disabled control means a day other than today is selected |
| `HabitsClient.EditingOnlyToday` | src/components/habits-client.tsx:97 | the add, edit, delete and toggle controls are enabled iff the selected date is today (no selection means today) |
| `HabitsClient.ToggleActionAsWritten` | src/components/habits-client.tsx:50 | the payload the page sends has `habitId`, `date` and the checked value, and no `id` |
| `HabitsClient.HabitToggleIsLost` | src/components/habits-client.tsx:49-51 | the toggle as the page sends it leaves the state unchanged and issues no write |
| `HabitsClient.ToggleByIdTakesEffect` | src/components/habits-client.tsx:49-51 | with the habit's id in the payload, every habit with that id gets the checked value, the others are untouched, and a write is issued iff such a habit exists |
| `HabitsClient.ToggleByIdNotShown` | src/components/habits-client.tsx:38-51 | a toggle that sets only the habit's own flag leaves the per-day view of every day unchanged, because the view reads the completion records |
| `HabitsClient.MarkCompletion` | src/components/habits-client.tsx:50 | keeps the length and every record's (habit, day) key; records for the toggled key get the new flag, all others are unchanged |
| `HabitsClient.ToggleCompletion` | src/components/habits-client.tsx:50 | the per-day toggle the page intends: when the (habit, day) key exists, every record keeps its key and position, records of that key get the checked value and all others are unchanged; when it does not, the old records are kept in order and exactly one record for that key, with the checked value, is appended |
| `HabitsClient.ToggleKeepsKeysUnique` | src/components/habits-client.tsx:50 | if no two records share a (habit, day) key before the toggle, none do after it |
| `HabitsClient.FindAfterToggle` | src/components/habits-client.tsx:40-50 | after the intended toggle, the lookup of the toggled (habit, day) finds the checked value, and every other key finds what it found before |
| `HabitsClient.ToggleCompletionShows` | src/components/habits-client.tsx:38-51 | after the intended toggle, the toggled habit's checkbox on that day shows the checked value, the other habits are unchanged, and every other day's view is as it was |
| `HabitsClient.ToggleCompletionIdempotent` | src/components/habits-client.tsx:50 | toggling the same (habit, day) twice with the same value gives what toggling once gave, so no duplicate record appears |
| `HabitsClient.RenameStoresViewFlag` | src/components/habits-client.tsx:75-79 | renaming a habit taken from the per-day view stores the view's `completed` (from that day's record) and the new name on every habit with that id |
| `HabitsClient.HabitsPage.constructor` | src/components/habits-client.tsx:31-34 | the page starts on today, with the form closed, nothing being edited, and an empty name |
| `HabitsClient.HabitsPage.OpenForm` | src/components/habits-client.tsx:53-57 | the form opens on the given habit with its name, or empty for a new habit |
| `HabitsClient.HabitsPage.CloseForm` | src/components/habits-client.tsx:59-63 | the form closes and is cleared |
| `HabitsClient.HabitsPage.SaveHabit` | src/components/habits-client.tsx:65-90 | a blank name dispatches nothing and keeps the form; otherwise an edit dispatches `UPDATE_HABIT` with the edited habit's id and the new name, a new habit dispatches `ADD_HABIT` with the fresh id and the name, and the form closes |
| `HabitsClient.HabitsPage.HabitToggle` | src/components/habits-client.tsx:49-51 | dispatches the toggle carrying the selected day's key and the checked value (as written) |
| `HabitsClient.HabitsPage.DeleteHabitById` | src/components/habits-client.tsx:92-95 | dispatches `DELETE_HABIT`, which issues exactly one delete write for that id |
| `TrendsClient.MoodCounts.Set` | src/components/trends-client.tsx:48 | assigning one mood's counter (as in `moodCounts[m] = 1` and `moodCount[m]++` at line 67) sets that counter and leaves the other four unchanged |
| `TrendsClient.LogsOn` | src/components/trends-client.tsx:34-36 | the day filter keeps only logs of that day; it is empty iff no log falls on the day; its first element is the first such log in list order |
| `TrendsClient.DayCounts` | src/components/trends-client.tsx:38-49 | every counter of a day is 0 or 1, and the counters are all zero exactly when no log falls on the day |
| `TrendsClient.WeeklyData` | src/components/trends-client.tsx:28-54 | exactly 7 points for days today-6 … today, oldest first, each holding that day's counters |
| `TrendsClient.DayCountsFirstOfDay` | src/components/trends-client.tsx:38-49 | every counter is 0 or 1 and at most one is 1; a day without logs is all zero; the 1 sits exactly at the mood of the first log that falls on the day |
| `TrendsClient.CountSince` | src/components/trends-client.tsx:65-67 | one mood's thirty-day count never exceeds the number of recent logs, and is zero when no log has that mood |
| `TrendsClient.CountRecent` | src/components/trends-client.tsx:65-66 | the number of logs at or after the cutoff never exceeds the number of logs |
| `TrendsClient.MonthlyCountsPartition` | src/components/trends-client.tsx:64-69 | the five per-mood counts add up to the number of logs at or after the cutoff, and so to at most the number of logs |
| `TrendsClient.MonthlyCounts` | src/components/trends-client.tsx:57-69 | the count for each mood is the number of logs with that mood dated at or after the cutoff |
| `TrendsClient.Entries` | src/components/trends-client.tsx:71 | `Object.entries` yields one pair per mood, in declaration order, each carrying that mood's count; the five keys are pairwise distinct |
| `TrendsClient.MonthlyData` | src/components/trends-client.tsx:71-75 | five bars in the order ecstatic, happy, neutral, sad, anxious; each bar carries its mood's count and its name with the first letter upper-cased |
| `TrendsClient.MonthlyLabels` | src/components/trends-client.tsx:72 | the labels are "Ecstatic", "Happy", "Neutral", "Sad" and "Anxious" |
| `TrendsClient.MonthlySummary` | src/components/trends-client.tsx:56-76 | the monthly result has exactly five bars, each with the thirty-day count of its mood and its capitalised label |
| `MoodTrackerClient.HasLoggedToday` | src/components/mood-tracker-client.tsx:28-32 | holds iff some log's calendar day is today |
| `MoodTrackerClient.TodaysMood` | src/components/mood-tracker-client.tsx:73 | the shown mood is that of the first log in list order dated today; there is none iff nothing was logged today |
| `MoodTrackerClient.View` | src/components/mood-tracker-client.tsx:64-78 | the entry form is offered iff no log is dated today; otherwise the card shows the first such log's mood |
| `MoodTrackerClient.SavedMoodIsTodaysMood` | src/components/mood-tracker-client.tsx:47-54 | once a log dated today is added, the form is gone and that log's mood is today's; a log from another day leaves the view as it was |
| `MoodTrackerClient.MoodTracker.constructor` | src/components/mood-tracker-client.tsx:25-26 | no mood is selected and the notes are empty |
| `MoodTrackerClient.MoodTracker.SelectMood` | src/components/mood-tracker-client.tsx:101 | clicking a mood selects it and keeps the notes |
| `MoodTrackerClient.MoodTracker.SaveMood` | src/components/mood-tracker-client.tsx:37-62 | with no selection, nothing is dispatched or changed; otherwise one `ADD_MOOD_LOG` with the mood, the notes and the current time is dispatched (one write), and the selection and notes are reset |
| `JournalClient.PromptMood` | src/components/journal-client.tsx:34 | the prompt's mood is the first log's mood, or neutral when there are no logs |
| `JournalClient.PromptUsesLatestMood` | src/components/journal-client.tsx:34 | after a mood is added, the next prompt request carries that mood |
| `JournalClient.SaveGuard` | src/components/journal-client.tsx:49 | a save goes ahead iff both title and content contain a non-whitespace character |
| `JournalClient.JournalPage.constructor` | src/components/journal-client.tsx:26-29 | the dialog is closed, the fields are empty, and no prompt is loading |
| `JournalClient.JournalPage.SaveEntry` | src/components/journal-client.tsx:48-74 | a blank title or content dispatches nothing and keeps the fields; otherwise one `ADD_JOURNAL_ENTRY` with the title and content as typed is dispatched, the fields are emptied and the dialog closes |
| `JournalClient.JournalPage.BeginPrompt` | src/components/journal-client.tsx:31-35 | the loading flag is set and the request carries the prompt mood |
| `JournalClient.JournalPage.CompletePrompt` | src/components/journal-client.tsx:35-45 | a reply replaces the content and a failure keeps it; loading is false either way |
| `ChatbotClient.AppendKeepsWellFormed` | src/components/chatbot-client.tsx:38-51 | appending the turn that is due (the user's when idle, the assistant's when in flight) keeps user and assistant turns alternating and flips the in-flight flag |
| `ChatbotClient.ChatPage.constructor` | src/components/chatbot-client.tsx:19-21 | an empty transcript and input, no request in flight, and turns well formed |
| `ChatbotClient.ChatPage.BeginSend` | src/components/chatbot-client.tsx:33-44 | a blank input or a request in flight changes nothing; otherwise the user's turn is appended at the end, the input cleared and loading set, and the history sent is exactly the earlier turns; alternation is preserved |
| `ChatbotClient.ChatPage.CompleteSend` | src/components/chatbot-client.tsx:45-55 | one assistant turn with the reply, or the fixed apology on failure, is appended; loading is cleared; alternation is preserved |
| `ChatbotClient.SendMessage` | src/components/chatbot-client.tsx:33-55 | a whole send: the transcript only grows (earlier turns kept in order) by the user's turn and then the reply or apology; the input is cleared and the page is at rest again |

## Findings

| source | as written | input that shows it | evidently intended | confidence | as-written member | corrected member |
|---|---|---|---|---|---|---|
| src/components/habits-client.tsx:50 | The toggle payload is `{habitId, date, completed}`. The reducer (app-provider.tsx:58) and the writer (app-provider.tsx:151) match on `payload.id`, which is absent. | Any state with a habit `h`: the user ticks `h`'s checkbox. On the page as it stands this loss is hidden, because the lookup at :40 throws first and no checkbox renders (`HabitsClient.PageView`). | The (h, selected day) completion record gets the checked value, and is created if absent, so the checkbox shows it (`HabitsClient.ToggleCompletionShows`, `HabitsClient.ToggleCompletionIdempotent`). Placing `id` in the payload alone changes only the habit's own flag, which the page does not show (`HabitsClient.ToggleByIdNotShown`). | not executed | `HabitsClient.HabitToggleIsLost` | `HabitsClient.ToggleCompletionShows` |

## Left out

- Document-store I/O (`src/lib/firebase.ts`, and `setDoc`/`getDocs`/`deleteDoc`/`query` in app-provider.tsx:77-101 and 109-126) is a foreign library. Writes are abstract commands. Reads are given as their results, `None` for a read that throws. The `orderBy('date', 'desc')` of the reads and the ISO-8601 date conversion are not modelled: the loaded lists are taken as delivered.
- A failed write is not modelled as an event: it is only logged, and the local step never depends on it.
- The text-generation flows (`src/ai/flows/*.ts`) and `src/lib/actions.ts` are hosted-model calls. A call's outcome is a parameter. `actions.ts` turns every fault into one generic error, and that error is the `None` case. The "at most two sentences" rule lives in prompt text, not code.
- The clock and the local time zone are abstracted:
  - `toDateString`, `isToday` and `subDays` are replaced by the `dayOf` parameter and day numbers. The model assumes that `subDays(today, i)` falls on day `today - i`.
  - `format(..., 'yyyy-MM-dd')` is the `dayKey` parameter.
  - The weekly chart's `'MMM d'` label is not modelled; each point carries its day number instead.
- `HabitsClient.Progress` is stated over exact reals, because the floating-point division and `Math.round` (habits-client.tsx:47, 152) are not modelled.
- `HabitsClient.HabitsForDay` takes the completion records as a parameter, because the state has no `habitCompletions` field. The failure at run time is captured only by `HabitsClient.PageView`: the handlers are stated as if the page rendered.
- The corrected per-day toggle (`HabitsClient.ToggleCompletion`) is not wired into the reducer or the store writes, because the state has nowhere to keep completion records.
- `HabitsClient.HabitsPage.SaveHabit` gives a new habit `completed = false`, where the source leaves the field undefined. Every reader treats the two alike.
- `JsText.ToUpper` upper-cases only `a`–`z`, because the only strings it is applied to are the five lower-case mood names.
- Asynchronous interleaving is modelled only by splitting each handler at its `await` (`BeginSend`/`CompleteSend`, `BeginPrompt`/`CompletePrompt`).
- `AppProvider.Store.EnhancedDispatch` chooses the toggle write from the state just before the call. The source's closure holds the state of the last render, which differs only when several dispatches happen within one render; that case is not modelled.
- React hooks, memoisation, scrolling, toasts, styling classes, and the chart's `fill` colour strings are presentation only.
- The plain field setters (`onChange` of text fields, a dialog's `onOpenChange`, the calendar's `onSelect`) are not separate methods. Each is a direct write of one public field.
- The loading spinner that hides the pages while `loading` is set is not modelled.
- `app-shell.tsx`, `layout.tsx`, `animated-background.tsx`, `exercises-client.tsx`, `src/lib/data.ts` and `dashboard-client.tsx` are rendering-only or static content.
