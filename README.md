# AigoKorean screen logic in Dafny

This project models the state logic of four screens of a Korean-for-Vietnamese
learning app written in React Native. The content catalog is a read-only
sequence of items. The device key-value store is a `Store` object with one
slot per storage key.

- **Message-correction drill** (`MessageWriting`, class `MessageDrill`). The
  user writes a message for a scenario and asks for a correction. Non-premium
  users get three corrections per calendar day. The correction is a fixed
  chain of four literal global replacements. Each accepted request appends
  one learning record to the store. A cursor walks the scenarios; "next" at
  the last scenario shows a celebration.
- **Vocabulary cards** (`Vocabulary`, class `VocabularyDeck`). A cursor over
  the catalog moves by buttons or by a horizontal swipe. A swipe is judged by
  a 5 px gesture start, a 10 px direction dead zone and a commit threshold of
  15% of the screen width. Each related term has a checkbox, and toggling it
  writes the card's id into the stored `checkedWords` map.
- **Review list** (`Review`, class `ReviewList` and method `CategoryStats`).
  The catalog items whose id is checked are listed in catalog order. The
  screen also keeps `{total, checked}` counters per category and a checkmark
  that flips an id and stores the whole map.
- **Dictation drill** (`Writing`, class `DictationDrill` and method
  `RenderAnnotated`). An answer is accepted when it equals the target after
  trimming. A wrong answer turns on a position-by-position annotation: typed
  characters are marked correct or wrong, and untyped target characters are
  shown as ghosts.

Shared modules:
- `JsString` models the two JavaScript built-ins the screens depend on:
  - `String.prototype.trim`, using the ECMAScript white-space and
    line-terminator set;
  - `replace` with a global literal pattern, which rewrites every
    non-overlapping occurrence from left to right.
- `Storage` holds the store, the learning record, the `dailyUsage_<date>` key
  and the truthiness of an id-to-boolean record.
- `Catalog` holds the items.

The source tests an empty message with `!message.trim()`. The model tests it
with `AllWhitespace(message)`. `JsString.TrimEmptyIff` proves the two tests are
equivalent.

Three behaviours of the program that the model keeps:
- A release at exactly 15% of the width springs back: the code compares with
  a strict `>`.
- Left and right commits both just advance the cursor. Neither direction
  records anything of its own.
- An empty answer is accepted whenever the target is all white space, not
  only when the target is empty.

The date string, `Date.now()`, the ISO timestamp and the screen width are
passed in as parameters.

## Model

| member | source | states |
|---|---|---|
| JsString.Trim | src/screens/WritingScreen.tsx:22 | `trim` never lengthens a string, and the result neither starts nor ends with white space |
| JsString.LeadingWhitespace | src/screens/WritingScreen.tsx:22 | the number of leading characters `trim` strips: all of them are white space and the next one is not |
| JsString.KeptLength | src/screens/WritingScreen.tsx:22 | where `trim` cuts the end: everything after it is white space and the character before it is not |
| JsString.TrimOfPadded | src/screens/WritingScreen.tsx:22 | a core with no white space at its ends, padded with white space, trims to exactly that core |
| JsString.TrimDecomposes | src/screens/WritingScreen.tsx:22 | every string is leading white space, then its trimmed form, then trailing white space |
| JsString.TrimIgnoresPadding | src/screens/WritingScreen.tsx:22 | adding white space on either side never changes what `trim` returns |
| JsString.TrimEmptyIff | src/screens/MessageWritingScreen.tsx:122 | `trim` returns the empty string exactly when the input is all white space, which is what the empty-message check tests |
| JsString.TrimIdempotent | src/screens/WritingScreen.tsx:22 | trimming twice gives the same as trimming once |
| JsString.ReplaceAll | src/screens/MessageWritingScreen.tsx:148-152 | `s.replace(/pat/g, rep)` for a literal non-empty pattern: scanning from the left, each occurrence is replaced and the scan resumes after it |
| JsString.ReplaceAbsent | src/screens/MessageWritingScreen.tsx:148-152 | a global replace leaves a text with no occurrence of the pattern unchanged |
| JsString.ReplaceLength | src/screens/MessageWritingScreen.tsx:148-152 | with a replacement at least as long as the pattern the text never shrinks; with a strictly longer one it grows exactly when the pattern occurs |
| Catalog.Scenarios | src/screens/MessageWritingScreen.tsx:46 | the drill's deck holds the catalog items that carry a scenario, each exactly as often as in the catalog and in catalog order (a subsequence); it is never longer than the catalog |
| Storage.DailyUsageKey | src/screens/MessageWritingScreen.tsx:92-94 | the usage key is `dailyUsage_` followed by the date string: that prefix, then the date, and nothing else |
| Storage.IsChecked | src/screens/ReviewScreen.tsx:38 | the JavaScript truthiness of `m[id]` for an id-to-boolean record: the id is present and mapped to true |
| Storage.DailyUsageKeyInjective | src/screens/MessageWritingScreen.tsx:69-75 | two different dates never share a usage counter |
| Storage.Flipped | src/screens/ReviewScreen.tsx:46 | `{ ...m, [k]: !m[k] }` makes k present and negates how it reads; every other key keeps its presence and value |
| Storage.FlipTwice | src/screens/ReviewScreen.tsx:45-55 | flipping the same id twice restores how every id reads |
| MessageWriting.ReplaceChain | src/screens/MessageWritingScreen.tsx:148-152 | the four global replacements applied one after the other, in the listed order |
| MessageWriting.ReplaceChainGrows | src/screens/MessageWritingScreen.tsx:148-152 | the four-replacement chain never shortens a message |
| MessageWriting.MockCorrection | src/screens/MessageWritingScreen.tsx:143-155 | the correction is never shorter than the original, and it is empty only for an empty original, so the fallback to the original only fires for the empty message |
| MessageWriting.MockCorrectionUnchangedIff | src/screens/MessageWritingScreen.tsx:143-155 | the correction returns the message unchanged exactly when none of the four patterns occurs in it |
| MessageWriting.Toggled | src/screens/MessageWritingScreen.tsx:179-181 | the feedback language always changes |
| MessageWriting.ToggleTwice | src/screens/MessageWritingScreen.tsx:179-181 | toggling the feedback language twice restores it |
| MessageWriting.Blocked | src/screens/MessageWritingScreen.tsx:127 | the usage gate: refused exactly when not premium and the day's usage is at least 3; a premium user is never refused |
| MessageWriting.RemainingUsage | src/screens/MessageWritingScreen.tsx:211 | `max(0, 3 - usage)` lies in [0, 3], is positive exactly when a non-premium user is not blocked, and with usage up to 3 adds up with usage to 3 |
| MessageWriting.NewRecord | src/screens/MessageWritingScreen.tsx:106-113 | the record holds the original and corrected text, the time and the timestamp; it names the scenario exactly when one is on screen; its category is never empty (`'기타'` is the fallback) |
| MessageWriting.MessageDrill.constructor | src/screens/MessageWritingScreen.tsx:45-88 | the deck is the scenario items; the initial flags are set; the usage is today's stored counter or 0; premium holds exactly when the stored flag is the string `"true"` |
| MessageWriting.MessageDrill.SaveDailyUsage | src/screens/MessageWritingScreen.tsx:90-99 | the in-memory usage goes up by one, and that value is stored under today's key with no other key touched |
| MessageWriting.MessageDrill.SaveLearningRecord | src/screens/MessageWritingScreen.tsx:101-119 | the stored list becomes the old list (empty if absent) with exactly one new record appended |
| MessageWriting.MessageDrill.RequestCorrection | src/screens/MessageWritingScreen.tsx:121-141 | see "RequestCorrection cases" below the table |
| MessageWriting.MessageDrill.GoNext | src/screens/MessageWritingScreen.tsx:157-168 | before the last scenario: index + 1, and message, feedback and hint are cleared; otherwise only the celebration flag is set |
| MessageWriting.MessageDrill.GoPrevious | src/screens/MessageWritingScreen.tsx:170-177 | after the first scenario: index − 1 with the same resets; at the first it changes nothing |
| MessageWriting.MessageDrill.ToggleFeedbackLanguage | src/screens/MessageWritingScreen.tsx:179-181 | the language becomes the other one |
| MessageWriting.MessageDrill.ToggleHint | src/screens/MessageWritingScreen.tsx:238 | the hint flag is negated |
| MessageWriting.MessageDrill.EditMessage | src/screens/MessageWritingScreen.tsx:267 | the message becomes the typed text |
| Vocabulary.Threshold | src/screens/VocabularyScreen.tsx:51 | the commit distance is exactly 15% of the width |
| Vocabulary.Progress | src/screens/VocabularyScreen.tsx:52 | progress lies in [0, 1]; it is 1 exactly when the drag reaches the threshold, and below 1 it is the drag's share of the threshold |
| Vocabulary.MoveDirection | src/screens/VocabularyScreen.tsx:54-60 | the direction changes only beyond the 10 px dead zone, and beyond it follows the sign of dx |
| Vocabulary.TakesGesture | src/screens/VocabularyScreen.tsx:48 | the card takes over a drag once it moves more than 5 px either way |
| Vocabulary.ClassifyRelease | src/screens/VocabularyScreen.tsx:70-101 | commit right exactly when dx is strictly over 15% of the width, commit left exactly when it is strictly under −15%, spring back exactly when the absolute value of dx is at most 15% (the boundary included) |
| Vocabulary.Persisted | src/screens/VocabularyScreen.tsx:143-149 | checked sets the id to true, unchecked deletes it, and every other key is untouched |
| Vocabulary.VocabularyDeck.constructor | src/screens/VocabularyScreen.tsx:24-27 | the first card, no checks, no swipe direction and zero progress |
| Vocabulary.VocabularyDeck.MoveTo | src/screens/VocabularyScreen.tsx:105-109 | every index change clears the per-card checks, the direction and the progress |
| Vocabulary.VocabularyDeck.GoNext | src/screens/VocabularyScreen.tsx:32-40 | before the last card: index + 1 with the reset; at the last card it reports completion and changes nothing; the index stays within the catalog |
| Vocabulary.VocabularyDeck.GoPrevious | src/screens/VocabularyScreen.tsx:163-167 | after the first card: index − 1 with the reset; at the first card it changes nothing |
| Vocabulary.VocabularyDeck.OnGrant | src/screens/VocabularyScreen.tsx:65-69 | the card takes a drag only after a move of more than 5 px; the drag starts with no direction and zero progress |
| Vocabulary.VocabularyDeck.OnMove | src/screens/VocabularyScreen.tsx:49-64 | delivered only while the card holds the drag; beyond the dead zone the direction follows dx and the progress is `Progress(dx, width)`; inside it nothing changes; progress stays in [0, 1] |
| Vocabulary.VocabularyDeck.OnRelease | src/screens/VocabularyScreen.tsx:70-101 | see "OnRelease cases" below the table |
| Vocabulary.VocabularyDeck.OnTouchMove | src/screens/VocabularyScreen.tsx:48-69 | a move of at most 5 px on a card that does not hold the drag reaches no handler and changes nothing; a longer one is only granted, which clears the direction and the progress; while the card holds the drag every move goes to the move handler |
| Vocabulary.VocabularyDeck.OnTouchEnd | src/screens/VocabularyScreen.tsx:48-101 | a touch that was never granted (it never moved more than 5 px) ends with no outcome and changes nothing; a granted one gets the release and its three outcomes; afterwards the card no longer holds a drag |
| Vocabulary.VocabularyDeck.ToggleCheck | src/screens/VocabularyScreen.tsx:133-155 | only entry i of the card's local map flips; the stored map (empty when absent) gets the card's id set or deleted according to that entry's new value |
| Review.FilterChecked | src/screens/ReviewScreen.tsx:37-43 | an item is listed exactly when it is in the catalog and its id reads as checked (ids mapped to false are left out); each listed item appears as often as in the catalog, in catalog order (a subsequence) |
| Review.FilterNoneChecked | src/screens/ReviewScreen.tsx:95-96 | with no catalog id checked the list is empty, which is the empty-state message |
| Review.FilterRespectsChecked | src/screens/ReviewScreen.tsx:37-43 | two maps that agree on which ids are checked give the same list |
| Review.CountIn | src/screens/ReviewScreen.tsx:64 | the `total++` count: the number of catalog items of the category, never more than the catalog size |
| Review.CountChecked | src/screens/ReviewScreen.tsx:66-68 | a category never has more checked items than items |
| Review.Categories | src/screens/ReviewScreen.tsx:61-63 | the stats record's categories, with no repeats |
| Review.FirstIndex | src/screens/ReviewScreen.tsx:60-62 | the position of the first item of a category: that item has the category and no earlier one does; the catalog length when no item has it |
| Review.CategoriesFirstSeen | src/screens/ReviewScreen.tsx:60-63 | a category listed before another has its first item earlier in the catalog: the categories come in the order their first items appear |
| Review.CategoriesCover | src/screens/ReviewScreen.tsx:60-63 | a category is listed exactly when some catalog item carries it |
| Review.CountInAbsent | src/screens/ReviewScreen.tsx:61-62 | a category not seen yet has no items so far, so its counters can start at zero |
| Review.TotalsSumToCatalogSize | src/screens/ReviewScreen.tsx:60-64 | the totals over all categories add up to the catalog size |
| Review.TallyStep | src/screens/ReviewScreen.tsx:60-69 | counting one more item, with its category created at zero when missing, keeps the counters exact |
| Review.CategoryStats | src/screens/ReviewScreen.tsx:57-72 | the keys are exactly the catalog's categories, listed in the order their first items appear (`Categories`); each holds the category's item count and checked-item count |
| Review.ReviewList.constructor | src/screens/ReviewScreen.tsx:17-18 | the map and the list start empty, which is consistent |
| Review.ReviewList.LoadCheckedWords | src/screens/ReviewScreen.tsx:24-35 | a stored map is adopted and the list recomputed; with nothing stored the state is unchanged |
| Review.ReviewList.ToggleCheck | src/screens/ReviewScreen.tsx:45-55 | the id flips, the whole new map is stored, and the list is the filter of the new map |
| Review.ToggleTwiceSameView | src/screens/ReviewScreen.tsx:45-55 | toggling an id twice gives back the same list and the same checked counters |
| Review.CountCheckedRespectsChecked | src/screens/ReviewScreen.tsx:66-68 | checked counters depend only on which ids read as checked |
| Writing.IsCorrect | src/screens/WritingScreen.tsx:22 | `value.trim() === target.trim()`; typing the target exactly is always correct |
| Writing.IsCorrectIgnoresPadding | src/screens/WritingScreen.tsx:22 | white space typed before or after an answer never changes the verdict |
| Writing.EmptyAnswer | src/screens/WritingScreen.tsx:22 | an empty answer is accepted exactly when the target is all white space |
| Writing.RenderAnnotated | src/screens/WritingScreen.tsx:45-70 | see "RenderAnnotated cases" below the table |
| Writing.AllCorrectIff | src/screens/WritingScreen.tsx:50-59 | under the annotation rule, all marks are correct exactly when the typed text is the target |
| Writing.DictationDrill.constructor | src/screens/WritingScreen.tsx:11-16 | the targets are the catalog items' writing challenges, one per item in order; the drill starts on the first item with empty text, diff off and no verdict |
| Writing.DictationDrill.Submit | src/screens/WritingScreen.tsx:26-43 | see "Submit cases" below the table |
| Writing.DictationDrill.OnChangeText | src/screens/WritingScreen.tsx:83 | the text is replaced, the diff and the verdict are cleared, and the index is kept |

RequestCorrection cases (`MessageWriting.MessageDrill.RequestCorrection`):
- A message that is all white space changes nothing.
- A non-premium user with usage ≥ 3 only gets the premium modal. Usage and the store stay as they were.
- Otherwise the mock correction is returned and the feedback is shown.
- It also appends exactly one record to the stored list.
- A non-premium user's usage goes up by exactly one, stays ≤ 3 and is stored under today's key.
- A premium user's usage is left alone.

OnRelease cases (`Vocabulary.VocabularyDeck.OnRelease`):
- It is delivered only while the card holds the drag, and afterwards the card no longer holds it.
- The outcome is `ClassifyRelease(dx, width)`.
- A spring-back clears the direction and the progress and keeps the card.
- A commit before the last card moves to the next card and resets it.
- A commit at the last card reports completion and keeps the committed direction at full progress.

RenderAnnotated cases (`Writing.RenderAnnotated`):
- With the diff off, the output is the target's characters, all ghosts.
- With the diff on, the length is max(|target|, |typed|).
- Position i < |typed| shows typed[i]. It is marked correct exactly when i < |target| and typed[i] = target[i].
- Later positions are target ghosts.
- All marks are correct exactly when the typed text equals the target.

Submit cases (`Writing.DictationDrill.Submit`):
- A correct answer before the last item advances the index and clears the text, the diff and the verdict.
- A correct answer on the last item sets the verdict to correct and keeps everything else.
- A wrong answer turns the diff on and sets the verdict to wrong. The index and the text are kept.

## Left out

- Storage I/O: the asynchronous AsyncStorage calls, JSON parse and stringify, and the catch-and-log error paths. The store is an in-memory object, and a failed read or write is not modelled.
- Stored values that the app never writes itself are not modelled: a `dailyUsage_` value that `parseInt` cannot read, and `checkedWords` keys that are not integers.
- `new Date().toDateString()`, `Date.now()` and `toISOString()` are parameters. The usage counter that `SaveDailyUsage` stores comes from memory. So a date change while the screen stays mounted carries the old count over to the new day's key, and the model reproduces this.
- React semantics are not modelled: batched `setState`, re-rendering, `useMemo`/`useCallback` dependencies and the ordering of `await`. Each handler is one atomic step.
- In `Submit`, the transient `setResult('correct')` before the advance is overwritten in the same batch, so the model keeps only the final `null`.
- Speech and audio playback, `Alert` dialogs, modals and their close buttons, the confetti and swipe animations, and `translateX`.
- The percentage rounding shown next to each category's counters is left out.
- Category names are assumed to be neither array-index strings (`"0"`, `"1"`, …) nor names of `Object.prototype` members (`toString`, `constructor`, `__proto__`). `Object.entries` lists array-index keys first, in numeric order, and a prototype member name already reads as present in the stats record, so such a category would get no entry of its own. `Review.CategoryStats` and `Review.Categories` give every category its own entry in the order its first item appears.
- The pan responder's routing is modelled by `OnTouchMove` and `OnTouchEnd` for one card and one finger. A competing responder, a terminated gesture and several fingers are not modelled. The move that starts a drag reaches only the grant handler. The `dx` given to `OnTouchMove` and `OnTouchEnd` is the gesture's displacement as the responder reports it: from the touch start before the grant and from the grant point after it. The model takes that value as given and does not compute it from finger positions.
- Screen width and drag distance are real numbers, not floating point. The threshold is stated exactly as `100 * dx > 15 * width`.
- The `maxLength={200}` limit of the message box is left out, because the text box enforces it before the handler sees the text.
- `allChecked` in the vocabulary screen is computed but never read, so it is left out. The stored flag for a card follows the last related term toggled on it, not "any term checked"; the model keeps this behaviour.
- Vocabulary.VocabularyDeck.constructor and Writing.DictationDrill.constructor require a non-empty catalog. Both screens index the current item while rendering, and an empty catalog would make them fail.
- The message drill's error screen for an empty deck is a rendering branch only. The model allows the empty deck (index 0) and does not model that view.
- The main menu and app navigation (`MainScreen.tsx`, `App.tsx`) are not part of this model.
