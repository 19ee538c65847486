# Dashboard screen: expiry reminders and tutorial, in Dafny

This project models the logic of the dashboard screen of a medicine and
vitamin tracking app (`screens/DashboardScreen.js`):

- **The expiry scan** (`checkExpiringItems` and its inner `checkItem`). Once
  the user's vitamin and medication records have been fetched together, every
  record whose expiration date falls on today's or tomorrow's calendar day
  yields one notice. The notice carries the record's display name, the tag
  `Vitamin` or `Medication` and the word today or tomorrow. Vitamin notices come
  first, then medication notices, each in list order. The list is stored and the
  reminder modal shown only if at least one notice was found. A failed fetch
  changes nothing.
- **The tutorial** (`startTutorial`, `nextStep`, `previousStep` and the
  six-entry `tutorialData` table). The tutorial is a closed state machine over
  steps 0..5. Every lookup of `tutorialData[tutorialStep]` is in bounds. Steps
  2 to 5 each highlight exactly one section of the screen.

Files:

- `optional.dfy`: module `Optional`, an `Option` type standing for a property that may be undefined.
- `expiry.dfy`: module `Expiry`. It holds the records and notices and the per-record decision `ItemNotice`. `Notices` is the reference definition of a list's scan. `CheckItem`, `CheckAll` and `CollectNotices` are the imperative scan (loops pushing onto a list). The lemmas relate the scan to the records.
- `tutorial.dfy`: module `Tutorial`. It holds the three step transitions, the tutorial table, the highlight lookup and the lemmas about them.
- `dashboard.dfy`: module `Dashboard`. The class `DashboardState` holds the component state (`tutorialStep`, `expiringItems`, `showModal`). Its handlers change that state.

Modelling choices:

- Calendar days are integer day ordinals. "Tomorrow" is `today + 1`, and
  comparing two dates' day strings is comparing two ordinals. The reference
  day is a parameter, where the screen reads the clock.
- A record's `expirationDate` is `Missing` (absent or otherwise falsy: the early
  return), `Unparseable` (a string that is not a date; its day string is
  "Invalid Date", which matches no day) or `OnDay(d)`.
- The two HTTP requests joined by `Promise.all` become one input, `FetchOutcome`.
  It holds either both lists or one failure. A response body that cannot be
  scanned is a failure too, because the exception is caught by the same handler.
- The user id is an `Option<string>`. An empty id is falsy in the screen, so it
  is treated like an absent one.

Two behaviours of the screen worth stating directly:

- The display name is `selectedName || name` for both lists (lines 58 and 60).
- The screen does not return the notices. It stores them and shows the modal
  only when at least one was found. With none, the previous list and modal
  state stay.

## Model

| member | source | states |
|---|---|---|
| `Expiry.DisplayName` | screens/DashboardScreen.js:58-60 | a notice shows `selectedName` when it is present and non-empty, otherwise `name` |
| `Expiry.ItemNotice` | screens/DashboardScreen.js:50-62 | a record yields a notice iff its date is on today or tomorrow; a missing or unparseable date yields none; "today" wins and "tomorrow" means exactly today+1; the notice carries the display name and the list's tag |
| `Expiry.Notices` | screens/DashboardScreen.js:64-65 | a list's scan has at most one notice per record, and every notice is tagged with the list's type |
| `Expiry.NoticesSnoc` | screens/DashboardScreen.js:64-65 | scanning one more record appends exactly that record's zero or one notices |
| `Expiry.NoticesAppend` | screens/DashboardScreen.js:64-65 | scanning a concatenation gives the concatenated scans, so notices keep the order of their records |
| `Expiry.NoticesEmptyIff` | screens/DashboardScreen.js:50-61 | a list's scan is empty exactly when none of its records expires today or tomorrow |
| `Expiry.NoticeOfRecord` | screens/DashboardScreen.js:57-61 | each record expiring today or tomorrow has its notice in the scan, placed right after the notices of the records before it |
| `Expiry.NoticeHasRecord` | screens/DashboardScreen.js:57-61 | every notice in a scan is the notice of some record of the list |
| `Expiry.CheckItem` | screens/DashboardScreen.js:50-62 | `checkItem` appends to the list exactly the record's zero or one notices |
| `Expiry.CheckAll` | screens/DashboardScreen.js:64-65 | one `forEach` loop appends to the list exactly the scan of its records, in order |
| `Expiry.CollectNotices` | screens/DashboardScreen.js:48-65 | the two loops build the vitamin scan followed by the medication scan |
| `Expiry.VitaminsFirst` | screens/DashboardScreen.js:64-65 | in the combined list no vitamin notice comes after a medication notice |
| `Dashboard.DashboardState.CheckExpiringItems` | screens/DashboardScreen.js:37-74 | all or nothing: a failed join changes nothing; otherwise the notices are stored and the modal shown iff there is at least one; with none, the previous list and modal state are kept |
| `Dashboard.ModalShownIff` | screens/DashboardScreen.js:67-73 | after a scan the modal is visible iff it was already, or both lists arrived and some record in either expires today or tomorrow |
| `Dashboard.DashboardState.OnUserId` | screens/DashboardScreen.js:31-35 | without a (non-empty) user id nothing changes; with one, the scan's effect takes place |
| `Dashboard.DashboardState.CloseModal` | screens/DashboardScreen.js:218-221 | the "Got it" button hides the modal |
| `Dashboard.DashboardState.constructor` | screens/DashboardScreen.js:21-23 | the screen starts with the tour closed, no reminders and the modal hidden, a state in which the step is in range |
| `Dashboard.DashboardState.StartTutorial` | screens/DashboardScreen.js:102 | tapping the mascot performs `Start` and keeps the step in 0..5 |
| `Dashboard.DashboardState.NextStep` | screens/DashboardScreen.js:103 | the forward button performs `Next` and keeps the step in 0..5 |
| `Dashboard.DashboardState.PreviousStep` | screens/DashboardScreen.js:104 | the Previous button performs `Previous` and keeps the step in 0..5 |
| `Dashboard.DashboardState.BubbleText` | screens/DashboardScreen.js:186-188 | the bubble's text is looked up in bounds in every valid state and exists iff the tour is open |
| `Tutorial.Start` | screens/DashboardScreen.js:102 | the result is always in 0..5, and the tour is open afterwards iff it was closed before |
| `Tutorial.Next` | screens/DashboardScreen.js:103 | from an in-range step the result is in range; it is the following step unless it closes the tour, which happens exactly at step 5 |
| `Tutorial.Previous` | screens/DashboardScreen.js:104 | from an in-range step the result is in range; above step 1 it is the preceding step, and at step 1 or 0 the tour closes |
| `Tutorial.PreviousAfterNext` | screens/DashboardScreen.js:103-104 | going back undoes going forward on steps 0..4 |
| `Tutorial.NextAfterPrevious` | screens/DashboardScreen.js:103-104 | going forward undoes going back on steps 2..5 |
| `Tutorial.NextCycles` | screens/DashboardScreen.js:103 | k presses of Next move an in-range step to (step + k) mod 6 |
| `Tutorial.EveryStepReachable` | screens/DashboardScreen.js:102-103 | every step 1..5 is reached from the closed tour by a tap on the mascot and presses of Next |
| `Tutorial.TutorialData` | screens/DashboardScreen.js:106-113 | the table has six entries; entry 0 is empty and entries 1..5 have a text |
| `Tutorial.CurrentHighlight` | screens/DashboardScreen.js:115 | the optional-chained lookup gives no highlight outside steps 0..5 |
| `Tutorial.HighlightOneToOne` | screens/DashboardScreen.js:106-115 | steps 0 and 1 highlight nothing, each of steps 2..5 highlights one section, and each section is highlighted by exactly one step (medication 2, vitamins 3, health 4, profile 5) |
| `Tutorial.DialogText` | screens/DashboardScreen.js:186-188 | for an in-range step, a dialogue text exists iff the tour is open |
| `Tutorial.ButtonsMatchTransitions` | screens/DashboardScreen.js:190-199 | on an open step the forward button reads "Finish" exactly when it closes the tour, and the Previous button is shown only where it does not close it |

## Left out

- The HTTP requests, the API base URL and the concurrency of `Promise.all` (lines 28, 39-42): network I/O. They are replaced by the `FetchOutcome` input.
- JavaScript date parsing, month rollover in `setDate`, time zones and `toDateString` formatting (lines 44-55): these are host calendar behaviour. Dates are integer day ordinals.
- The `console.log` of a failure (line 72) is not modelled. A failure only leaves the state unchanged.
- Partner name and image fallback (lines 77-89): the partner name is a parameter of the tutorial table.
- The jump animation (lines 92-99), the JSX layout, colours and opacity (lines 117-292), the modal's message text (line 214) and navigation (lines 124, 145, 159, 173): presentation and platform calls.
- The screen may unmount or re-run its effect while a fetch is pending. The model treats each scan as one atomic step.
