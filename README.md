# Gather Globe trip planner: state-update rules of the voting, trip-form and expense panels

This project models the small pieces of real logic in three React components of the Gather Globe
trip planner, and proves what they do.

- **Voting panel** (`Voting`). Each proposal id maps to the user's vote: `Up`, `Down` or none.
  Clicking the current choice clears it. Clicking the other choice, or clicking with no vote,
  records the clicked choice. The panel also holds the constant proposals with their displayed
  tallies, the status-badge colour, and the highlighted state of the two vote buttons.
- **Trip-creation dialog** (`TripForm`). The country search keeps the countries whose lower-cased
  name contains the lower-cased search text, in list order. The dropdown shows the first ten of
  them. The preference toggle removes a listed id, or appends an absent one. Class
  `CreateTripModal` holds the three pieces of state the handlers update: the form, the search text
  and the dropdown flag.
- **Expense tracker** (`ExpenseTracker`). The total is a left fold of the amounts from 0. The
  category badge colour is a switch with a gray default. Class `ExpenseTrackerPanel` holds the
  dialog flag and the add-expense form. Its submit handler only logs the form, resets it and
  closes the dialog. The expense and settlement lists are `const` fields, so no handler can
  change them.

The application contains no ledger, balance calculator or settlement solver. The expenses,
per-person figures and settlement lines are hardcoded literals, and the model keeps them as
literals.

Modelling choices:
- A key missing from the `votes` dictionary reads as `undefined` in the source. It is treated as no
  vote (`Voting.CurrentVote`), like a stored `null` (`None`). With `Option<VoteType>` as the value
  type, a stored vote can only be `Up`, `Down` or none.
- `toLowerCase` is modelled over ASCII letters only (`TripForm.LowerChar`).
- `String.prototype.includes` is `TripForm.Includes`. `TripForm.IncludesIffOccurs` proves it equal to "`t` occurs at some
  position of `s`", so it holds for the empty search text.
- The country list is imported from `src/data/countries`, which is not part of this model. It is
  a constructor parameter of `TripForm.CreateTripModal`.
- Amounts in the expense list are integer literals and are modelled as `int`. The per-person
  figures and settlement amounts are fractional literals. They are kept as `real` and nothing is
  computed from them.

## Model

| member | source | states |
|---|---|---|
| Voting.HandleVote | src/components/VotingPanel.tsx:44-49 | the new dictionary has the old keys plus the voted id; every other key keeps its value and its observed vote; the voted id's vote always changes |
| Voting.VoteSameClears | src/components/VotingPanel.tsx:47 | voting the current choice leaves no vote |
| Voting.VoteOtherRecords | src/components/VotingPanel.tsx:47 | voting with no vote, or against the opposite vote, records exactly the clicked choice |
| Voting.VoteTwiceRestores | src/components/VotingPanel.tsx:44-49 | two identical clicks on a proposal without a vote give back the vote of every proposal |
| Voting.VoteTwice | src/components/VotingPanel.tsx:44-49 | after two identical clicks the vote is that choice if it was before the clicks, and none otherwise |
| Voting.StatusColor | src/components/VotingPanel.tsx:51-57 | `approved` gives green, `rejected` red, and every other status yellow, each an if-and-only-if |
| Voting.BuiltInStatusColors | src/components/VotingPanel.tsx:11-42 | the two active built-in proposals show yellow badges and the approved one green |
| Voting.NoVotesNothingLit | src/components/VotingPanel.tsx:9 | in the initial empty vote dictionary every proposal shows its tallies with neither button lit |
| Voting.Controls | src/components/VotingPanel.tsx:105-126 | the buttons show the proposal's constant tallies; a button is highlighted exactly when the stored vote is its choice; never both |
| Voting.VoteKeepsTallies | src/components/VotingPanel.tsx:106-125 | a vote leaves every displayed tally unchanged and every other proposal's buttons unchanged; on the voted proposal the clicked button is lit exactly when the click did not clear the vote, and the other button is never lit |
| TripForm.LowerChar | src/components/CreateTripModal.tsx:29 | lower-casing maps `A`-`Z` to `a`-`z`, leaves every other character alone, and never yields an upper-case letter |
| TripForm.Lower | src/components/CreateTripModal.tsx:29 | lower-casing a string keeps its length and lower-cases each character |
| TripForm.OccursShift | src/components/CreateTripModal.tsx:29 | an occurrence of the search text in the tail of a name is an occurrence in the name one position later, and back |
| TripForm.IncludesIffOccurs | src/components/CreateTripModal.tsx:29 | `includes` holds exactly when the search text occurs at some position of the name, so always for the empty search text |
| TripForm.FilterCountries | src/components/CreateTripModal.tsx:28-30 | a country is kept exactly when it is in the list and its lower-cased name contains the lower-cased search text; the result is never longer than the list |
| TripForm.FilterAppend | src/components/CreateTripModal.tsx:28-30 | filtering a concatenation is the concatenation of the filtered parts, so the original order is kept |
| TripForm.FilterSingle | src/components/CreateTripModal.tsx:28-30 | a one-country list is kept exactly when that country matches |
| TripForm.FilterAllMatching | src/components/CreateTripModal.tsx:28-30 | when every country matches, the filter returns the whole list unchanged |
| TripForm.EmptySearchKeepsAll | src/components/CreateTripModal.tsx:28-30 | an empty search text keeps every country, in order |
| TripForm.DropdownCountries | src/components/CreateTripModal.tsx:223 | the dropdown shows at most 10 countries, a prefix of the filtered list, all of it when it is shorter than 10 and its first 10 otherwise |
| TripForm.RemoveAll | src/components/CreateTripModal.tsx:42 | the removed id no longer occurs; every other id keeps its number of occurrences; the length drops by the removed id's count |
| TripForm.RemoveAllAppend | src/components/CreateTripModal.tsx:42 | removal distributes over concatenation, so the remaining ids keep their order |
| TripForm.RemoveAllAbsent | src/components/CreateTripModal.tsx:42 | removing an id that is not listed returns the list unchanged |
| TripForm.TogglePreference | src/components/CreateTripModal.tsx:41-43 | the id is listed afterwards exactly when it was not before; every other id keeps its number of occurrences; an absent id is appended at the end |
| TripForm.RemoveAllSingle | src/components/CreateTripModal.tsx:42 | a one-element list loses its element exactly when it is the removed id |
| TripForm.ToggleListedKeepsOrder | src/components/CreateTripModal.tsx:41-42 | toggling a listed id removes it from every part of the list and keeps every other id in its original order |
| TripForm.ToggleTwiceRestores | src/components/CreateTripModal.tsx:41-43 | toggling an absent id twice gives back the original list |
| TripForm.RemoveAllNoDuplicates | src/components/CreateTripModal.tsx:42 | removing an id from a duplicate-free list leaves it duplicate-free |
| TripForm.ToggleKeepsNoDuplicates | src/components/CreateTripModal.tsx:38-45 | a toggle keeps a duplicate-free preference list duplicate-free |
| TripForm.CreateTripModal.constructor | src/components/CreateTripModal.tsx:15-26 | the dialog starts with every form field empty, an empty preference list, empty search text and the dropdown closed |
| TripForm.CreateTripModal.VisibleCountries | src/components/CreateTripModal.tsx:221-223 | while the dropdown is open it lists the first 10 matches of the search text; while closed it lists nothing |
| TripForm.CreateTripModal.HandleCountrySelect | src/components/CreateTripModal.tsx:32-36 | the chosen name becomes both the form's country and the search text; the dropdown closes; every other form field is unchanged |
| TripForm.CreateTripModal.HandleCountryInput | src/components/CreateTripModal.tsx:212-216 | typed text becomes both the search text and the form's country; the dropdown opens on the matches of that text; every other form field is unchanged |
| TripForm.CreateTripModal.HandleCountryFocus | src/components/CreateTripModal.tsx:217 | focusing the box opens the dropdown and changes nothing else |
| TripForm.CreateTripModal.HandlePreferenceToggle | src/components/CreateTripModal.tsx:38-45 | only the form's preference list changes, and it becomes the toggled list; title, destination, country, dates, budget, description, search text and dropdown are unchanged |
| ExpenseTracker.ReduceIsSum | src/components/ExpenseTracker.tsx:64 | a left fold of the amounts from any start value is that value plus the sum of the amounts |
| ExpenseTracker.TotalExpenses | src/components/ExpenseTracker.tsx:64 | the fold from 0 equals the sum of the `amount` fields |
| ExpenseTracker.TotalAppend | src/components/ExpenseTracker.tsx:64 | the total of two lists laid end to end is the sum of their totals |
| ExpenseTracker.BuiltInTotal | src/components/ExpenseTracker.tsx:18-49 | the built-in expense list totals 630 (450 + 60 + 120) |
| ExpenseTracker.CategoryColor | src/components/ExpenseTracker.tsx:66-74 | `food`, `transport`, `accommodation` and `activities` each get their own class, each an if-and-only-if; every other string gets gray |
| ExpenseTracker.OfferedCategoryColors | src/components/ExpenseTracker.tsx:267-271 | the four named options get four distinct non-gray classes and the offered `other` gets gray |
| ExpenseTracker.ExpenseTrackerPanel.constructor | src/components/ExpenseTracker.tsx:9-62 | the panel starts with the dialog closed and the initial form (lines 9-16); its expense and settlement lists are the built-in literals (lines 18-62) |
| ExpenseTracker.ExpenseTrackerPanel.Total | src/components/ExpenseTracker.tsx:64 | the total card shows the sum of the panel's built-in expense amounts, which is 630 |
| ExpenseTracker.ExpenseTrackerPanel.SettlementCount | src/components/ExpenseTracker.tsx:58-62 | the settlements card (line 134) shows the number of built-in settlement lines, which is 3 |
| ExpenseTracker.ExpenseTrackerPanel.OpenAddExpense | src/components/ExpenseTracker.tsx:99 | the "Add Expense" button opens the dialog and changes nothing else |
| ExpenseTracker.ExpenseTrackerPanel.CancelAddExpense | src/components/ExpenseTracker.tsx:279 | "Cancel" closes the dialog and keeps the form as typed |
| ExpenseTracker.ExpenseTrackerPanel.UpdateTitle | src/components/ExpenseTracker.tsx:236 | typing a title changes only the form's title |
| ExpenseTracker.ExpenseTrackerPanel.UpdateAmount | src/components/ExpenseTracker.tsx:252 | typing an amount changes only the form's amount text |
| ExpenseTracker.ExpenseTrackerPanel.UpdateCategory | src/components/ExpenseTracker.tsx:264 | choosing a category changes only the form's category |
| ExpenseTracker.ExpenseTrackerPanel.HandleAddExpense | src/components/ExpenseTracker.tsx:76-88 | the form as it was goes to the log; the dialog closes; the form is reset to empty title and amount, category `food`, paidBy `you` and no splitWith; only those two fields change, so the expense list, its total and the settlement list are untouched |

## Left out

- Backend calls (trip insert in `handleSubmit`, authentication, profile and trip fetches, client set-up): network I/O through a foreign client library.
- `console.log` is modelled as the value `HandleAddExpense` returns, and `alert` is not modelled.
- `generateAIItinerary`: returns a mock result. The preference-label string and the prompt it builds (src/components/CreateTripModal.tsx lines 49-56) are never used. Its one computed field, `totalDays` (line 80), is `Date` arithmetic.
- Dates: the trip form's minimum start and end dates depend on the current clock and on JS `Date` milliseconds.
- src/pages/Dashboard.tsx: `totalBudget` (line 69) is the same fold as `TotalExpenses`, applied to trips fetched from the backend. `nextTrip` and `daysUntilNextTrip` (lines 70-73) are clock arithmetic.
- Floating-point display math: the per-person card (`totalExpenses / members.length`; the member list feeds only this card and is not modelled), `toFixed(2)` formatting, and the vote progress bar (`upvotes / (upvotes + downvotes)`). The progress bar also divides by zero for a proposal without votes.
- The settlement literals are displayed, not computed (only their count is modelled). They do not agree with what the expense literals imply. No balance or settlement algorithm exists in the code, so none is modelled.
- The "majority approval (3+ votes)" voting rule is display text that no code enforces. The voting summary numbers are literals.
- The remaining `onChange` updaters of the trip form (title, destination, dates, budget, description) follow the same overwrite-one-field pattern as `ExpenseTracker.ExpenseTrackerPanel.UpdateTitle`. They are not modelled individually.
- Rendering: JSX layout, the split-with avatars (`slice(0, 3)` and the `+n` badge), routing, tab switching, and the other components (chat, weather, itinerary, trip card, home page, and the rest of the dashboard page). These are presentation, random replies or timers.
- TripForm.LowerChar: models `toLowerCase` over ASCII only. Full Unicode case mapping is out of scope.
- ExpenseTracker.TotalExpenses: amounts are unbounded integers. JS number addition is exact for these integer literals far below 2^53, so the model does not represent floating-point rounding.
