# Eval-suite admin and jury pages, modelled in Dafny

This project models the logic inside the two page components of the Eval-suite
marking tool's web client.

- **Admin page.** It derives the dashboard statistics from the jury and team
  lists: submitted, paused and pending counts, and a rounded completion rate.
  It keeps an active tab out of six and renders the sections that belong to
  that tab. It validates and normalises a new scoring criterion before sending
  it. It asks for confirmation before requesting a full data reset.
- **Jury landing page.** It shows quick statistics over the jury list. It gates
  each jury's marking page behind a modal. The modal compares the typed text,
  trimmed and upper-cased, with the jury's name normalised the same way and
  with a fixed master key.

Files:

- `text.dfy` (module `Text`): `trim` and `toUpperCase` on ASCII, with their
  laws. Trim returns the unique tight core between whitespace padding. Both
  operations are idempotent, and they commute.
- `records.dfy` (module `Records`): the `Jury` and `Team` records and
  `Array.prototype.filter` over juries.
- `stats.dfy` (module `Stats`): `getDashboardStats`.
- `admin_page.dfy` (module `AdminPage`): the tabs and their sections, the
  criterion normalisation, and the class `Page`. The class holds the
  component's state fields, and its methods are the event handlers.
- `home.dfy` (module `Home`): the access predicate and its laws, the quick
  statistics, and the class `Page` for the landing page's modal state.
- `wrappers.dfy` (module `Wrappers`): `Option`.

The server is never modelled. Every request the admin page makes, except the
two export downloads listed under "Left out", is appended to a call log
(`AdminPage.Page.calls`). The landing page's one request, the jury list, is
not logged; only its answer is modelled. How a request ended is passed in as
a method parameter, such as `addSucceeded` or a `ResetOutcome`. A request's response
arrives through its own method (`CriteriaLoaded`, `DataLoaded`,
`JuriesLoaded`). Navigation and toasts are recorded in the same way, as the
sequences `Home.Page.navigations` and `AdminPage.Page.notices`.

Three points where the code behaves in a way that is easy to misread:

- `handleAdd` has no error handling. When the add request is rejected, the
  input is not cleared and the list is not re-fetched.
- On the exports tab, two blocks render: the built-in export buttons and the
  delegated admin panel. Every other tab renders exactly one block.
- A completion rate of 100% does not mean that every jury has submitted.
  Rounding makes 200 of 201 show as 100%. For that reason `RateWhenAllSubmitted`
  is stated in one direction only, and `GetDashboardStats` states the exact
  rounding band.

## Model

| member | source | states |
|---|---|---|
| `Text.Trim` | client/src/pages/AdminPage.jsx:87-88 | the result is empty exactly when the input is all whitespace; otherwise it is the slice between the leading and trailing whitespace runs, and neither of its ends is whitespace |
| `Text.Upper` | client/src/pages/Home.jsx:42-43 | same length as the input, and each character is the ASCII upper case of the input character at that position |
| `Text.TrimPadded` | client/src/pages/Home.jsx:42-43 | whitespace, then a core with no whitespace at either end, then whitespace: trim returns exactly that core |
| `Text.TrimIdempotent` | client/src/pages/AdminPage.jsx:87-88 | trimming twice is the same as trimming once |
| `Text.TrimIgnoresPadding` | client/src/pages/Home.jsx:42 | adding whitespace on either side of a string does not change its trim |
| `Text.UpperIsNormal` | client/src/pages/AdminPage.jsx:88 | an upper-cased string has no lower-case letter, and upper-casing it again changes nothing |
| `Text.TrimUpperCommute` | client/src/pages/Home.jsx:42-43 | trimming then upper-casing equals upper-casing then trimming |
| `Records.Filter` | client/src/pages/AdminPage.jsx:103-104 | the filtered list is no longer than the input and contains exactly the input's elements that satisfy the predicate |
| `Records.FilterMultiplicity` | client/src/pages/AdminPage.jsx:103-104 | each jury occurs in the filtered list as many times as in the input if it satisfies the predicate, and not at all otherwise; duplicates are kept, so the length is a count |
| `Records.FilterAppend` | client/src/pages/AdminPage.jsx:103-104 | filtering a concatenation equals concatenating the filtered parts |
| `Records.FilterExtensional` | client/src/pages/Home.jsx:144-150 | two predicates that agree on every jury filter any list identically |
| `Records.FilterKeepsAll` | client/src/pages/AdminPage.jsx:103 | the filtered list is as long as the input iff every element satisfies the predicate |
| `Records.FilterKeepsNone` | client/src/pages/AdminPage.jsx:103 | the filtered list is empty iff no element satisfies the predicate |
| `Stats.CountsAsSubmitted` | client/src/pages/AdminPage.jsx:103 | the "Submitted" filter: the jury's submitted flag |
| `Stats.CountsAsPaused` | client/src/pages/AdminPage.jsx:104 | a jury counted as paused is never also counted as submitted |
| `Stats.RoundedPercent` | client/src/pages/AdminPage.jsx:113-115 | the result r satisfies r - 1/2 <= 100·part/whole < r + 1/2 (round half up); it lies in [0,100] when part <= whole, is 0 for part 0 and 100 for part = whole |
| `Stats.GetDashboardStats` | client/src/pages/AdminPage.jsx:102-117 | totalJuries and totalTeams are the list lengths; submitted + paused + pending = totalJuries; pending equals the number of juries with neither flag, so it is never negative; the rate lies in [0,100] and is the half-up rounding of 100·submitted/total; an empty list gives all zeros |
| `Stats.BucketsPartition` | client/src/pages/AdminPage.jsx:103-105 | the submitted, paused-but-not-submitted and neither-flag counts add up to the list length |
| `Stats.AppendJury` | client/src/pages/AdminPage.jsx:103-105 | appending one jury adds one to submitted exactly when it has submitted, one to paused exactly when it is paused and has not submitted, and one to pending exactly when it has neither flag; with the empty-list case this fixes both counts for every list |
| `Stats.SubmissionOutranksPause` | client/src/pages/AdminPage.jsx:103-104 | appending a submitted jury adds one to submitted and leaves paused and pending unchanged, even when its paused flag is also set |
| `Stats.AllSubmittedIff` | client/src/pages/AdminPage.jsx:103 | submitted equals the total iff every jury has submitted |
| `Stats.NoneSubmittedIff` | client/src/pages/AdminPage.jsx:103 | submitted is 0 iff no jury has submitted |
| `Stats.RateWhenAllSubmitted` | client/src/pages/AdminPage.jsx:112-115 | when every jury has submitted, the rate is 100 for a non-empty list and 0 for an empty one |
| `Stats.RateWhenNoneSubmitted` | client/src/pages/AdminPage.jsx:112-115 | when no jury has submitted, the rate is 0 |
| `Stats.FourJuryExample` | client/src/pages/AdminPage.jsx:102-117 | two submitted juries (the second paused or not), one paused and one with neither flag give 4 / 2 / 1 / 1 and a rate of 50 |
| `AdminPage.TabId` | client/src/pages/AdminPage.jsx:119-126 | the string id of each of the six tabs, as `setActiveTab` receives it |
| `AdminPage.ParseTab` | client/src/pages/AdminPage.jsx:119-126 | a tab id that parses maps back to the same id; an id that does not parse is no tab's id |
| `AdminPage.TabIdRoundTrip` | client/src/pages/AdminPage.jsx:119-126 | every tab's id parses back to that tab |
| `AdminPage.TabBarListsEachTabOnce` | client/src/pages/AdminPage.jsx:119-126 | the navigation bar (the constant `TabBar`, in source order) lists every tab, and no tab twice |
| `AdminPage.IsDelegated` | client/src/pages/AdminPage.jsx:365 | the external panel handles exactly the tabs other than dashboard and criteria |
| `AdminPage.Sections` | client/src/pages/AdminPage.jsx:217-373 | every rendered section belongs to the active tab; the overview renders iff the tab is dashboard, the criteria editor iff criteria, the export buttons iff exports, and the delegated panel iff the tab is exports, teams, config or juries; only exports renders two sections |
| `AdminPage.SectionsOfDistinctTabsDisjoint` | client/src/pages/AdminPage.jsx:219-365 | two different tabs never render a common section |
| `AdminPage.CriterionToSend` | client/src/pages/AdminPage.jsx:86-89 | nothing is sent iff the input is blank after trimming; otherwise the value sent is non-empty, has no whitespace at either end and has no lower-case letter |
| `AdminPage.CriterionToSendOfPadded` | client/src/pages/AdminPage.jsx:87-89 | for input made of whitespace, a core with non-blank ends, and whitespace, the value sent is exactly the core upper-cased |
| `AdminPage.CriterionToSendIdempotent` | client/src/pages/AdminPage.jsx:87-88 | a value that was sent would be sent unchanged if typed again |
| `AdminPage.CriterionToSendIgnoresCaseAndPadding` | client/src/pages/AdminPage.jsx:87-88 | whitespace padding and upper-casing of the input do not change what is sent |
| `AdminPage.FairnessExample` | client/src/pages/AdminPage.jsx:87-89 | "  fairness  " is sent as "FAIRNESS" |
| `AdminPage.BlankExample` | client/src/pages/AdminPage.jsx:87 | "" and "   " send nothing |
| `AdminPage.ResetFailureText` | client/src/pages/AdminPage.jsx:57 | the error text starts with "Failed to reset: "; the rest is the server's message when present and non-empty, else the error's own message |
| `AdminPage.Page.constructor` | client/src/pages/AdminPage.jsx:17-36 | the page starts on the dashboard tab with empty lists and empty input; the juries, teams, config and criteria fetches are the only requests issued |
| `AdminPage.Page.CurrentStats` | client/src/pages/AdminPage.jsx:151 | the displayed statistics cover the current lists; the three buckets add up to the total and pending is never negative |
| `AdminPage.Page.VisibleSections` | client/src/pages/AdminPage.jsx:217-373 | every section shown belongs to the active tab |
| `AdminPage.Page.SelectTab` | client/src/pages/AdminPage.jsx:200-203 | only the active tab changes; no request is made and no toast is shown |
| `AdminPage.Page.Refresh` | client/src/pages/AdminPage.jsx:62-69 | a full reload issues exactly the juries, teams and config requests, in that order, and changes nothing else; the header's Refresh button (AdminPage.jsx:170-175), the error view's retry and the external panel's `onDataUpdate` (AdminPage.jsx:371) all call it |
| `AdminPage.Page.EditCriterion` | client/src/pages/AdminPage.jsx:307-310 | only on the criteria tab: the input field holds the typed value |
| `AdminPage.Page.Add` | client/src/pages/AdminPage.jsx:86-95 | only on the criteria tab. Blank input: one error toast, no request, input unchanged. Otherwise: exactly one add request carrying the normalised value. If it succeeds, the input is cleared and the list re-fetched; if not, the input stays and nothing follows. The shown list is never changed here |
| `AdminPage.Page.Remove` | client/src/pages/AdminPage.jsx:97-100 | only on the criteria tab: one remove request with the given index, followed by a re-fetch only if the removal succeeded |
| `AdminPage.Page.CriteriaLoaded` | client/src/pages/AdminPage.jsx:81-84 | the shown criteria list becomes exactly the server's list |
| `AdminPage.Page.DataLoaded` | client/src/pages/AdminPage.jsx:70-71 | the jury and team lists become exactly the fetched ones |
| `AdminPage.Page.Reset` | client/src/pages/AdminPage.jsx:38-60 | unconfirmed: no request and no toast. Confirmed: one reset request. On success it shows the success toast and issues the juries, teams and config fetches. On failure it shows an error toast with the server's message, or the error's own message when the server's is missing or empty |
| `Home.AccessGranted` | client/src/pages/Home.jsx:41-45 | the unlock decision: the trimmed, upper-cased input equals the jury's trimmed, upper-cased name or the master key |
| `Home.MasterKeyIsNormal` | client/src/pages/Home.jsx:6 | the master key (the constant `MasterKey`, "CDD123") has no whitespace at either end and no lower-case letter, so the normalised input can equal it |
| `Home.GateIgnoresCaseAndPadding` | client/src/pages/Home.jsx:41-45 | whitespace padding and the letter case of the input never change the access decision |
| `Home.MasterKeyOpensEveryJury` | client/src/pages/Home.jsx:6 | every input that upper-cases to the master key, with any padding, opens every jury |
| `Home.OwnNameOpensJury` | client/src/pages/Home.jsx:42-45 | a jury's own name, as stored or upper-cased and with any padding, opens that jury |
| `Home.NameInAnyCaseOpens` | client/src/pages/Home.jsx:42-45 | input that differs from the jury's name only in letter case opens the jury |
| `Home.BlankNameOpensOnEmptyInput` | client/src/pages/Home.jsx:42-45 | a jury whose name is all whitespace is opened by empty input |
| `Home.OnlyNameOrKeyOpens` | client/src/pages/Home.jsx:42-45 | if access is granted, the upper-cased input is whitespace, then either the jury's trimmed upper-cased name or the master key, then whitespace |
| `Home.PaddedNameOrKeyOpens` | client/src/pages/Home.jsx:42-45 | conversely, every input of that shape is granted access; with the previous row this characterises the gate exactly |
| `Home.WrongNameRefused` | client/src/pages/Home.jsx:42-49 | "panel b" does not open the jury named "Panel A" |
| `Home.ShowsAsSubmitted` | client/src/pages/Home.jsx:144 | the landing page's "Submitted" filter: the jury's submitted flag |
| `Home.ShowsAsPaused` | client/src/pages/Home.jsx:150 | a jury shown as paused is never also shown as submitted |
| `Home.QuickStats` | client/src/pages/Home.jsx:130-153 | the panel shows iff the list is non-empty; the total is the list length; the submitted and paused counts are those of the admin dashboard for the same list, so they never exceed the total together |
| `Home.QuickStatsAgree` | client/src/pages/Home.jsx:144-150 | the landing page's submitted and paused counts equal the admin dashboard's for the same list |
| `Home.Page.constructor` | client/src/pages/Home.jsx:10-15 | the page starts idle: no jury selected, empty input, no error, no navigation |
| `Home.Page.JuriesLoaded` | client/src/pages/Home.jsx:25-26 | the jury list becomes exactly the fetched one; the modal state keeps its invariant |
| `Home.Page.CurrentQuickStats` | client/src/pages/Home.jsx:130 | the quick statistics show iff the current list is non-empty |
| `Home.Page.SelectJury` | client/src/pages/Home.jsx:35-39 | only for a listed jury, since the cards are drawn from the list (Home.jsx:117-121): the modal opens on the chosen jury with empty input and no error; nothing is navigated |
| `Home.Page.EditPassword` | client/src/pages/Home.jsx:174-175 | the input holds the typed value; the modal stays open and any error shown stays |
| `Home.Page.SubmitPassword` | client/src/pages/Home.jsx:41-50 | the result is the access decision. If granted, exactly one navigation to the route of the jury's stored, untrimmed name is recorded. If refused, the fixed error is shown with no navigation; the selection and the input stay as they were |
| `Home.Page.CloseModal` | client/src/pages/Home.jsx:52-56 | back to idle: no jury selected, and both the input and the error are empty |

The landing page's event methods keep `Home.Page.Valid()`. While the modal is
closed, nothing is typed and no error shows. The only error ever shown is the
fixed message. `SubmitPassword` and `EditPassword` require the modal to be
open, because their button and input exist only inside the modal
(client/src/pages/Home.jsx:159).

## Left out

- Network I/O is not modelled. This covers every request's transport, the
  all-or-nothing `Promise.all` reload, and the loading and error flags with
  the error views that show them (the admin error view's retry issues the same
  requests as `AdminPage.Page.Refresh`). Requests are log entries, and their
  outcomes are parameters.
- The server's handling of criteria is not modelled: how it stores, orders,
  de-duplicates or removes them.
- The admin-session flag in `localStorage` is left out (browser storage),
  together with the redirect it guards and the logout button.
- The SweetAlert confirmation dialog is not modelled; its answer is the
  `confirmed` parameter.
- Toasts are recorded as `Notice` values, not shown.
- The two export buttons (`exportAPI.leaderboardExcel`, `exportAPI.juryExcel`)
  are left out: they only trigger file downloads. The model records only that
  the export section renders.
- The landing page's "Go to Admin Panel" button is left out (it is shown only
  for an empty jury list). So is its show/hide-password toggle, which is
  presentation only.
- `AdminPage.Page.Add` and `AdminPage.Page.Remove`: each handler is one atomic
  step. In the source the input is cleared and the list re-fetched only after
  the request's `await` resolves, so text typed while the add request is
  pending is wiped, and a second click before it resolves sends the value
  twice. The model does not capture these interleavings.
- The landing page's jury-list request (client/src/pages/Home.jsx:25, and its
  retry button) is not recorded in any call log; only its answer
  (`Home.Page.JuriesLoaded`) is modelled.
- `encodeURIComponent` is left out. A navigation is recorded as
  `JuryRoute(name)` holding the raw jury name.
- The config object is left out. It is passed through to the external admin
  panel and is never read by these pages.
- `AdminPage.Page.EditCriterion`: stores the typed value as is. The input's
  `onChange` upper-cases it first. `CriterionToSendIgnoresCaseAndPadding`
  shows that this does not change what is sent.
- `Stats.RoundedPercent`: uses exact rational arithmetic. The source computes
  `Math.round((s / n) * 100)` on doubles, which can differ at exact halves:
  57/200·100 evaluates to 28.4999… and rounds to 28, not 29.
- `Text.Trim` and `Text.Upper`: cover ASCII only. JavaScript also trims
  Unicode spaces, and its case mapping is Unicode (for example, "ß" becomes
  "SS").
- The external admin panel component and the jury card component are not part
  of this model. Only the fact that the panel is rendered, and for which tab,
  is recorded.
