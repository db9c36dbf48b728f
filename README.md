# Voting site pages — a Dafny model

This project models the client-side logic of a small voting site's three pages:

- **The voter's page** (`src/pages/Home.jsx`). It shows only the polls whose start/end window contains the current instant. It builds the map from poll to the option this voter chose out of the voter's vote rows. Its vote handler opens only while the site status is `'voting'` and the poll holds no truthy choice. It then records the choice at once and asks the server to count it. Each poll card marks the chosen option as selected and disables every button once a choice exists.
- **The public statistics page** (`src/pages/PublicStats.jsx`). It tallies the fetched polls:
  - each poll's options array is sorted by id in place;
  - each poll gets the sum of its options' counts;
  - the grand total is the sum of those sums.
  
  It labels each option with a percentage that guards against a zero total, and shortens names longer than ten characters. A blank search string clears the results without querying.
- **The administrator's page** (`src/pages/AdminPanel.jsx`):
  - Creating a poll checks the title. It inserts the poll row, then one option per non-blank form entry, tagged with the new poll's id, and resets the form.
  - Deleting a poll removes its votes, then its options, then its row. It reports the outcome of the row deletion only.
  - The form's option list can be edited, shrunk (only while it has more than two entries) and extended.
  - The site status can be switched among `'waiting'`, `'voting'` and `'ended'`. It reads as `'waiting'` when no single settings row exists.

Modules, one file each:

| file | module | contents |
|---|---|---|
| `wrappers.dfy` | `Wrappers` | `Option` |
| `seqs.dfy` | `Seqs` | `Keep`, the array filter the voter's and the administrator's pages use, with its order, count and composition lemmas (the statistics page filters nothing) |
| `text.dfy` | `Text` | `String.prototype.trim` over the ECMAScript whitespace and line-terminator set, and the "blank after trim" test |
| `records.dfy` | `Records` | the table rows: settings, polls, options, votes |
| `home.dfy` | `HomePage` | the voter's page; the page state is the class `Home` |
| `stats.dfy` | `PublicStats` | the statistics page; the fetched poll objects are the class `StatsPoll`, whose options array is sorted in place, and the page state is the class `StatsPage` |
| `admin.dfy` | `AdminPanel` | the administrator's page; the remote tables are the class `Database` and the page state is the class `Panel` |

Remote calls are not executed. On the voter's and the statistics pages, their outcomes are parameters of the handlers: a row set or its absence, and an error flag. On the administrator's page, the tables are the fields of a `Database` object that the handlers read and update. There, the parameters are only the error flags of each query and statement, including a failed settings query, the id a new poll row receives, and the first id the inserted option rows receive (see `AdminPanel.Stored`).

Timestamps are integers. The form's date inputs are `Option<int>`, where `None` stands for the empty input.

## Model

| member | source | states |
|---|---|---|
| `Seqs.Keep` | src/pages/Home.jsx:67-71 | the result is no longer than the input, and a value occurs in it iff it occurs in the input and passes the test |
| `Seqs.KeepCounts` | src/pages/AdminPanel.jsx:98-99 | a filter keeps every passing element exactly as often as it occurs, and no other element |
| `Seqs.KeepOrder` | src/pages/AdminPanel.jsx:98-99 | a filter keeps the original order: its result is a subsequence of its input |
| `Seqs.KeepNarrower` | src/pages/AdminPanel.jsx:72-73 | filtering by a condition and then by a stricter one equals filtering by the stricter one alone |
| `Text.Trim` | src/pages/AdminPanel.jsx:99 | the trimmed string is no longer than the input and is empty or starts and ends with a non-whitespace character |
| `Text.TrimSlice` | src/pages/AdminPanel.jsx:99 | the trimmed string is a slice of the input with only whitespace cut from either end |
| `Text.BlankIffAllWhitespace` | src/pages/PublicStats.jsx:51 | a string trims to `''` exactly when every one of its characters is whitespace |
| `HomePage.ActivePolls` | src/pages/Home.jsx:67-71 | an absent result gives `[]`; otherwise a poll is kept iff it has not started after `now` and has not ended before `now` (bounds inclusive), in fetched order, with fetched multiplicity |
| `HomePage.VotedMapKeys` | src/pages/Home.jsx:79-82 | the voted map's keys are exactly the poll ids of the voter's rows |
| `HomePage.VotedMapLastRow` | src/pages/Home.jsx:80-82 | each key maps to the option of the last row for that poll (later rows overwrite earlier ones) |
| `HomePage.BuildVotedMap` | src/pages/Home.jsx:79-82 | the loop builds the map specified by the recursive definition, with the two properties above |
| `HomePage.Gate` | src/pages/Home.jsx:90-94 | the status is tested first: the vote stops at the status check iff the status is not `'voting'`, stops as already voted iff the status is `'voting'` and the poll holds a truthy choice, and is admitted otherwise |
| `HomePage.NextVotedMap` | src/pages/Home.jsx:89-96 | a refused click leaves the map alone; an admitted one adds exactly that poll's entry and keeps every other entry |
| `HomePage.ChoiceIsFinal` | src/pages/Home.jsx:94-96 | once a poll holds a truthy choice, no sequence of later clicks changes it |
| `HomePage.ClosedStatusRecordsNothing` | src/pages/Home.jsx:90-93 | while the status is not `'voting'`, no sequence of clicks changes the map |
| `HomePage.ClicksOnlyAdd` | src/pages/Home.jsx:96 | clicks never remove a key and never change a truthy entry |
| `HomePage.ZeroOptionIdLeavesGateOpen` | src/pages/Home.jsx:94 | the already-voted test is truthiness: a choice stored as option id 0 leaves the gate open and can be overwritten |
| `HomePage.CardFlags` | src/pages/Home.jsx:264-289 | one flag pair per option; a truthy entry disables every button and selects exactly those with that id; an absent entry enables all and selects none; an entry of 0 enables all and selects the options with id 0 |
| `HomePage.CardAfterVote` | src/pages/Home.jsx:264-289 | after an admitted vote for a non-zero id, every button of that card is disabled and exactly those with the chosen id are selected |
| `HomePage.Home.Card` | src/pages/Home.jsx:234-238 | the card of a listed poll has one flag pair per option; a voted poll's card is disabled with the recorded option selected; a poll without an entry is enabled with nothing selected |
| `HomePage.Home.constructor` | src/pages/Home.jsx:23-28 | status `'waiting'`, no polls, an empty map, loading |
| `HomePage.Home.FetchData` | src/pages/Home.jsx:55-87 | an absent settings row keeps the status; the polls are the active ones; absent vote rows keep the map, present ones rebuild it; loading ends |
| `HomePage.Home.HandleVote` | src/pages/Home.jsx:89-109 | the map changes as `NextVotedMap` says; exactly one increment call is issued iff the vote is admitted; the toast follows the gate and the call's error |
| `PublicStats.SumVotes` | src/pages/PublicStats.jsx:37 | the reduce over no options is 0, and over options with non-negative counts it is non-negative |
| `PublicStats.SumVotesFront` | src/pages/PublicStats.jsx:37 | the left-to-right reduce equals the first count plus the sum of the rest |
| `PublicStats.SumVotesRemove` | src/pages/PublicStats.jsx:37 | removing one option takes exactly its count out of the total |
| `PublicStats.SumVotesPermutation` | src/pages/PublicStats.jsx:36-37 | reordering the options (as the sort does) leaves the total unchanged |
| `PublicStats.OptionWithinPollTotal` | src/pages/PublicStats.jsx:37 | with non-negative counts, each option's count lies between 0 and its poll's total |
| `PublicStats.PollWithinGlobalTotal` | src/pages/PublicStats.jsx:34-38 | with non-negative poll totals, each lies between 0 and the grand total |
| `PublicStats.SortById` | src/pages/PublicStats.jsx:36 | the array ends sorted by ascending id and is a permutation of what it held |
| `PublicStats.Sink` | src/pages/PublicStats.jsx:36 | one insertion step: a sorted prefix grows by one element, contents kept |
| `PublicStats.TallyPoll` | src/pages/PublicStats.jsx:36-37 | a poll's options end sorted and permuted, and its total is the sum of the fetched counts |
| `PublicStats.TallyPolls` | src/pages/PublicStats.jsx:34-39 | every poll is tallied as above, and the returned total is the sum of the per-poll totals |
| `PublicStats.TotalsAre` | src/pages/PublicStats.jsx:38 | the per-poll total sequence lists each poll's own field |
| `PublicStats.TotalsIndex` | src/pages/PublicStats.jsx:38 | entry `k` of the per-poll totals is poll `k`'s own field |
| `PublicStats.Percentage` | src/pages/PublicStats.jsx:134-136 | a share is built iff the poll total is positive; otherwise the label is `'0.0%'` |
| `PublicStats.DisplayName` | src/pages/PublicStats.jsx:140 | names of at most 10 characters are kept; longer ones become their first 10 characters and `'...'` |
| `PublicStats.DisplayNameIdempotent` | src/pages/PublicStats.jsx:140 | shortening a shortened name changes nothing |
| `PublicStats.ChartRows` | src/pages/PublicStats.jsx:128-143 | one row per option in option order, carrying its text and count; the display name has at most 13 characters and equals a name of at most 10; a share exists iff the poll total is positive, and then it is the option's count over that total |
| `PublicStats.ZeroTotalLabelsZero` | src/pages/PublicStats.jsx:134-136 | a poll with a zero total labels every option `'0.0%'` |
| `PublicStats.SharesWithinWhole` | src/pages/PublicStats.jsx:132-141 | with non-negative counts and the computed total, every share lies between 0 and the whole |
| `PublicStats.StatsPage.constructor` | src/pages/PublicStats.jsx:8-12 | no polls, total 0, empty search, no results, loading |
| `PublicStats.StatsPage.FetchData` | src/pages/PublicStats.jsx:26-44 | with polls, each is tallied in place and the page shows them in fetched order with the grand total; without, the old state stays; loading ends |
| `PublicStats.PollWithinPageTotal` | src/pages/PublicStats.jsx:34-41 | in the state the fetch leaves, with non-negative fetched counts, every poll's total lies between 0 and the page's grand total |
| `PublicStats.StatsPage.HandleSearchUser` | src/pages/PublicStats.jsx:46-67 | the id is stored; a query is made iff the id is not blank; a blank id clears the results; an error or an absent result keeps them |
| `AdminPanel.PollsView` | src/pages/AdminPanel.jsx:57-58 | one entry per poll row, each holding exactly the options whose poll id is the row's id |
| `AdminPanel.SettingsOf` | src/pages/AdminPanel.jsx:59-60 | with exactly one settings row the page shows its id and status; otherwise no id and `'waiting'` |
| `AdminPanel.SetStatus` | src/pages/AdminPanel.jsx:64 | rows with the given id take the new status; every other row and every id is kept |
| `AdminPanel.StatusReachable` | src/pages/AdminPanel.jsx:63-65 | from any status, switching the single settings row shows the chosen status next |
| `AdminPanel.OptionsToInsert` | src/pages/AdminPanel.jsx:98-100 | the inserted texts are exactly the non-blank form entries, untrimmed, in form order and with their multiplicity, each tagged with the new poll's id |
| `AdminPanel.FilledFormInsertsAll` | src/pages/AdminPanel.jsx:98-100 | a form with no blank entry inserts every entry in order |
| `AdminPanel.BlankFormInsertsNothing` | src/pages/AdminPanel.jsx:98-100 | a form of blank entries inserts no options |
| `AdminPanel.DeleteKeepsOtherVotes` | src/pages/AdminPanel.jsx:72 | the cascade leaves the votes of every other poll exactly as they were, in order |
| `AdminPanel.DeleteKeepsOtherOptions` | src/pages/AdminPanel.jsx:73 | the cascade leaves the options of every other poll exactly as they were, in order |
| `AdminPanel.DeletedPollNotShown` | src/pages/AdminPanel.jsx:74-81 | after the row deletion the refetched list has no poll with that id and only rows that existed before |
| `AdminPanel.WithoutIndex` | src/pages/AdminPanel.jsx:261 | filtering out index `idx` gives the list with exactly that position removed, or the list itself when there is no such position |
| `AdminPanel.Database.InsertOptions` | src/pages/AdminPanel.jsx:102 | a successful insert appends the stored rows of the form's payload; a failed one leaves the table |
| `AdminPanel.Panel.constructor` | src/pages/AdminPanel.jsx:20-29 | no polls, empty settings, no notice, an empty form with two blank entries |
| `AdminPanel.Panel.FetchData` | src/pages/AdminPanel.jsx:56-61 | the polls with their options (none if that query fails); the settings row's id and status when exactly one row comes back, otherwise no id and `'waiting'`, also when the settings query fails |
| `AdminPanel.Panel.HandleUpdateStatus` | src/pages/AdminPanel.jsx:63-67 | only rows with the shown id are updated (none without an id or on error); the page refetches and notices; with one row shown as fetched, the new status is shown |
| `AdminPanel.Panel.HandleDeletePoll` | src/pages/AdminPanel.jsx:69-83 | unconfirmed: nothing changes; confirmed: votes, options and row of that poll are filtered out step by step, a failed step leaving its table; the notice and the refetch depend on the row deletion alone |
| `AdminPanel.Panel.HandleCreatePoll` | src/pages/AdminPanel.jsx:85-113 | an empty title or a failed poll insert changes no table and no field except the notice; otherwise the active poll row and its options are inserted, the form is reset and the list refetched |
| `AdminPanel.Panel.ResetForm` | src/pages/AdminPanel.jsx:104-108 | title, description and dates empty, options `['', '']` |
| `AdminPanel.Panel.EditOption` | src/pages/AdminPanel.jsx:253-256 | the list keeps its length, slot `idx` holds the new text and every other slot is unchanged |
| `AdminPanel.Panel.RemoveOption` | src/pages/AdminPanel.jsx:259-261 | offered only above two entries; drops exactly entry `idx` and keeps at least two |
| `AdminPanel.Panel.AddOption` | src/pages/AdminPanel.jsx:269 | appends one blank entry; the list never falls below two entries |

## Left out

- Supabase queries, realtime channels, the page's timers and routing are not modelled. Their results are handler parameters or, on the administrator's page, the fields of the `Database` object. Toasts and notices are never cleared.
- The server-side filters and orders of the queries are not modelled: `is_active`, the voter-identity filter of the voter's vote rows, `order('id')`, `order('sort_order')` and `order('created_at')`. On the voter's and the statistics pages, the fetched rows are parameters and arrive already filtered and in the server's order; in particular the `votes` argument of `HomePage.Home.FetchData` holds only this voter's rows.
- `AdminPanel.Panel.FetchData`: the administrator's list follows the order of the `Database` tables, in which inserted rows come last, instead of newest creation time first. After a create the model lists the new poll last, where the page lists it first.
- The `ilike '%id%'` match and the 20-row limit of the voter search are not modelled; the result rows are a parameter.
- The `increment_vote` and `verify_admin` remote procedures run on the server and are not part of this model. Whether the server counts a vote exactly once is therefore not stated.
- `getVoterId` (local storage and randomness) is not modelled; the voter id is a constructor argument of `Home`.
- Administrator login, the token check, password change and logout are not modelled, and `src/pages/AdminLogin.jsx` is not part of this model.
- Floating-point division, `toFixed(1)` and the bar chart itself are not modelled. `Percentage` keeps the numerator and denominator of the share.
- Date parsing and formatting are not modelled. Times are integers, and `new Date(x).toISOString()` is the identity on the form's date values.
- `DisplayName` counts Dafny characters, not UTF-16 code units, so names with characters outside the Basic Multilingual Plane are cut differently.
- Statuses other than `'waiting'`, `'voting'` and `'ended'` cannot be represented, although the voter's page would accept any string from the database.
- Overlapping clicks from stale closures in `handleVote` are not modelled; each click sees the map the previous one left.
- Every handler is modelled as running to completion, one at a time, with its remote results belonging to that call. Responses arriving out of order are not represented. The visible consequence is on the statistics page: `handleSearchUser` runs on every keystroke, so a late response can show results for an id the box no longer holds. It can even show results while the box holds a blank id. In the model, `PublicStats.StatsPage.HandleSearchUser` always leaves results that belong to the current id, and none for a blank one. Likewise, entries typed into the admin form while `handleCreatePoll` awaits its inserts are lost by its reset; the model has no such interleaving.
- The options table's id and count defaults are not visible in the repository. `AdminPanel.Stored` is an assumption, not a property: inserted rows get consecutive ids from a given start and a count of 0.
- `AdminPanel.Panel.HandleCreatePoll`, `HandleDeletePoll` and `HandleUpdateStatus`: the refetch that follows is modelled as succeeding. The active tab and the sidebar flag that create resets are UI state and are not modelled.
- `PublicStats.SortById`: JavaScript's sort algorithm is not specified. The model sorts by insertion and states only what any correct sort promises: the ids are ascending and the contents are a permutation.
