# Pollify vote ledger in Dafny

Pollify lets someone create a poll with a question and 2 to 5 options, share
its 8-character id, and collect votes. This project models the poll ledger at
its core:

- **The server ledger** (`ServerLedger`, from `server/index.js`). The `polls`
  collection is a `map` from poll id to document, held in the class
  `PollCollection`. Its methods are the create, get, vote, results and
  check-vote handlers. Each handler is one atomic step. The vote handler
  builds its `updates` in a loop from the pre-vote snapshot, so a repeated
  index gains only 1.
- **The browser ledger** (`BrowserLedger`, from `src/utils/pollUtils.js`). The
  `pollify_polls` and `pollify_voted` local-storage entries are the `polls`
  and `voted` fields of the class `BrowserStore`. Its `SubmitVote` adds 1 per
  occurrence of an index. It never consults the voted list.
- **Poll ids** (`PollIds`). The two identical `generatePollId` copies are one
  method. It spells eight random draws in the alphabet `a-z0-9`.
- **Vote maps** (`Tally`). These are shared by both ledgers. A missing key
  reads as 0. The total is the sum of all values. The create loop initialises
  one zero per option.
- **Shared values** (`Common`). These are the optional value, which stands
  for `null`, `undefined` or a missing field, and the results payload both
  ledgers answer with.
- **The create form** (`CreatePollForm`). It covers option editing (kept
  between 2 and 5), `trim` and the submit checks.
- **The vote page's selection** (`VoteSelection`). It covers toggling and the
  empty-selection guard.
- **The statistics panel** (`PollStatistics`). It covers a stable ranking by
  votes, the leading option and the poll's age as a phrase.

Inputs that the code takes from the environment are parameters:

- the random draws of `generatePollId`, as a sequence of numbers below 36;
- the current time, in milliseconds;
- the stored contents of local storage when the page loads, as the
  `BrowserStore` constructor's arguments.

Where the code does less than a vote service is commonly expected to do,
the model follows the code:

- Create does not fail on an id that is already taken. The collection has
  no unique index on `pollId` and `findOne` returns the first matching
  document, so the earlier poll stays the one every request reaches
  (`ServerLedger.PollCollection.CreatePoll`).
- The vote handler rejects neither an index outside `[0, options.length)`
  nor several indices on a single-choice poll.
- The vote handler checks the body before it looks up the poll. A bad body
  to an unknown poll therefore gets 400, not 404.

## Model

| member | source | states |
|---|---|---|
| Tally.ZeroVotes | server/index.js:63-65 | the fresh count map has exactly the keys `0..count-1`, all 0 |
| Tally.InitVotes | server/index.js:62-65 | the `forEach` loop yields one zero count per option index and nothing else; its total is 0 |
| Tally.TotalVotes | server/index.js:155 | the `reduce` over `Object.values(votes)` equals the sum of all counts |
| Tally.SumRemove | server/index.js:155 | the total does not depend on the order keys are visited: removing any key removes exactly its count |
| Tally.SumUpdate | server/index.js:127 | setting one key changes the total by the new value minus the old one (0 when absent) |
| Tally.SumAllZero | server/index.js:62-65 | a map of zero counts totals 0 |
| Tally.CountEachCounts | src/utils/pollUtils.js:86-88 | running `votes[i] = (votes[i] \|\| 0) + 1` for each index adds to every key the number of times it occurs, and touches no key that does not occur |
| Tally.CountEachSum | src/utils/pollUtils.js:86-88 | the browser update raises the total by the number of indices, repeats included |
| Tally.BumpedSnoc | server/index.js:125-128 | each pass of the `forEach` adds the pair for its index, its snapshot count plus 1, to `updates` |
| Tally.BumpedCounts | server/index.js:124-128 | the server's `updates` map sets each named index to its pre-vote count plus 1, however often it is named |
| Tally.SumOverride | server/index.js:130-136 | `$set` of updates raises the total by the updates' total minus the counts they replace |
| Tally.BumpedSum | server/index.js:124-136 | the server vote raises the total by the number of distinct indices |
| Tally.RepeatedIndex | server/index.js:125-128 | on `[i, i]` the server adds 1 to `votes[i]` while the browser update (src/utils/pollUtils.js:86-88) adds 2 |
| PollIds.AlphabetSymbols | server/index.js:197 | the alphabet has 36 symbols and its symbol `d` is the letter `a+d` below 26 and the digit `d-26` above |
| PollIds.SymbolRoundTrip | server/index.js:197-200 | each draw below 36 is recovered from its symbol |
| PollIds.SymbolIndex | server/index.js:197 | a character's position in the alphabet, or -1 when it is not in it |
| PollIds.Spell | server/index.js:199-201 | the id has one character per draw, the alphabet's symbol at that draw |
| PollIds.SpellRoundTrip | server/index.js:196-203 | distinct draw sequences spell distinct ids: the draws are recovered from the id |
| PollIds.GeneratePollId | server/index.js:196-203 | the loop returns 8 characters, all from `a-z0-9`, namely the draws spelled out; the copy in src/utils/pollUtils.js:2-9 is identical |
| ServerLedger.NewPoll | server/index.js:52-65 | a created document has zero counts for exactly the option indices, no voters, and `multipleChoice` false unless it was given as true |
| ServerLedger.NewPollWellFormed | server/index.js:44-65 | an accepted create yields a well-formed document whose total is 0 |
| ServerLedger.BallotWellFormed | server/index.js:119-136 | an accepted vote keeps the document well formed: voter ids stay distinct and the total grows by the distinct indices, at least one, so it never falls behind the voter list |
| ServerLedger.VoteKeepsWellFormed | server/index.js:119-136 | storing the voted document keeps every document in the collection well formed |
| ServerLedger.RevoteRejected | server/index.js:119-121 | after a voter's accepted vote, every later vote by that voter is rejected, as already voted once its index array is non-empty |
| ServerLedger.PollCollection.constructor | server/index.js:20-29 | the collection starts empty and valid |
| ServerLedger.PollCollection.CreatePoll | server/index.js:39-77 | a falsy question, missing options or fewer than 2 options give 400 and change nothing; otherwise 201 with the spelled id, and the new poll is stored unless that id is already taken |
| ServerLedger.PollCollection.GetPoll | server/index.js:80-96 | 404 exactly for an unknown id; otherwise 200 with every field of the stored document except `voterIds` |
| ServerLedger.PollCollection.Vote | server/index.js:99-143 | the four checks in source order, each failure with its status and text and no change; success applies `$set` of the bumped counts and `$push` of the voter, after which check-vote reports true for that voter |
| ServerLedger.PollCollection.Results | server/index.js:146-169 | 404 for an unknown id; otherwise the question, options, counts, their total, the choice mode and creation time, without voter ids |
| ServerLedger.PollCollection.CheckVote | server/index.js:172-193 | 400 for a falsy voter id before any lookup, 404 for an unknown poll, otherwise whether the voter id is in the poll's voter list |
| BrowserLedger.Indices | src/utils/pollUtils.js:85 | a single index is treated as a one-element list and an array is taken as it is |
| BrowserLedger.Saved | src/utils/pollUtils.js:15-19 | the saved record keeps the data's fields, gets the current time as `createdAt`, and gets `{}` when it had no counts |
| BrowserLedger.StartingVotes | src/utils/pollUtils.js:77-82 | a record without counts starts from one zero per option, totalling 0 |
| BrowserLedger.Marked | src/utils/pollUtils.js:61-64 | the voted list gains the poll id at the end only when it was absent |
| BrowserLedger.MarkedIdempotent | src/utils/pollUtils.js:57-68 | marking twice is marking once, and a list without duplicates keeps none |
| BrowserLedger.VotedCounts | src/utils/pollUtils.js:76-91 | a browser vote adds to each count its index's number of occurrences, and the total grows by the number of indices |
| BrowserLedger.VotedTwice | src/utils/pollUtils.js:71-93 | a second vote with the same choice counts every index again |
| BrowserLedger.BrowserStore.constructor | src/utils/pollUtils.js:29-37 | the store holds what local storage held |
| BrowserLedger.BrowserStore.SavePoll | src/utils/pollUtils.js:12-26 | returns true and overwrites only the entry for the poll id with the saved record |
| BrowserLedger.BrowserStore.GetPoll | src/utils/pollUtils.js:40-43 | `null` exactly for an unknown id, the stored record otherwise |
| BrowserLedger.BrowserStore.HasVoted | src/utils/pollUtils.js:46-54 | true exactly when the poll id occurs in the voted list |
| BrowserLedger.BrowserStore.MarkAsVoted | src/utils/pollUtils.js:57-68 | the voted list becomes the marked list, `hasVoted` then holds, and a list without duplicates keeps none |
| BrowserLedger.BrowserStore.SubmitVote | src/utils/pollUtils.js:71-98 | false and no change for an unknown poll; otherwise true, the record is replaced by the counted and re-saved one and the poll is marked, whatever the voted list held |
| BrowserLedger.BrowserStore.GetResults | src/utils/pollUtils.js:101-115 | `null` for an unknown poll; otherwise the record's fields with missing counts read as `{}` and `totalVotes` their sum |
| CreatePollForm.AddOption | src/components/CreatePoll.jsx:14-18 | one empty option is appended only below 5 options, so a list of 2 to 5 stays within 2 to 5 |
| CreatePollForm.RemoveOption | src/components/CreatePoll.jsx:20-24 | above 2 options exactly position `k` is removed and the rest keep their order; at 2 nothing changes, so a list of 2 to 5 stays within 2 to 5 |
| CreatePollForm.UpdateOption | src/components/CreatePoll.jsx:26-30 | the copy has the same length, the new value at `k` and every other position unchanged |
| CreatePollForm.TrimStart | src/components/CreatePoll.jsx:37 | the leading part of `trim`: a suffix that is empty or starts with a non-space, with only white space dropped |
| CreatePollForm.TrimEnd | src/components/CreatePoll.jsx:37 | the trailing part of `trim`: a prefix that is empty or ends with a non-space, with only white space dropped |
| CreatePollForm.TrimEmpty | src/components/CreatePoll.jsx:37 | a string trims to empty exactly when every character is white space |
| CreatePollForm.TrimIdempotent | src/components/CreatePoll.jsx:52 | the trimmed question trims to itself |
| CreatePollForm.NonBlank | src/components/CreatePoll.jsx:42 | the kept options are no more than the entries and none of them is blank |
| CreatePollForm.NonBlankCounts | src/components/CreatePoll.jsx:42 | every non-blank entry is kept as often as it occurs in the list, and a blank one never |
| CreatePollForm.NonBlankInOrder | src/components/CreatePoll.jsx:42 | the kept options appear in their original order |
| CreatePollForm.Validate | src/components/CreatePoll.jsx:32-55 | a blank question is refused first, then fewer than 2 non-blank options; otherwise the trimmed question, the non-blank options and the choice mode are sent |
| CreatePollForm.SentRequestWellFormed | src/components/CreatePoll.jsx:51-57 | what the form sends has a non-empty trimmed question and at least 2 non-blank options, so the server's create check (server/index.js:44) accepts it |
| VoteSelection.Without | src/components/ViewPoll.jsx:47 | the filter drops every occurrence of the index and keeps every other element, in order |
| VoteSelection.Select | src/components/ViewPoll.jsx:42-54 | single choice gives exactly `[index]`; multiple choice removes a ticked index keeping the rest in order, or appends an unticked one at the end |
| VoteSelection.ToggleMembership | src/components/ViewPoll.jsx:45-49 | a toggle flips the membership of its index only and keeps a selection free of duplicates |
| VoteSelection.ToggleTwice | src/components/ViewPoll.jsx:45-49 | toggling an index twice restores the set of ticked indices, and the exact selection when it was not ticked |
| VoteSelection.Submit | src/components/ViewPoll.jsx:56-60 | an empty selection only shows the error and sends nothing; otherwise the selection is sent as it is |
| VoteSelection.SentSelectionHasIndices | src/components/ViewPoll.jsx:56-66 | a sent selection passes the server vote's index check (server/index.js:104-106) |
| PollStatistics.Tabulate | src/components/PollStatistics.jsx:9-14 | one row per option, in option order, with its count or 0 |
| PollStatistics.Insert | src/components/PollStatistics.jsx:15 | one insertion step keeps the rows in non-increasing order and adds exactly the one row |
| PollStatistics.SortByVotes | src/components/PollStatistics.jsx:9-15 | the ranking is a permutation of the rows in non-increasing vote order |
| PollStatistics.InsertWithVotes | src/components/PollStatistics.jsx:15 | an insertion step places its row ahead of every row with the same count |
| PollStatistics.SortStable | src/components/PollStatistics.jsx:15 | the sort is stable: rows with equal counts keep the options' order |
| PollStatistics.WinnerIsMax | src/components/PollStatistics.jsx:17 | the leading option is one of the rows and has at least as many votes as every option |
| PollStatistics.AgeFrom | src/components/PollStatistics.jsx:102-109 | the first unit, from year down to minute, whose floored quotient is at least 1, with that quotient; "Just now" when there is none |
| PollStatistics.JustNowBelowAMinute | src/components/PollStatistics.jsx:90-110 | "Just now" exactly when fewer than 60 whole seconds have passed, negative ones included |
| PollStatistics.Decimal | src/components/PollStatistics.jsx:105 | the count is printed with decimal digits only, with no leading zero |
| PollStatistics.DecimalRoundTrip | src/components/PollStatistics.jsx:105 | the printed digits read back as the count |
| PollStatistics.Phrase | src/components/PollStatistics.jsx:105-109 | "Just now" exactly for no unit; otherwise the unit name ends in "s" exactly when the count exceeds 1 |
| PollStatistics.PhraseRoundTrip | src/components/PollStatistics.jsx:105-109 | the phrase reads back as the age it was made from: its numeral, which has no leading zero, is the count, and its word without the plural "s" is the unit's name |
| PollStatistics.TimeSince | src/components/PollStatistics.jsx:90-109 | "Just now" exactly when the floored seconds between the two times are below 60; otherwise the text reads back as the first unit that fits, with its floored count, and ends in "s" exactly when that count exceeds 1 |
| PollStatistics.Statistics | src/components/PollStatistics.jsx:3-55 | nothing exactly when the results or their options are missing; otherwise the stable ranking, its first row as the leader, the ranking shown only when `totalVotes > 0`, the total and the number of options as given, and the age, or "Recently" when `createdAt` has no `toDate` |

## Left out

- Transport and storage plumbing are not modelled: Express routing, CORS, environment loading, `connectDB` and `startServer`. The Mongo calls are operations on the `polls` map.
- Concurrency is not modelled. Each handler is one atomic step. The window between `findOne` and `updateOne` in the vote handler, and the duplicate votes it admits under concurrent requests, are outside the model.
- The 500 answers from the handlers' `catch` blocks, and the `false`/`{}` results of the `catch` blocks in the browser ledger, are not modelled. A failing driver, storage or JSON parser reaches them. So do request bodies and stored records of shapes the model does not represent (see the lines on indices and option texts below). For example, a create body whose `options` is a string of length 2 passes the check at server/index.js:44, throws at `options.forEach` and gets 500 instead of 400. A stored record with neither `votes` nor `options` makes the browser's `submitVote` throw at `poll.options.forEach` and return `false`.
- `Math.random` is an input: `generatePollId` takes its eight draws as a parameter.
- `Date.now()` and `new Date()` are inputs: the current time is a parameter, in milliseconds. A server `createdAt` is that number, not a `Date` object.
- `getAllPolls` is the `BrowserStore.polls` field itself, and the JSON round trip through local storage is taken to be lossless.
- BrowserLedger.BrowserStore.GetPoll: ids that name an `Object.prototype` member (`constructor`, `toString`, `__proto__`, …) are outside the model. The stored polls are a plain JavaScript object, so `polls[pollId] || null` finds the inherited member for such an id and returns it instead of `null`. The model's map has no inherited keys and answers `None`. Ids from `generatePollId` are 8 characters of `a-z0-9` and never name such a member.
- BrowserLedger.BrowserStore.GetResults: for the same ids the page answers a summary with `votes` `{}`, `totalVotes` 0 and the other fields `undefined`. The model answers `None`, for the reason given for `GetPoll`.
- BrowserLedger.BrowserStore.SavePoll: for the id `__proto__` the assignment at src/utils/pollUtils.js:15 runs the prototype setter. Nothing is stored, and the call still returns `true`. The model stores the record under that key. A later `submitVote("__proto__", …)` sets `votes` on `Object.prototype` before it throws. That prototype pollution is not modelled, for the reason given for `GetPoll`.
- Vote indices are integers. String or fractional keys, and JSON values other than arrays of numbers, are not modelled. A non-array `optionIndices` on the server is the single `NotAnArray` case.
- `ServerLedger.PollCollection.Vote`: the document's `voterIds` is always present, because every document comes from the create handler. The `poll.voterIds &&` guard for documents without one is therefore not modelled.
- Option texts are strings, and the create handler's `options` is a list of strings. The server checks the type of neither, and the model does not represent other JSON values.
- `String.prototype.trim` is modelled on code points, with the ECMAScript white-space and line-terminator set. Surrogate pairs are not treated specially.
- `toFixed` percentages and `averageVotes` on the statistics panel are left out, because they are floating-point display maths. So are the percentages and bar widths on the results page.
- The browser side of `src/utils/api.js` (fetch wrappers, `getVoterId`) is not part of this model.
- Rendering, the React effects, timers, the results page's polling interval, and the celebration animation are presentation only.
- Share buttons, logo, theme, templates and routing are presentation only.
- PollStatistics.Statistics: with an empty option list and `totalVotes > 0` the page throws reading `winner.option` of `undefined`. The model returns a panel with no winner instead, because it has no thrown errors. The server cannot store such a poll: create demands 2 options.
