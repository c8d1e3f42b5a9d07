# Commonhold campaign prototype: a verified model of its behaviour

The application helps the owners of a twelve-unit building organise a
commonhold conversion. Almost all of it is presentation. This project models
the four parts that compute something:

- **the shell** (App.tsx): the six-owner seed list, the signed count, the
  target of half the units rounded up, the statistics record handed to the
  dashboard, and the active-tab selector;
- **the neighbour directory** (components/CommunityHub.tsx): the four named
  filters over the owner list and the buttons each owner's card offers;
- **the dashboard** (components/Dashboard.tsx): the progress and target
  percentages and the resident / off-site split;
- **the advisory chat panel** (components/AIAdvisor.tsx): a class
  `ChatSession` with the panel's three state fields (`messages`, `input`,
  `isLoading`) and methods for typing, choosing a suggestion, the Ask button,
  the Enter key, and the two ways the outbound model call resolves.

The data shapes of types.ts are the datatypes of module `Types`. JavaScript's
`Array.prototype.filter` (module `Arrays`) and `String.prototype.trim`
(module `JsStrings`, ECMA-262 WhiteSpace and LineTerminator code points) are
modelled once and used throughout.

Exact arithmetic replaces floating point. `Math.ceil(totalUnits * 0.5)` is
`(totalUnits + 1) / 2`. `Math.round(x / t * 100)` rounds halves up, so it is
`(200 * x + t) / (2 * t)` for `t > 0`. Both are proved to be the ceiling and
the nearest integer respectively.

The model call is an outside event. `Submit` returns the list of turns it
would send. The reply arrives later as `CompleteOk(reply)`, where `reply` is
the optional text of the response, or as `CompleteErr()`, where the call threw.
A ghost counter `inFlight` counts calls issued and not yet resolved; it is
bookkeeping of the model, not a field of the source.

Three behaviours of the code are worth stating plainly:

- Only the Ask button is disabled while a reply is awaited. The Enter key
  still sends, so a second question can go out while the first is pending
  (`EnterWhileBusy`).
- The seed list has two signed owners ("1" and "2"), so the dashboard opens
  at 17%.
- The signed count is bounded by the length of the list. It is guaranteed to
  be within the total when the list has at most twelve owners
  (`SignedWithinTotal`).

## Model

| member | source | states |
|---|---|---|
| Arrays.Filter | App.tsx:32 | a filter's result is no longer than its input and every element of it satisfies the predicate |
| Arrays.FilterCons | App.tsx:32 | filtering a list with one more element in front keeps or drops that element and then filters the rest |
| Arrays.FilterIsFilterFrontFirst | App.tsx:32 | deciding the elements from last to first gives the same result as the front-to-back visit of `Array.prototype.filter` |
| Arrays.FilterSelects | components/CommunityHub.tsx:13-19 | a filter's result is the elements at exactly the matching positions, in strictly increasing position order: an order-preserving subsequence |
| Arrays.FilterMembership | components/CommunityHub.tsx:13-19 | a value is in a filter's result exactly when it is in the input and satisfies the predicate |
| Arrays.FilterCounts | App.tsx:32 | `filter(...).length` is the number of positions whose element matches |
| Arrays.FilterAllMatching | components/CommunityHub.tsx:14 | filtering a list whose every element matches returns the list unchanged |
| Arrays.FilterIdempotent | components/CommunityHub.tsx:13-19 | filtering twice with the same predicate equals filtering once |
| Arrays.FilterPartition | components/Dashboard.tsx:98-99 | a predicate and its negation split the list: the lengths add up to the list's and the multisets add up to its multiset |
| Arrays.FilterAgreeing | components/CommunityHub.tsx:15 | two predicates that agree on every value filter any list alike |
| JsStrings.TrimStartIsSuffix | components/AIAdvisor.tsx:27 | the result is the suffix left after removing the leading white space, and it does not start with white space |
| JsStrings.TrimEndIsPrefix | components/AIAdvisor.tsx:27 | the result is the prefix left after removing the trailing white space, and it does not end with white space |
| JsStrings.Trim | components/AIAdvisor.tsx:27 | `input.trim()` is no longer than the input, and it is empty exactly when every character of the input is white space |
| JsStrings.TrimIsTrimmed | components/AIAdvisor.tsx:27 | `trim` keeps a contiguous piece of the text whose first and last characters are not white space, and everything it cuts off before and after that piece is white space |
| App.SignedCount | App.tsx:32 | the signed count is the number of positions holding a signed owner, and at most the list's length |
| App.TargetCount | App.tsx:33 | the target is the least integer that is at least half the total |
| App.ComputeStats | App.tsx:31-43 | the record passed to the dashboard has total 12, the number of signed owners, and the ceiling of half the total |
| App.TotalIndependentOfNeighbors | App.tsx:31 | the total and the target are the same for every owner list, and the target is 6 |
| App.SignedWithinTotal | App.tsx:31-32 | with at most twelve owners the signed count lies between 0 and the total |
| App.TargetExamples | App.tsx:33 | the ceiling of half is 6 for 12 units and 7 for 13 |
| App.SeedIdsDistinct | App.tsx:10-17 | the seed list has six owners with ids "1" to "6", pairwise distinct |
| App.SeedStats | App.tsx:10-17 | on the seed list exactly owners "1" and "2" are signed and the statistics are 12, 2 and 6 |
| App.InitialState | App.tsx:20-21 | the shell starts on the dashboard tab with the seed list |
| App.SetActiveTab | App.tsx:20-21 | switching tabs sets the tab and leaves the owner list as it was |
| App.Render | App.tsx:41-50 | each of the four tabs selects exactly its own view |
| App.RenderPassesState | App.tsx:41-50 | the dashboard is shown exactly on its tab and gets the current list's statistics and the list; the directory is shown exactly on its tab and gets the list |
| App.InitialDashboard | App.tsx:41-47 | on page load the dashboard shows 2 signed of 12 with a target of 6 |
| CommunityHub.Filtered | components/CommunityHub.tsx:13-19 | `filteredNeighbors` is no longer than the list, every owner in it satisfies the selected filter, and it has one entry per matching position |
| CommunityHub.FilteredSelects | components/CommunityHub.tsx:13-19 | the directory's list is the order-preserving subsequence of owners satisfying the filter, holds exactly those owners, and has one entry per matching position |
| CommunityHub.FilterAllIsIdentity | components/CommunityHub.tsx:11-14 | the `all` filter, selected on opening, shows the list unchanged |
| CommunityHub.FilterIdempotent | components/CommunityHub.tsx:13-19 | applying a filter to its own result changes nothing |
| CommunityHub.SignedFilterMatchesCount | components/CommunityHub.tsx:15 | the `signed` filter shows as many owners as the shell counts as signed |
| CommunityHub.SeedSignedFilter | components/CommunityHub.tsx:15 | on the seed list `signed` shows owners "1" and "2" |
| CommunityHub.SeedMissingContactFilter | components/CommunityHub.tsx:16 | on the seed list `missing_contact` shows owners "4" and "6" |
| CommunityHub.SeedNonResidentFilter | components/CommunityHub.tsx:17 | on the seed list `non_resident` shows owners "3" and "6" |
| CommunityHub.CardButtons | components/CommunityHub.tsx:82-96 | a card first offers Add Details when the contact is missing and Message otherwise; it offers Remind exactly for a pending owner whose contact is not missing, then as the second of two buttons after Message, and otherwise the first button alone |
| CommunityHub.MissingContactOnlyAddDetails | components/CommunityHub.tsx:82-96 | an owner without contact details is offered Add Details alone; Add Details never appears with Remind or Message; only pending owners are reminded |
| CommunityHub.SeedReminders | components/CommunityHub.tsx:92-96 | on the seed list only owners "3" and "5" get a Remind button |
| Dashboard.RoundPercent | components/Dashboard.tsx:13 | the result r satisfies r - 1/2 <= 100 * part / total < r + 1/2: rounding to nearest, halves up |
| Dashboard.Percentage | components/Dashboard.tsx:13 | `percentage` is the integer nearest to 100 times signed over total, halves up, and lies in 0 to 100 when the signed count is at most the total |
| Dashboard.TargetPercentage | components/Dashboard.tsx:14 | `targetPercentage` is the integer nearest to 100 times target over total, halves up, and lies in 0 to 100 when the target is at most the total |
| Dashboard.RoundPercentNearest | components/Dashboard.tsx:13 | the integer within half a unit of the exact percentage is unique, and it is the result |
| Dashboard.RoundPercentBounds | components/Dashboard.tsx:13 | with a part between 0 and the total the percentage is between 0 and 100 |
| Dashboard.RoundPercentMonotone | components/Dashboard.tsx:13 | more signed units never give a smaller percentage |
| Dashboard.SeedPercentages | components/Dashboard.tsx:13-14 | the seed statistics show 17% and a 50% target; none of twelve signed shows 0% |
| Dashboard.TargetPercentageIsHalf | components/Dashboard.tsx:14 | the target percentage of the shell's statistics is 50 for every owner list |
| Dashboard.ResidentCount | components/Dashboard.tsx:98 | the "Residents" slice is the number of positions holding a resident owner, at most the list's length |
| Dashboard.OffSiteCount | components/Dashboard.tsx:99 | the "Off-site" slice is the number of positions holding an owner who lives elsewhere, at most the list's length |
| Dashboard.OwnershipSplit | components/Dashboard.tsx:98-99 | the resident and off-site counts add up to the list's length; each owner is in exactly the slice of its residency |
| Dashboard.SeedOwnershipSplit | components/Dashboard.tsx:98-99 | on the seed list four owners live on site and two do not |
| AIAdvisor.ToContents | components/AIAdvisor.tsx:38-40 | the outbound list has one entry per turn, in order, each holding only that turn's text as a single part |
| AIAdvisor.ToContentsAppend | components/AIAdvisor.tsx:38 | the outbound list of a transcript followed by a new turn is the transcript's list followed by the turn's entry |
| AIAdvisor.ReplyText | components/AIAdvisor.tsx:54 | the assistant turn holds the reply text when it is present and non-empty, the fixed fallback otherwise, and is never empty |
| AIAdvisor.UserTurnsSnoc | components/AIAdvisor.tsx:30 | adding a turn at the end adds one user turn exactly when it is a user turn |
| AIAdvisor.ChatSession.constructor | components/AIAdvisor.tsx:11-15 | the panel starts with the greeting as its only turn, an empty buffer and not busy |
| AIAdvisor.ChatSession.SetInput | components/AIAdvisor.tsx:123 | typing replaces the buffer and changes nothing else |
| AIAdvisor.ChatSession.SelectSuggestion | components/AIAdvisor.tsx:137-145 | a suggestion fills the buffer with its canned prompt and neither sends it nor touches the transcript or the busy flag |
| AIAdvisor.ChatSession.Submit | components/AIAdvisor.tsx:26-40 | a blank buffer changes nothing and sends nothing; otherwise the untrimmed text is appended as one user turn, the buffer is cleared, the panel is busy, and the old transcript plus the new turn is sent |
| AIAdvisor.ChatSession.ClickAsk | components/AIAdvisor.tsx:128-130 | while busy the Ask button changes nothing and sends nothing; otherwise it submits |
| AIAdvisor.ChatSession.PressKey | components/AIAdvisor.tsx:124 | Enter submits whether or not the panel is busy; any other key changes nothing |
| AIAdvisor.ChatSession.CompleteOk | components/AIAdvisor.tsx:54-61 | a returned call appends one assistant turn with the reply text or the fallback, and the panel is no longer busy |
| AIAdvisor.ChatSession.CompleteErr | components/AIAdvisor.tsx:56-61 | a failed call appends one assistant turn with the fixed apology, and the panel is no longer busy |
| AIAdvisor.AskAndAnswer | components/AIAdvisor.tsx:26-61 | one question answered gives three turns: greeting, question, reply; the call carries the greeting and the question |
| AIAdvisor.SuggestionThenFailure | components/AIAdvisor.tsx:137-145 | on an idle panel a suggestion asked and failed adds the prompt as a user turn and the apology as an assistant turn, clears the buffer, and leaves the panel idle |
| AIAdvisor.SuggestionsSendable | components/AIAdvisor.tsx:137-142 | every canned prompt has a character that is not white space, so each one passes the blank-input guard |
| AIAdvisor.EnterWhileBusy | components/AIAdvisor.tsx:124-130 | on a busy panel the Ask button sends nothing, but Enter appends the next question and sends it together with the whole transcript, leaving one more call outstanding |

`ChatSession.Valid()` is the panel's invariant and every method keeps it.
The transcript opens with an assistant turn. The constructor puts the
greeting there and every method only appends, so the greeting stays first.
The panel is busy only while a call is outstanding. Twice the number of user turns equals the number of turns after
the greeting plus the calls still outstanding. So once every call has
resolved, each non-blank submission has added exactly two turns. Every
method's `ensures` or frame states the new transcript as the old one with turns added
at the end, so within one mount of the panel earlier turns are never
changed, removed or reordered.

## Left out

- App.Render: leaving the advisor tab unmounts the panel (App.tsx:50). Its transcript, buffer and busy flag are discarded, and a pending reply resolves into the unmounted component and is dropped. So a `ChatSession` lasts one visit to the tab, and the next visit starts again from the greeting. Likewise leaving the community tab (App.tsx:49) discards the directory's filter, which restarts at `all`. `Render` returns stateless screens and does not model these resets.
- The call to the language model: client construction, API key, model name, system instruction and temperature. It is an outside library call; its outcome enters as the argument of `CompleteOk` or as `CompleteErr`.
- Asynchronous timing. Events are applied one at a time in the order given. The model does not track which outstanding call a completion belongs to, only how many are outstanding. The closure over `messages` in the send handler reads the current transcript.
- The `console.error` logging of a failed call, the scroll-into-view effect, and the splitting of turns into lines when rendered. These are presentation.
- Dashboard.Percentage: requires a positive total, because with a zero total JavaScript yields NaN or Infinity and the view shows it as text. The shell always passes 12.
- Dashboard.TargetPercentage: requires a positive total, for the same reason.
- Floating-point rounding of `x / t * 100` before `Math.round`. The model rounds the exact rational value.
- The `filter` state setter of the directory and its buttons are not modelled beyond the initial `all` filter and the four predicates. The directory receives `setNeighbors` but never calls it. Its filtering is a pure function of the list, so the list is unchanged.
- The final `return true` of the directory's filter callback is modelled by no case. It is unreachable with the four filter names.
- Card buttons, the broadcast button, "Add Neighbor" and the template buttons have no handlers, so only which buttons appear is modelled.
- The pie chart and all static dashboard text, such as the priority-action wording. These are not derived from data.
- components/Layout.tsx (tab bar and logo) and components/Roadmap.tsx (fixed step list) are presentation and are not part of this model. `ProjectStatus` and `RoadmapStep` of types.ts are not used by the modelled code.
- The owner `role` field is carried in `Neighbor` but drives nothing.
