# Models and proofs for the chat gateway

The gateway stands between chat clients and language models. It picks a model for each request,
passes the request on, streams the answer back, runs tools that the answer asks for, and when a model
fails it tries again or turns to the next one. This project models the parts in which state, order and
arithmetic matter, and proves what they promise.

| file | what it is about |
|---|---|
| `VisibleKey`, `RoundRobin`, `PriorityGroup` | smooth weighted round robin, one counter vector per list of models that some user sees |
| `StableSort`, `PriorityRouter`, `PriorityStrategy` | the priority router: groups, visibility, the selected model and the fall-back list |
| `SemanticRouter`, `SemanticOutcome` | ordering and selection by score, with tie-breaks inside score buckets, and what comes of it |
| `StreamWindow`, `StreamDetection`, `StreamAfterTag`, `TagLeaks`, `StreamCompletion`, `PassedLines` | the six-chunk window in which tool tags are recognised, what the client and the tool get, the end of an answer, and the lines passed on unread |
| `ToolLoop`, `ToolResults`, `StreamingRun`, `ServedAnswer` | one streaming attempt with its tool calls, what the model is told of them, a whole request made of such attempts, and what a served one delivered |
| `Failures`, `DegradationTrace`, `Degradation`, `NextCalls`, `TraceOfCalls`, `Gateway` | retry and degradation on both response paths, which call follows which, and the bounded trace of it |
| `RoutedPaths` | when the router's lists are lists on which both paths agree |
| `IdleTimer`, `IdleProgress`, `SharedBudget` | the idle timeout over all interleavings, and the budget that all attempts of a request share |
| `RequestCodec` | JSON pass-through of requests |
| `Utf8`, `Utf8Encoding`, `ErrorSampler` | truncation without breaking characters; sampling of error logs |
| `Options`, `Strings` | a value that may be missing; joining and searching texts |

Where the source updates objects, arrays or slices, the model does so too: classes with fields,
in-place sorts, loops with invariants. Each method is tied to a specification function, and the lemmas
about those functions are the results. What the gateway cannot decide itself is an arbitrary function
or an arbitrary step: what a model answers and how it fails, what a tool returns, when a timer fires,
when a context is cancelled. The retry loops are proved for every environment, and `StreamingRun` puts
the streaming attempt with its tool loop into them.

## What the proofs show

- **Round robin.** For positive weights of total W, any W consecutive picks choose each model exactly
  as often as its weight says, and after any number of picks no model is a whole pick ahead of its
  share. The search for the maximum starts from -1, which is right only because the counters always
  sum to zero and the maximum is therefore positive. Users of different VIP levels share one group
  without disturbing each other: each pick is the one a private round robin would make. The class
  carries this through whole histories of requests.
- **Lists.** Grouping by priority, concatenating and sorting again gives one stable sort of the
  configuration. In the semantic router, bucket-wise re-sorting gives one lexicographic stable sort.
- **Streaming.** Detection fires exactly when six consecutive chunks hold a tag. The answer is then cut in
  two at that tag: the client has what precedes it, the tool is run on the rest, and the next upstream call
  carries its result. Answers without tools arrive whole.
- **Retries.** Which call follows which is determined call by call, and with it the trace: the same model
  again, the next one, or the end, by the failure, the budget and the context alone. An attempt is committed exactly when it brings content, and a committed attempt is the
  last. So every attempt starts from the same messages, and all content text and tool calls come from
  one attempt. On a clean list streaming and single-response requests make the same calls and reach the
  same verdict, unless the streaming run breaks off after content was sent.
- **Timeouts.** Interleavings of the runtime timer, its watcher and the request keep the invariants;
  before the first token silence always ends in cancellation, whatever the order of steps, and data starts the
  timer afresh; a stopped timer changes nothing; exactly which taken ticks are dropped as stale. Once the shared budget
  is spent one more call is made at most, and it is cancelled before it begins.
- **Pass-through.** A raw request reaches the model with only `model` replaced exactly under a stated
  condition on the body, and passing on twice is passing on once.

## Where the code falls short of what it seems to promise

- A tick that was taken from the timer's channel counts unless the timer is stopped or a `Reset` comes
  after the generation was captured (`IdleTimer.TakenTickExactly`). So a `Reset` between taking the tick and
  the capture (idle.go:136-141) is not noticed; the old tick then cancels an attempt that has just received
  data (`IdleTimer.ResetBeforeCaptureIsMissed`).
- An attempt that its own timer cancelled is not always reported as an idle timeout
  (`IdleTimer.ReportedExactly`). A timer created after the budget is spent is cancelled but not marked
  (`IdleTimer.SpentBudgetLooksCancelled`), and a line that is still read after the timeout clears the mark
  (`IdleTimer.LateDataLooksCancelled`). Both are reported as a cancelled context, which ends the request
  as if the client had gone (`SharedBudget.SpentBudgetEndsTheRun`).
- The streaming path tries every entry of the model list, the single-response path skips empty and
  repeated names. They agree in all environments exactly on lists without those (`Degradation.PathsAgree`,
  `Degradation.RepetitionTellsThemApart`). The priority configuration check does not forbid naming a
  model twice; `RoutedPaths.RoutedListIsClean` says when that shows in a list.
- With a negative retry limit nothing is called. The single-response path then reports success, and the
  streaming path asks the missing error for its text and panics, unless the context is cancelled
  (`Degradation.AgreeExactlyWithRetryLimit`, `Degradation.PanicsExactly`). The configuration loader replaces such limits
  (internal/config/loader.go:94-97, 152-155, 172-175).
- The comments at semantic.go:202-203 promise score, tie-break order, then name ascending. Nothing in
  semantic.go:218-220 and 230-253 compares names, so the promise is kept exactly if candidates that tie in
  score and in tie-break position are already configured in the order of their names
  (`SemanticRouter.DocumentedExactly`, `SemanticRouter.DocumentedWithoutLabelExactly`). It fails without a
  tie-break order, and also with one, since all names that the order does not mention share position zero
  (`SemanticRouter.DocumentedOrderFails`). The selection without a tie-break order does go by name, so the
  head of the list need not be the selected model (`SemanticRouter.HeadIsSelectedWithoutTieBreak`).
- The window's six chunks are an exact limit: a tag that arrives in more pieces reaches the client
  unrecognised (`StreamDetection.DetectedExactly`, `StreamDetection.SingleBytesEscape`).
- A tag that is whole before the place where detection cuts the answer is sent to the client
  (`StreamAfterTag.LeaksExactly`). That happens to another configured tag, since detection goes by the order
  of the configuration and not of the text (`TagLeaks.EarlierTagLeaks`), and to the detected tag itself when
  it came before in more than six chunks (`TagLeaks.SpelledTagLeaks`).
- The end mark is handed to the tool as part of its input (`ToolLoop.ToolGetsTheRest`).
- Outside raw mode lines without content are passed on before an attempt is committed, so a client can see
  such lines from attempts that were given up (`ToolLoop.LeavesNothingExactly`,
  `StreamingRun.GivenUpAttemptLeavesALine`); only content text is confined to one attempt.
- Outside raw mode an answer without content counts as served, with an error event for the client, and no
  other model is tried; in raw mode it is a failure (`ServedAnswer.ServedRunDelivers`).
- A tool result that is too long is cut at a byte, which can split a character (`Utf8.CutResultExactly`).
- A clock that goes back lets the error sampler admit more than its limit
  (`ErrorSampler.HistoryAnswersExactly`).

## Model

| member | source | states |
|---|---|---|
| `VisibleKey.BuildVisibleSetKey` | internal/router/strategies/priority/round_robin.go:36-42 | the loop over a builder writes the length-prefixed key of the list |
| `VisibleKey.DecodeKey` | internal/router/strategies/priority/round_robin.go:36-42 | a decoder that reads digits up to ':' and then that many bytes recovers the exact list of names, for every list |
| `VisibleKey.KeyInjective` | internal/router/strategies/priority/round_robin.go:36-42 | equal keys mean equal lists of names |
| `RoundRobin.ChosenIsPositive` | internal/router/strategies/priority/round_robin.go:67-75 | with positive weights and counters that sum to zero the largest raised counter is positive, so the search from -1 cannot miss it |
| `RoundRobin.NextZeroSum` | internal/router/strategies/priority/round_robin.go:62-78 | a pick keeps the counters summing to zero |
| `RoundRobin.CounterMeaning` | internal/router/strategies/priority/round_robin.go:62-78 | after t picks the counter of i is t*w_i - W*c_i |
| `RoundRobin.CountersBelow` | internal/router/strategies/priority/round_robin.go:62-78 | no counter ever falls below 1 - W |
| `RoundRobin.PrefixFair` | internal/router/strategies/priority/round_robin.go:62-78 | after any t picks: t*w_i - (n-1)(W-1) <= W*c_i <= t*w_i + W - 1, and c_i is at most the ceiling of t*w_i/W |
| `RoundRobin.RoundCounts` | internal/router/strategies/priority/round_robin.go:57-80 | the first W picks choose candidate i exactly w_i times |
| `RoundRobin.ScheduleRepeats` | internal/router/strategies/priority/round_robin.go:57-80 | counters and choices have period W |
| `RoundRobin.PeriodFair` | internal/router/strategies/priority/round_robin.go:57-80 | any W consecutive picks choose i exactly w_i times; at every multiple of W all counters are zero |
| `PriorityGroups.TotalWeight` | internal/router/strategies/priority/round_robin.go:62-65 | the loop computes the total weight |
| `PriorityGroups.Raise` | internal/router/strategies/priority/round_robin.go:67-75 | the loop from the -1 sentinel finds the first maximum of the raised counters |
| `PriorityGroups.Advance` | internal/router/strategies/priority/round_robin.go:62-78 | one pick's counters and index, still summing to zero |
| `PriorityGroups.PriorityGroup.AddModel` | internal/router/strategies/priority/round_robin.go:32-34 | appends the model |
| `PriorityGroups.PriorityGroup.Pick` | internal/router/strategies/priority/round_robin.go:44-81 | the locked body: the name picked and the whole new state map, including the empty and one-candidate paths and a vector of the wrong length |
| `PriorityGroups.PriorityGroup.SelectVisibleModelByRoundRobin` | internal/router/strategies/priority/round_robin.go:44-81 | after any history of requests by any users, the name is the next pick of a private round robin over the caller's own visible list |
| `PriorityGroups.SeenExactly` | internal/router/strategies/priority/priority.go:202-218 | a candidate is seen exactly by requests of at least its level: an unexpired user's own level, and zero for everyone else |
| `PriorityGroups.VisibleNested` | internal/router/strategies/priority/priority.go:202-227 | visible lists are nested by effective VIP level, and two of equal length are the same list |
| `PriorityGroups.SameNamesSameList` | internal/router/strategies/priority/round_robin.go:52-60 | within one group, lists with the same names are the same list, even when names repeat |
| `PriorityGroups.StatesAreIsolated` | internal/router/strategies/priority/round_robin.go:44-81 | the stored vector of a visible list is that of a private round robin after as many picks as requests saw the list |
| `PriorityGroups.InterleavingIsPrivate` | internal/router/strategies/priority/round_robin.go:44-81 | in every interleaving each pick is the one the private round robin would make, also on the one-candidate path |
| `PriorityGroups.PickedIsCount` | internal/router/strategies/priority/round_robin.go:44-81 | the picks actually made for a visible list, whatever is served in between, are as many for each model as those of a private round robin |
| `PriorityGroups.StretchIsFair` | internal/router/strategies/priority/round_robin.go:44-81 | over any stretch in which W requests see a list, in whatever company, the group picks each of its models for them exactly as often as its weight says |
| `PriorityRouter.ValidateConfig` | internal/router/strategies/priority/priority.go:268-298 | an error exactly for configurations that are not accepted, and which one |
| `PriorityRouter.GatheredIsSorted` | internal/router/strategies/priority/priority.go:236-266 | visiting groups in ascending priority and concatenating equals one stable sort by priority of the visible enabled candidates |
| `PriorityRouter.ListFromGroups` | internal/router/strategies/priority/priority.go:127-148 | sorting the concatenation again equals one stable sort of the whole configuration by priority ascending, weight descending, then filtered |
| `PriorityRouter.BuildOrderedCandidates` | internal/router/strategies/priority/priority.go:130-148 | the selected model, then all other visible candidates, lower priority numbers first, of equal priority the heavier first, of equal weight as they came |
| `PriorityRouter.ListHeaviestFirst` | internal/router/strategies/priority/priority.go:127-148 | the same of the list that a request gets, over the whole configuration: exactly the enabled models that it sees, other than the selected one |
| `PriorityRouter.BuiltHeaviestFirst` | internal/router/strategies/priority/priority.go:130-148 | the reference for the list built from what a user sees is that order |
| `PriorityRouter.AppendVisibleFallback` | internal/router/strategies/priority/priority.go:168-191 | what the fallback step returns |
| `PriorityRouter.FallbackChangesNothing` | internal/router/strategies/priority/priority.go:168-191 | every visible model is already listed, so the fallback step never changes the list |
| `PriorityStrategy.Strategy.constructor` | internal/router/strategies/priority/priority.go:95-125 | each group holds the enabled candidates of its priority in configuration order, and has served nobody |
| `PriorityStrategy.Strategy.Place` | internal/router/strategies/priority/priority.go:97-118 | files one candidate, creating its group when needed |
| `PriorityStrategy.SortInts` | internal/router/strategies/priority/priority.go:237-241 | the same priorities in ascending order, whatever order the map gave |
| `PriorityStrategy.Strategy.VisibleSelectionFor` | internal/router/strategies/priority/priority.go:236-266 | the first non-empty visible group, and all visible candidates in stable priority order, whatever the map's iteration order |
| `PriorityStrategy.ServedIsLowest` | internal/router/strategies/priority/priority.go:236-266 | a request is served from exactly those models it may have whose priority number is least among them |
| `PriorityStrategy.AutoExactly` | internal/router/strategies/priority/priority.go:62-64 | the router acts on the name auto in any case of letters, and on no other |
| `PriorityStrategy.Strategy.Run` | internal/router/strategies/priority/priority.go:53-93 | when a request is routed, refused or left alone; the selected model is the private round robin's next pick; only the serving group moves; the list is the reference list |
| `PriorityStrategy.New` | internal/router/strategies/priority/priority.go:29-45 | a strategy exactly for accepted configurations |
| `StableSort.SliceStable` | internal/router/strategies/priority/priority.go:134-139 | in-place stable sort of a stretch: equals the specification sort, the rest untouched |
| `StableSort.SortedIsStable` | internal/router/strategies/priority/priority.go:134-139 | the specification sort is ordered, a permutation, and keeps the order within every rank |
| `StableSort.SortedUnique` | internal/router/strategies/priority/priority.go:134-139 | ordered with the same sequence in every rank determines the result: any stable sort returns this list |
| `StableSort.SortedTwice` | internal/router/strategies/semantic/semantic.go:234-253 | sorting by a coarse key and then by a refinement equals one sort by the refinement |
| `RoutedPaths.RoutedListIsClean` | internal/router/strategies/priority/priority.go:130-148 | the router's list starts with the selected model, holds no empty name, and no repetition exactly if no two of the other enabled candidates that the user sees share a name |
| `RoutedPaths.RoutedListsAgree` | internal/router/strategies/priority/priority.go:89-92 | under exactly that condition both retry paths behave alike on the list in every environment, unless the streaming run breaks off after content was sent; without it some environment tells them apart |
| `SemanticRouter.OrderCandidatesByLabel` | internal/router/strategies/semantic/semantic.go:205-265 | the list of the reference: one stable sort by (score descending, tie-break index), deduplicated, fallback appended |
| `SemanticRouter.BreakTies` | internal/router/strategies/semantic/semantic.go:238-253 | re-sorting every equal-score bucket in place gives one lexicographic stable sort |
| `SemanticRouter.DedupNames` | internal/router/strategies/semantic/semantic.go:267-278 | keeps first occurrences in order |
| `SemanticRouter.IndexMap` | internal/router/strategies/semantic/semantic.go:815-821 | its keys are exactly the names of the order, each with the last place where it stands |
| `SemanticRouter.PositionExactly` | internal/router/strategies/semantic/semantic.go:815-821 | the position of a name: its last place in the order, zero if it is not mentioned |
| `SemanticRouter.SelectByLabel` | internal/router/strategies/semantic/semantic.go:744-789 | the selected model, including the fallback cases |
| `SemanticOutcome.SelectedExactly` | internal/router/strategies/semantic/semantic.go:744-789 | for every request: without a candidate scoring at least zero and the minimum the fall-back model, or else the model asked for; otherwise a name with the top score, the one that the tie-break order mentions first if it mentions all of them and none twice, without an order the alphabetically first |
| `SemanticOutcome.ListedByMention` | internal/router/strategies/semantic/semantic.go:230-253 | the list has higher scores first, and of equal scores the name that an order without repetition mentions first |
| `SemanticOutcome.ListExactly` | internal/router/strategies/semantic/semantic.go:205-265 | the list holds every candidate's name once and the fall-back model, last unless it is a candidate, and nothing else |
| `SemanticOutcome.DedupExactly` | internal/router/strategies/semantic/semantic.go:267-278 | no repetition is left, and names stand in the order of their first occurrences |
| `SemanticOutcome.AtMostExactly` | internal/router/strategies/semantic/semantic.go:219-221 | the alphabetical order is that of the first differing character, a front part coming first |
| `SemanticRouter.SortByScore` | internal/router/strategies/semantic/semantic.go:234-253 | both sorting passes together |
| `SemanticRouter.MaxScore` | internal/router/strategies/semantic/semantic.go:761-767 | the top score if it is above -1, else -1 |
| `SemanticRouter.CollectWinners` | internal/router/strategies/semantic/semantic.go:772-777 | the names with the top score, in order |
| `SemanticRouter.HeadIsSelected` | internal/router/strategies/semantic/semantic.go:744-789 | with a tie-break order and a deciding top score the list starts with the selected model |
| `SemanticRouter.HeadIsSelectedWithoutTieBreak` | internal/router/strategies/semantic/semantic.go:205-265 | without a tie-break order it does so exactly when the first top-scored candidate has the least name among them |
| `SemanticRouter.HeadMayDiffer` | internal/router/strategies/semantic/semantic.go:202-265 | two equal scores listed against the alphabet: head of the list and selection differ |
| `SemanticRouter.DocumentedExactly` | internal/router/strategies/semantic/semantic.go:202-256 | with a label the order score descending, tie-break position, name ascending is kept exactly if candidates that tie in score and position are configured in the order of their names; all positions tie without a tie-break order |
| `SemanticRouter.DocumentedWithoutLabelExactly` | internal/router/strategies/semantic/semantic.go:203-227 | without a label the order position, name ascending is kept exactly if there is no tie-break order or candidates that tie in position are configured in the order of their names |
| `SemanticRouter.DocumentedOrderFails` | internal/router/strategies/semantic/semantic.go:202-256 | three lists against that order: without a tie-break order, with one that names neither candidate, and that one without a label |
| `StableSort.SortedPairs` | internal/router/strategies/semantic/semantic.go:233-253 | a stable sort brings equally ranked elements into an order exactly if they came in that order |
| `StreamWindow.StreamSession.HandleStreamChunk` | internal/logic/chat.go:797-870 | one line: the whole new state of window, content, flags and output |
| `StreamWindow.StreamSession.DetectAndHandleTool` | internal/logic/chat.go:873-898 | detection, the text sent before the tag, and the window cut to start at it |
| `StreamWindow.StreamSession.CompleteStreamResponse` | internal/logic/chat.go:1016-1063 | the remaining text and end mark, or the error event for an empty answer |
| `StreamWindow.DetectTools` | internal/functions/tool_executor.go:48-55 | a configured tool whose tag occurs, or none exactly when no tag occurs |
| `StreamWindow.FirstConfigured` | internal/functions/tool_executor.go:48-55 | of several tools whose tags occur, the one configured first is taken |
| `StreamWindow.BlankExactly` | internal/logic/chat.go:1023-1029 | an answer counts as blank exactly if it has no other character than newlines |
| `StreamWindow.NothingLost` | internal/logic/chat.go:838-867 | while no tool is detected, text sent plus window equals all content received, in order, with at most five chunks held |
| `StreamDetection.DetectedExactly` | internal/logic/chat.go:844-850 | detection fires exactly when some six consecutive chunks contain a configured tag |
| `StreamDetection.DetectionCuts` | internal/logic/chat.go:838-898 | in every run, on the chunk on which detection fires: the tool is the one recognised in the last six chunks, what precedes its tag there has been sent and the rest is the window |
| `StreamDetection.DetectsFirstTag` | internal/logic/chat.go:838-898 | if tags span at most six chunks it fires on the chunk that completes the first tag; sent text is exactly the content before the detected tag's first occurrence; the window starts with that tag |
| `StreamDetection.SingleBytesEscape` | internal/logic/chat.go:607-613 | six is a real limit: content arriving byte by byte slips every longer tag past the detector |
| `StreamAfterTag.FrozenAfterDetection` | internal/logic/chat.go:853-867 | after detection no more content is sent; the held text grows by exactly the chunks of the rest of the answer, end marks included |
| `StreamAfterTag.HeldForTheTool` | internal/logic/chat.go:838-898 | over a whole answer whose tags span at most six chunks: sent is exactly what precedes the detected tag's first occurrence, held exactly what follows, recorded the whole content |
| `StreamAfterTag.AnswerIsCut` | internal/logic/chat.go:838-898 | for every run in which detection fires: the whole answer is cut in two at the first occurrence, within the last six chunks, of the tag recognised there; what precedes it has been sent, the rest is held, and the whole content is recorded |
| `StreamAfterTag.LeaksExactly` | internal/logic/chat.go:873-898 | for every run in which detection fires a tag reaches the client exactly if it is whole before that cut; this includes the detected tag itself when it came earlier in more than six chunks |
| `StreamAfterTag.LeaksWithinSix` | internal/logic/chat.go:873-898 | if tags span at most six chunks the detected tag never reaches the client, and another configured tag does exactly if it is whole before the first occurrence of the detected one |
| `TagLeaks.EarlierTagLeaks` | internal/logic/chat.go:873-898 | a run of one delta with two tags against the order of the configuration: the first tag in the text is sent to the client |
| `TagLeaks.SpelledTagLeaks` | internal/logic/chat.go:873-898 | for every name of five or more characters without a bracket: its tag sent character by character and then once more in one piece is detected, and the client has the first one whole |
| `StreamCompletion.AnswerArrivesWhole` | internal/logic/chat.go:1038-1058 | an answer without tools that is not blank reaches the client whole and in order, with exactly one end mark |
| `StreamCompletion.NoDeltaNoCommit` | internal/logic/chat.go:817-842 | without a content delta nothing is committed, detected or sent as content |
| `StreamCompletion.SilentExactly` | internal/logic/chat.go:813-815 | without a content delta nothing at all is written exactly if only end marks come, fewer than six |
| `PassedLines.BlanksPassOn` | internal/logic/chat.go:813-815 | outside raw mode exactly the lines without content are passed on, in order, each with the prefix of event data, before and after a tool is detected |
| `PassedLines.RawModePassesOn` | internal/logic/chat.go:1646-1704 | in raw mode the client gets every line that is not empty, verbatim and in order, and nothing else; the attempt succeeds exactly if the call did not fail and some line of event data says something between its spaces other than an empty text or the end mark |
| `StreamCompletion.DeltaCommits` | internal/logic/chat.go:818-828 | the first content delta commits the stream |
| `ToolLoop.StreamingChat.RunAttempt` | internal/logic/chat.go:384-386 | an attempt starts uncommitted with the full tool depth |
| `ToolLoop.StreamingChat.HandleStreamingWithTools` | internal/logic/chat.go:615-668 | the recursion over upstream calls and tools, in raw and in window mode |
| `ToolLoop.StreamingChat.ProcessStream` | internal/logic/chat.go:671-715 | one upstream call read line by line, its output and committed flag kept also when it fails |
| `ToolLoop.StreamingChat.HandleToolExecution` | internal/logic/chat.go:901-1013 | the messages grow by the model's answer and by the tool's result as it is told, the announcements are sent, and the next round goes one level down |
| `ToolLoop.OutputMeans` | internal/logic/chat.go:940-961 | what the model is told of a tool run: a result that fits unchanged, of a longer one the first part and a note and never more, of a failure the tool's name and the reason |
| `ToolResults.ResultIsTold` | internal/logic/chat.go:940-1012 | when a tool is detected and the call did not fail, two messages are added: the whole answer, and three parts with the tool's name, the result of running it (cut at 100000 with a note, or the failure) and the advice; the next upstream call is made with just these |
| `ToolResults.RunIsShown` | internal/logic/chat.go:917-1001 | what the client reads of a tool's run, between what the answer sent and the next answer |
| `ToolResults.DepthIsUsedUp` | internal/logic/chat.go:1003-1012 | a model that asks for a tool in every answer has exactly as many run as the depth allows |
| `ToolResults.SixToolsAreRun` | internal/logic/chat.go:74-76 | in one attempt that is six tools and seven upstream calls |
| `ToolLoop.DetectedToolIsRun` | internal/logic/chat.go:641-666 | when a tool is detected and the call did not fail, the next tool call of the attempt is to that tool with the text held in the window |
| `ToolLoop.ToolGetsTheRest` | internal/logic/chat.go:911-935 | if tags span at most six chunks and the call did not fail, the next tool run is of a configured tool on the whole answer from its tag's first occurrence on, end marks included, and it is recorded with the whole content |
| `ToolLoop.StreamingChat.HandleRawModeStream` | internal/logic/chat.go:1612-1704 | lines passed on unread, committed by the first non-empty one, a failure when no payload came |
| `ToolLoop.DetectionNeedsDepth` | internal/logic/chat.go:845-846 | a tool is detected only when detection is configured and depth is left |
| `ToolLoop.OnlyToolsWriteMessages` | internal/logic/chat.go:964-1012 | for every behaviour of model and tools: messages grow only by the two messages of each tool call, calls are to configured tools with text starting at the tag, at most as many as the depth allows, and running one commits |
| `ToolLoop.UncommittedLeavesNoTrace` | internal/logic/chat.go:817-850 | an attempt is committed exactly when its first answer brings content; otherwise messages and tool record are untouched and no content text was delivered, in raw mode nothing at all |
| `ToolLoop.LeavesNothingExactly` | internal/logic/chat.go:813-815 | outside raw mode an attempt without content leaves nothing with the client exactly if its call fails and only end marks came, fewer than six |
| `StreamingRun.GivenUpAttemptLeavesALine` | internal/client/llm.go:360-390 | a stream that breaks with a network error after a line without content: the second call, on the same model if retries and budget allow it and else on the next, begins with that line already sent |
| `StreamingRun.AttemptsStartAlike` | internal/logic/chat.go:452-497 | in a whole run every attempt starts with the messages of the first, and all delivered content text and all tool calls, at most six, come from the last attempt |
| `StreamingRun.FailureLeavesMessages` | internal/logic/chat.go:485-497 | a run that ends uncommitted leaves messages and delivered content as they were |
| `ServedAnswer.ServedEnds` | internal/logic/chat.go:1016-1060 | outside raw mode, whatever tools were run: an attempt that does not fail ends its output with the end mark exactly if its last answer has content other than newlines, else with an error event |
| `ServedAnswer.ServedRunDelivers` | internal/logic/chat.go:1697-1704 | a request that counts as served, over all retries and switches: in raw mode its last call passed on a payload, outside raw mode its output ends as ServedEnds says |
| `Failures.RetryableIsSwitchable` | internal/logic/chat.go:1432-1522 | a retryable failure is switchable except for a busy or network code with status 401 or 403, and exactly then |
| `Failures.HttpErrorsByStatus` | internal/types/errors.go:114-147 | for failures built from an HTTP status: the same model is retried exactly on 408 and from 500 up, the next one tried exactly on all but 401, 403 and 413 |
| `NextCalls.RetryableExactly` | internal/logic/chat.go:1433-1474 | a failure is retried on its model exactly if the context is live, it is no cancellation and no context-length error, and it is an idle timeout, an error of no known type, a busy or network code, or of status 408 or from 500 up with none of four codes |
| `NextCalls.SwitchableExactly` | internal/logic/chat.go:1477-1522 | the same question for the next model, with its own codes and statuses |
| `DegradationTrace.BoundedTrace` | internal/logic/chat.go:1524-1551 | after n events the trace holds the first min(n, 63), numbered from 1, and one truncation marker as the 64th exactly when n > 63 |
| `DegradationTrace.UntruncatedIsComplete` | internal/logic/chat.go:1524-1551 | an untruncated trace holds exactly the offered events |
| `Degradation.TraceTellsTheCalls` | internal/logic/chat.go:463-469 | in an untruncated streaming run the attempt_started events name exactly the calls made, in order |
| `Degradation.TraceTellsTheSingleCalls` | internal/logic/chat.go:1237-1243 | the same on the single-response path |
| `TraceOfCalls.EventsAreExactly` | internal/logic/chat.go:436-590 | on both paths the events after the opening one are those of the calls, one after the other: each attempt's start and outcome, whether a retry is scheduled or skipped, and why the request ends or which model it switches to |
| `Degradation.PathsAgree` | internal/logic/chat.go:436-591 | whatever the environment, on distinct non-empty names: unless the streaming run breaks off after content was sent, both paths make the same calls, end in the same state and reach the same verdict |
| `Degradation.RepetitionTellsThemApart` | internal/logic/chat.go:1346-1358 | on any list with an empty or repeated name there is an environment in which they make different calls |
| `Degradation.AgreeExactlyWithRetryLimit` | internal/logic/chat.go:1228-1332 | on clean lists, for runs that do not break off, the verdicts agree exactly when the retry limit is not negative; with a negative one the single-response path reports success and streaming panics |
| `Degradation.PanicsExactly` | internal/logic/chat.go:1066-1086 | on a non-empty list the streaming path asks a missing error for its text exactly if the retry limit is negative and the context is not cancelled |
| `Degradation.ServedByLast` | internal/logic/chat.go:459-590 | the last call of a run decides it: it left the final state, the run is served exactly if that call did not fail, and else ends with that call's error |
| `Degradation.CleanUnchanged` | internal/logic/chat.go:1346-1358 | removing empty and repeated names changes nothing exactly when there are none |
| `Degradation.CleanIsDistinct` | internal/logic/chat.go:1346-1358 | what is left has no repetition, and cleaning it again changes nothing |
| `Degradation.LastDecides` | internal/logic/chat.go:485-497 | only the last call of a run can be a failure after content was sent |
| `Degradation.CallsAreLegal` | internal/logic/chat.go:436-590 | models are tried in list order from the first attempt on the first; a retry needs a retryable failure and a remaining budget of at least the retry interval, a switch a switchable one |
| `NextCalls.CallsAreExactly` | internal/logic/chat.go:436-590 | whatever the environment, on both paths: the first call is the first attempt on the first model; each call is followed by another attempt on its model, by the first on the next one, or by none, exactly as the failure, the attempts and budget left and the context decide; and each starts from what the one before it left |
| `NextCalls.SingleServedByLast` | internal/logic/chat.go:1372-1427 | the single-response path is served exactly if its last call did not fail, and else ends with its error |
| `NextCalls.ToldExactly` | internal/logic/chat.go:1066-1086 | what the client is told when streaming ends, read off the last call |
| `Degradation.CallsAreBounded` | internal/logic/chat.go:452-555 | at most (number of models) * (maxRetry + 1) calls |
| `Degradation.CallsAreDistinct` | internal/logic/chat.go:436-590 | no attempt on an entry of the list is made twice, and if no model is listed twice no attempt on a model |
| `Degradation.LoopKeeps` | internal/logic/chat.go:452-590 | whatever every failing uncommitted attempt keeps holds before every call |
| `Gateway.RequestLogic.AppendDegradationEvent` | internal/logic/chat.go:1524-1551 | recording one event keeps the trace equal to the bounded record of all events offered |
| `Gateway.RequestLogic.TryStream` | internal/logic/chat.go:459-554 | one streaming attempt, its events, and the decision after it |
| `Gateway.RequestLogic.StreamAttempts` | internal/logic/chat.go:451-555 | all attempts on one model |
| `Gateway.RequestLogic.StreamModel` | internal/logic/chat.go:436-590 | all attempts on one model and the decision to go on |
| `Gateway.RequestLogic.ChatCompletionStream` | internal/logic/chat.go:421-591 | the streaming loops: state, calls, events and verdict are those of the reference run |
| `Gateway.RequestLogic.DegradationModelIndex` | internal/logic/chat.go:1191-1198 | the index of the first occurrence, or -1 |
| `Gateway.RequestLogic.TryOnce` | internal/logic/chat.go:1228-1330 | one attempt, its events, and the decision after it |
| `Gateway.RequestLogic.CallModel` | internal/logic/chat.go:1372-1427 | all attempts on one model of the cleaned list and the decision to go on |
| `Gateway.RequestLogic.CallModelWithRetry` | internal/logic/chat.go:1200-1333 | the retry loop of the single-response path |
| `Gateway.RequestLogic.UniqueModels` | internal/logic/chat.go:1346-1358 | the list without empty and repeated names |
| `Gateway.RequestLogic.CallWithDegradation` | internal/logic/chat.go:1337-1429 | the single-response path: state, calls, events and verdict are those of the reference run |
| `IdleTimer.AttemptTimer.BeginTimeout` | internal/timeout/idle.go:157-188 | the stale check, the charge on the shared budget and the reason |
| `IdleTimer.AttemptTimer.ConcludeTimeout` | internal/timeout/idle.go:190-215 | logging only after the first token, else timed out and cancelled |
| `IdleTimer.AttemptTimer.ResetTimer` | internal/timeout/idle.go:218-257 | data received: new generation, full budget, and unless stopped or never started the timer runs again with an empty channel |
| `IdleTimer.AttemptTimer.StopTimer` | internal/timeout/idle.go:267-283 | the timer is stopped; a tick may remain in the channel |
| `IdleTimer.IdleTracker.Consume` | internal/timeout/idle.go:45-52 | the budget shrinks by the duration, not below zero |
| `IdleTimer.IdleTracker.Reset` | internal/timeout/idle.go:55-61 | the budget is full again |
| `IdleTimer.AttemptTimer.constructor` | internal/timeout/idle.go:87-121 | a running timer, or one born cancelled with reason total when the budget is spent |
| `IdleTimer.AttemptTimer.ReceiveTick` | internal/timeout/idle.go:136 | the tick is taken from the channel |
| `IdleTimer.AttemptTimer.CaptureGeneration` | internal/timeout/idle.go:138-145 | generation and stopped flag are read together, after the tick was taken |
| `IdleTimer.AttemptTimer.ReadFirstTokenFlag` | internal/timeout/idle.go:190-193 | the flag is read under its own lock |
| `IdleTimer.AttemptTimer.SetFirstTokenReceived` | internal/timeout/idle.go:287-292 | the flag is set without the timer's lock |
| `IdleTimer.StepInv` | internal/timeout/idle.go:123-283 | every step of every goroutine keeps the invariant |
| `IdleTimer.RunInv` | internal/timeout/idle.go:123-283 | in every interleaving timedOut implies cancelled, the budget lies in [0, initial] and is what the timeouts since the last data leave, and effective timeouts are at most 1 plus the Resets |
| `IdleTimer.StoppedIsInert` | internal/timeout/idle.go:161-163 | after Stop no tick, timeout, Reset or Stop changes anything visible |
| `IdleTimer.StaleTimeoutIgnored` | internal/timeout/idle.go:165-171 | a Reset after the generation capture makes the pending timeout a no-op |
| `IdleTimer.TakenTickExactly` | internal/timeout/idle.go:136-171 | over any steps in between, a taken tick charges the budget if and only if the timer has not been stopped and no Reset came after the generation was captured; Resets before the capture do not count |
| `IdleTimer.ResetBeforeCaptureIsMissed` | internal/timeout/idle.go:136-150 | one such run: data arrives after the tick was taken and the old tick still cancels |
| `IdleProgress.SilenceCancels` | internal/timeout/idle.go:123-215 | in every run, while the attempt is open and before the first token: if only the timer and its watcher move, in whatever order, they are never stuck before they have cancelled the attempt, and a bounded number of steps does it |
| `IdleProgress.DataRearms` | internal/timeout/idle.go:218-257 | from every state with a waiting watcher before the first token, silence after data runs the full idle time, cancels, leaves the full budget less one idle time, and is reported as an idle timeout, a total one exactly if nothing is left |
| `IdleProgress.StopEnds` | internal/timeout/idle.go:267-283 | from Stop on, nothing that timer or data do shows any more |
| `IdleTimer.FirstTokenProtects` | internal/timeout/idle.go:190-204 | once the first token is flagged and no timeout has read it as unset, timeouts never cancel |
| `IdleProgress.FlagProtects` | internal/timeout/idle.go:287-292 | flagging the first token protects the attempt, unless a timeout has already read the flag as unset |
| `IdleTimer.BudgetWithoutData` | internal/timeout/idle.go:37-61 | over attempts without data k effective timeouts leave max(0, total - k*perIdle) |
| `IdleTimer.BornCancelled` | internal/timeout/idle.go:101-108 | the next timer is born cancelled with reason total exactly when at least ceil(total/perIdle) timeouts took effect |
| `IdleTimer.CancelledExactly` | internal/timeout/idle.go:101-108 | over every run an attempt is cancelled by a timeout or from outside and by nothing else |
| `IdleTimer.TimedOutExactly` | internal/timeout/idle.go:213-250 | over every run the timed-out mark is there exactly if a timeout cancelled the attempt and no Reset followed |
| `IdleTimer.ReportedExactly` | internal/client/llm.go:254-271 | without outside cancellation, a cancelled attempt is reported as a cancelled context exactly if its budget was spent from the start or no cancelling timeout was without a later Reset, and else as an idle timeout |
| `IdleTimer.SpentBudgetLooksCancelled` | internal/client/llm.go:254-271 | the first such input: a timer born with a spent budget; one that runs out is reported with its reason |
| `IdleTimer.LateDataLooksCancelled` | internal/client/llm.go:353-386 | the second such input: with budget left, a line read after the timeout cancelled the attempt |
| `SharedBudget.AttemptKeepsBudget` | internal/logic/chat.go:676-688 | through every attempt, with a timer of its own for each upstream call of its tool rounds, the remaining budget that the loops see is the shared tracker's and stays in range |
| `SharedBudget.SpentBudgetEndsTheRun` | internal/logic/chat.go:452-578 | on both paths a call made on a spent budget is the last of the request and cancelled before it begins, and the request ends with a cancelled context |
| `RequestCodec.UnmarshalMessage` | internal/types/request.go:271-294 | role only if a string, content as it is, everything else kept aside |
| `RequestCodec.MarshalMessage` | internal/types/request.go:297-310 | role and content, overlaid by what was kept |
| `RequestCodec.UnmarshalMessages` | internal/types/request.go:186-190 | elements read in order; the first that is neither object nor null ends the list with an empty message |
| `RequestCodec.UnmarshalExtraBody` | internal/types/request.go:101-124 | both modes only if strings, the rest kept; nothing from what is no object |
| `RequestCodec.MarshalExtraBody` | internal/types/request.go:127-144 | the modes that are not empty, overlaid by what was kept |
| `RequestCodec.ChatCompletionRequest.UnmarshalJSON` | internal/types/request.go:231-247 | an error exactly for bodies that are neither object nor null; else the parsed request |
| `RequestCodec.ChatCompletionRequest.UnmarshalParams` | internal/types/request.go:166-198 | priority, extra body and messages read, the rest kept |
| `RequestCodec.ChatCompletionRequest.MarshalJSON` | internal/types/request.go:201-222 | the known fields that have content, overlaid by what was kept |
| `RequestCodec.ChatCompletionRequest.ChatLLM` | internal/client/llm.go:205-228 | what goes upstream, and the model entry left in a shared map |
| `RequestCodec.ChatCompletionRequest.ProcessRequest` | internal/logic/chat.go:85-138 | raw mode: VIP priority set, messages untouched, refused exactly when some user message is empty |
| `RequestCodec.ChatCompletionRequest.ResolveEffectivePromptMode` | internal/logic/prefill_continue.go:16-42 | the mode asked for, or raw for an unset mode with a continuation marker |
| `RequestCodec.ForwardRaw` | internal/logic/chat.go:338-349 | parsing, processing and sending composed |
| `RequestCodec.MessageRoundTrip` | internal/types/request.go:271-310 | an object comes back unchanged exactly when it has a role and a content |
| `RequestCodec.ListRoundTrip` | internal/types/request.go:186-190 | a list of messages comes back unchanged exactly when all elements are such objects |
| `RequestCodec.ExtraBodyRoundTrip` | internal/types/request.go:101-144 | an extra body is sent on unchanged exactly when it is a non-empty object with no empty mode |
| `RequestCodec.TruncateExactly` | internal/types/request.go:166-175 | a priority loses its fraction, toward zero, and only that |
| `RequestCodec.PassThrough` | internal/types/request.go:166-247 | the upstream body is the client's with only the model replaced exactly when priority is an integer, extra body and messages are well formed, each only if present |
| `RequestCodec.PassThroughVip` | internal/logic/chat.go:90-102 | for a VIP with the feature on, only model and priority are replaced, whatever the priority was |
| `RequestCodec.TurnedAwayExactly` | internal/logic/chat.go:130-135 | for every body, a raw request is refused exactly when an empty user message comes before the first element that is no message |
| `RequestCodec.RawModeExactly` | internal/logic/prefill_continue.go:16-42 | for every body, raw mode is chosen exactly when the body asks for it or leaves the mode open and marks a continuation in a fully readable message list or at top level |
| `RequestCodec.SentIsWellFormed` | internal/types/request.go:201-222 | whatever came in, what is sent is well formed, and passing it on again changes nothing |
| `RequestCodec.EarlierCallsDoNotShow` | internal/client/llm.go:210-213 | retries and model switches on one request leave no trace of the models called before |
| `Utf8.TruncateBytes` | internal/logic/chat.go:1563-1573 | the longest well-formed UTF-8 prefix of at most max bytes; the input itself if it fits or the limit is not positive |
| `Utf8.TruncateUTF8ByBytes` | internal/service/log_record.go:709-719 | the same for any non-negative limit |
| `Utf8.TruncateBothWays` | internal/logic/chat.go:1563-1573 | the two agree for every positive limit, and how they differ at zero |
| `Utf8.AtMostThreeBytesLost` | internal/service/log_record.go:714-717 | a well-formed string loses at most three bytes below the limit |
| `Utf8Encoding.ValidExactly` | internal/service/log_record.go:714-717 | a byte string is well-formed exactly if it is the encoding of some sequence of character numbers |
| `Utf8.CutExactly` | internal/logic/chat.go:954-960 | a prefix of a well-formed string is well-formed exactly if the next byte does not continue a character |
| `Utf8.CutResultExactly` | internal/logic/chat.go:954-960 | a tool result cut at a byte limit and followed by the note is well-formed exactly if the first byte cut off does not continue a character |
| `ErrorSampler.SanitizeFilename` | internal/service/log_record.go:737-758 | the permitted bytes of the name, at most 255 |
| `ErrorSampler.SanitizedIsClean` | internal/service/log_record.go:742-750 | no control character, in particular no NUL, and none of nine punctuation characters remains, and at most 255 bytes |
| `ErrorSampler.SanitizedUnchanged` | internal/service/log_record.go:737-758 | a name of at most 255 permitted bytes stays as it is, sanitising twice is sanitising once, an empty name becomes the default |
| `ErrorSampler.KeysNeverCollide` | internal/service/error_log_sampler.go:54 | two pairs share a counter exactly when sanitised user and error type are equal |
| `ErrorSampler.WindowExactly` | internal/service/error_log_sampler.go:48 | a time is in window w exactly if the w-th multiple of the length and the next one bound it, mirrored before time zero |
| `ErrorSampler.ErrorLogSampler.constructor` | internal/service/error_log_sampler.go:26-40 | limits below one become one; no window, no counters |
| `ErrorSampler.ErrorLogSampler.Allow` | internal/service/error_log_sampler.go:44-60 | the answer and the whole new state |
| `ErrorSampler.AllowedExactly` | internal/service/error_log_sampler.go:44-60 | for every clock, a call is allowed exactly when fewer than N calls of its key came in the unbroken stretch of calls in its window |
| `ErrorSampler.HistoryAnswersExactly` | internal/service/error_log_sampler.go:44-60 | some limit tells the sampler from the whole history of the window exactly if a call of that key and window was followed by a call in another window |
| `ErrorSampler.AllowMatchesHistory` | internal/service/error_log_sampler.go:44-60 | with a clock that never goes back a call is allowed exactly when fewer than N earlier calls of its key fell in its window |
| `ErrorSampler.BackwardsClockAdmitsMore` | internal/service/error_log_sampler.go:48-52 | one such run: a clock that goes back reopens a window that was used up |
| `ErrorSampler.ShouldSaveErrorLog` | internal/service/log_record.go:338-353 | the three modes, and the sampler's state after each |

## Left out

- Transport: HTTP, event-stream framing, response headers, Redis tool status, storage, metrics and logging; output is a sequence of events.
- A failing write to the client, which the source returns as an error from the middle of a chunk.
- Failure to create an upstream client, which streaming skips over and the single-response path treats as a failed model; client creation always succeeds here.
- Statistics: latency, token usage, chunk intervals, chat-log fields, and the `response` metadata copied into each delta.
- Parsing of a stream line into content, which is given with the line (`ToolLoop.Received`); a content delta equal to the end mark is excluded by its type.
- Running a tool: its parameters, HTTP call and the text of the closing instruction are inputs; the pauses between progress dots have no effect here.
- Regular expressions: input extraction, label parsing and the redaction of secrets in trace messages; trace events carry kind, model, previous model, index, attempt and reason, the reason as a name instead of its text.
- Sleeping between retries, and the clock as such: times and context checks are inputs, and a context check in a turn without calls reads as not cancelled.
- Locks: a section under one lock is one step. A tick left by a stopped Go timer is either dropped or kept, both are covered. The watcher of an earlier attempt is dropped when the next attempt starts, which `IdleTimer.StoppedIsInert` justifies.
- Fixed-width integers: priorities, weights, counters and durations are unbounded; configured weights are at most 100.
- JSON text: numbers are reals, so rounding to float64, numbers outside int64, duplicate keys and invalid UTF-8 in the text are not modelled.
- Prompt processing outside raw mode (retrieval, rules, compression), and the automatic router inside a request; in raw mode messages are untouched.
- `sort.SliceStable` is an in-place insertion sort with its contract; `sort.Strings` is a function on lists.
- Strings are sequences of characters, of bytes where length matters; case folding is done for the word "auto" only.
- The single-model paths without degradation (chat.go:366-419) are one model's turn of the loops, without trace events.
- The semantic router's rule engine, its label model call and its candidate filtering.
- Voucher, forward and quota handling, configuration defaults and identity parsing: easy members or remote state.
- OutputMeans: the limit on a tool's result counts the characters of a string, in the source its bytes; what a cut between bytes does to a character is stated by `Utf8.CutResultExactly`.
