# minicore agent: verified model of its bounded protocols

The agent keeps a long conversation inside a model's context window and answers
every query inside a byte budget. This project models the parts of it whose
correctness is a statement about loops or whole runs:

- **Context folding and overflow recovery** (`Conversation`, `Projection`, `FoldLaws`,
  `FoldAccount`, `Tickets`, `CompactionState`, `Threshold`, `Recovery`, `Settlement`). History items are
  folded into summaries, requests must stay well formed, and a shared state of tickets,
  generations and installed reductions decides when a rejected request may be rebuilt once.
- **Diff planning and paging** (`DiffPlan`, `DiffPage`, `DiffPatch`, `DiffWire`). Lines, trimming, edit
  scripts, hunks, an incremental byte meter and a page builder whose cursor resumes inside a
  line.
- **History paging** (`Utf8`, `Json`, `ReadPage`, `ReadWire`). A greedy packer with a binary search over
  character boundaries and a table of JSON escape costs.
- **Change listing** (`ChangeMerge`, `ChangePage`, `ChangeWire`). Live and stored records are merged, a
  page is planned, verified and planned again.
- **Event lanes and display bodies** (`EventLanes`, `DisplayBody`). A three-queue scheduler
  with drop accounting, and a streaming sanitizer with line counts.

Conventions. Text is a sequence of bytes (`Prelude.Text`); lengths are byte lengths. A
SHA-256 hash is represented by the value it frames, so equal hashes mean equal values.
Encoded sizes are cost functions built from escape costs, decimal digits and constants; the
`Wire` modules write the documents out and prove that these are their lengths. Where a result
does not depend on the form of a size, it is an arbitrary function. Calls to the provider,
the summary model, the store, the clock and the cancellation token are parameters. State
that the program updates in place is a class; each call on it is one method that refines one
step of a value-level state machine, and whole-run results quantify over every sequence of
steps. Most of these calls are one locked section; installing a durable or consolidated summary
and ending a loop take several locks in turn and are modelled as one atomic step. Lengths of
the program's vectors fit 64 bits where a result depends on it.

`Prelude` holds the shared value types.

Where a promise of the documentation holds only under a condition, the model keeps the code
and proves the condition. The fragment search of `src/diff.rs` halves its candidate, so it can
miss a fragment that fits: `DiffPage.FragmentCanBeMissed` gives the input,
`DiffPage.GivesUpExactly` the exact condition and `DiffPage.AtLeastHalf` the bound. A
consolidated request can be valid although its history is not: `FoldLaws.ConsolidatedFoldCanRepair`
gives the input and `FoldLaws.ConsolidatedFoldIsClean` the exact condition. The high-water mark of
`src/compaction.rs` is one slot, so its once-only promise needs loops that run one after another:
`Tickets.InterleavedLoopsCanReclaim` gives the run and `Tickets.ConsumedExactly` says in every run
exactly when a request counts as consumed.

## Model

| member | source | states |
|---|---|---|
| Conversation.ValidateCleanToolExchanges | src/compaction/recovery.rs:64-113 | the index scan accepts a message list exactly when it is a sequence of plain messages and calls with distinct ids, each followed by exactly its own replies in any order |
| Conversation.CheckExchange | src/compaction/recovery.rs:75-105 | one exchange is accepted exactly when the ids are distinct and the following messages answer each of them once |
| Conversation.CollectReplies | src/compaction/recovery.rs:82-101 | the inner scan returns the maximal run of distinct replies, at most as many as wanted, and reports a repeated id exactly when it meets one |
| Conversation.ReplaceBlock | src/compaction/recovery.rs:64-113 | in any context, exchanging one complete block for another changes nothing about validity |
| Conversation.DeleteBlock | src/compaction/recovery.rs:64-113 | deleting a complete block from a valid list leaves a valid list |
| Conversation.CleanContext | src/compaction/recovery.rs:64-113 | what follows a prefix may be swapped if the old continuation cannot be taken for replies to it |
| Projection.CompleteGroupRanges | src/compaction/projection.rs:66-116 | the scan finds all complete tool exchanges and nothing else, disjoint and in order |
| Projection.MatchResults | src/compaction/projection.rs:88-106 | the inner scan takes consecutive results of this request, each call once, and all of them if the exchange is complete |
| Projection.CompressibleRanges | src/compaction/projection.rs:133-174 | the ranges are, in order and without overlap, every complete exchange and every settled base item that is not a current user message, with its size estimate |
| Projection.KeysAreLocal | src/compaction/projection.rs:118-174 | whether a key is valid is decided by the items at its own position alone |
| Projection.NoRangeInside | src/compaction/projection.rs:133-174 | no range starts inside another |
| Projection.RangesAreUnique | src/compaction/projection.rs:133-174 | the sources alone determine the range list |
| Projection.FindRange | src/compaction/projection.rs:245-253 | looking up an index in the range list finds the local range there exactly when there is one |
| Projection.FoldStep | src/compaction/projection.rs:244-263 | one round of the fold: covered ranges vanish, folded ones become a summary, anything else is kept |
| Projection.FoldHistoryWithRanges | src/compaction/projection.rs:224-265 | the loop returns the fold of the local ranges behind the right head, and fails exactly when some summary is not representable; what head and fold are is said by `ConsolidatedKeepsSystems`, `FoldKeepsFixed` and `RequestIsAccounted` |
| FoldLaws.RangeIsBlock | src/compaction/projection.rs:66-174 | the messages of a compressible range are one complete block of the pairing rule |
| FoldLaws.FoldInContext | src/compaction/projection.rs:224-265 | after any context, folding a tail keeps validity, in both directions when no dropped range is directly followed by a tool result |
| FoldLaws.FoldPreservesCleanness | src/compaction/projection.rs:224-265 | for every history and every set of folded keys, the folded request is valid if and only if the unfolded one is |
| FoldLaws.ConsolidatedFoldIsClean | src/compaction/projection.rs:224-265 | with any consolidated summary, the history is valid if and only if the request is and no dropped range is directly followed by a tool result |
| FoldLaws.CleanExposesNothing | src/compaction/recovery.rs:64-113 | in a valid history no compressible range is directly followed by a tool result |
| FoldLaws.ConsolidatedFoldCanRepair | src/compaction/projection.rs:224-265 | that condition is needed: a concrete invalid history whose consolidated request is valid |
| FoldLaws.ProtectedMessagesSurvive | src/compaction/projection.rs:133-174 | the current loop's user messages and all live items outside a complete exchange appear unchanged and in order in every projection |
| FoldLaws.UserConstraintsSurvive | src/compaction/projection.rs:206-218 | the current loop's user texts reach the model verbatim and in order, whatever is folded or consolidated |
| FoldLaws.ConsolidatedKeepsSystems | src/compaction/projection.rs:224-265 | a consolidated request opens with exactly the system messages of the fixed part, in order, then the summary and then the folded history |
| FoldLaws.FoldKeepsFixed | src/compaction/projection.rs:224-265 | without a consolidated summary the whole fixed part stands first, unchanged |
| FoldAccount.RequestIsAccounted | src/compaction/projection.rs:224-265 | every request cuts its history into pieces: an item sent as its message, a folded range at its place sent as its own summary, a covered range sent as nothing; exactly the valid covered and folded keys are treated so |
| FoldAccount.ValidHistoryIsCompressible | src/compaction/projection.rs:66-174 | in a valid history whose results name their request, the ranges hold exactly the tool traffic and the settled items other than the current loop's user messages |
| FoldAccount.MessagesTellItems | src/compaction/utility.rs:1037-1066 | the message of a history item can be read back into the item |
| FoldAccount.SummariesReadBack | src/compaction.rs:700-708 | the text of a summary can be read back from its labelled message |
| FoldLaws.RangeSurvives | src/compaction/projection.rs:66-174 | a range survives an extension exactly when it is not a finished exchange at the end that gets one more tool result |
| FoldLaws.KeysSurviveExtension | src/compaction/projection.rs:118-174 | all keys stay valid when the history grows if and only if there is no such seam |
| FoldLaws.FoldExtends | src/compaction/projection.rs:224-265 | without a seam the fold of a longer history is the old fold followed by the new part |
| FoldLaws.FoldIsStableUnderExtension | src/compaction/projection.rs:224-265 | without a seam the earlier request is a message-for-message prefix of the later one |
| Tickets.MarkHolds | src/compaction.rs:571-625 | from a claim on, the high-water mark stays at or above it until the loop is cleared or another loop claims |
| Tickets.RepeatedClaimNeedsReset | src/compaction.rs:413-625 | in every run, a loop claims a non-increasing index only if its mark was reset in between |
| Tickets.ConsumedExactly | src/compaction.rs:506-625 | in every run, a request counts as consumed if and only if an earlier claim of its loop, of this or a later request, stands without a reset since |
| Tickets.ClaimsStrictlyIncrease | src/compaction.rs:506-625 | when loops run one after another, a loop's claimed indexes strictly increase, so no request is recovered twice |
| Tickets.InterleavedLoopsCanReclaim | src/compaction.rs:571-625 | the hypothesis is needed: a concrete run of two interleaved loops claims the same request twice |
| Tickets.NextKeepsInvariant | src/compaction.rs:307-625 | every step keeps a pending ticket above the mark and installed groups within their bounds |
| Tickets.ReachableStatesSatisfyInvariant | src/compaction.rs:307-625 | hence every reachable state satisfies it |
| Tickets.TicketHistory | src/compaction.rs:506-569 | a pending ticket comes from one registration and, if bound, from one later binding of exactly its content |
| Tickets.GenerationsGrow | src/compaction.rs:490-501 | generations never decrease over a run |
| Tickets.ClaimProvesNothingChanged | src/compaction.rs:571-625 | a claim succeeds only if messages, tools, reasoning, descriptor and limits are those registered and bound and no generation moved in between |
| Tickets.UnchangedRequestIsClaimed | src/compaction.rs:506-625 | conversely, an unchanged and bound request above the mark always gets its ticket, whatever other requests, refused installs and ended loops without a projection come between |
| Tickets.ChangesStaleTickets | src/compaction.rs:490-625 | in every run, after new settings, a published summary, an installed reduction or the end of a loop that had one, no claim succeeds until a ticket is registered anew |
| Tickets.GroupsBytesSubset | src/compaction.rs:307-324 | a filtered set of groups is no larger in number or bytes |
| Tickets.ClearEndsLoop | src/compaction.rs:413-452 | ending a loop leaves no slot that names it and every other loop's slots untouched, and does nothing to a state that does not name it |
| Tickets.ClearMovesGeneration | src/compaction.rs:413-452 | the summary generation moves exactly when an installed projection of that loop goes |
| Tickets.DiscardedIsNotClaimed | src/compaction.rs:528-539 | in every run, once a started request's ticket is discarded no claim of that request succeeds until a ticket is registered again |
| Tickets.ForgottenRetry | src/compaction.rs:454-473 | in every run, once another request was looked up, nothing is retained for this one until somebody retains it again |
| CompactionState.State.RegisterRecoveryTicket | src/compaction.rs:503-526 | registering refines its step: refused and cleared at or below the mark, filed otherwise |
| CompactionState.State.DiscardRecoveryTicket | src/compaction.rs:528-539 | discarding removes only the ticket of that request |
| CompactionState.State.BindActualRequestTicket | src/compaction.rs:541-569 | binding fixes the limits and size of the matching ticket and drops it if the content differs |
| CompactionState.State.ClaimRecoveryTicket | src/compaction.rs:571-625 | claiming returns the outcome of the claim step and moves the mark only on success |
| CompactionState.State.EmergencyGroups | src/compaction.rs:307-324 | only this loop's groups with a still valid key are returned |
| CompactionState.State.SumBytes | src/compaction.rs:331-335 | the loop adds up all group bytes whatever the iteration order |
| CompactionState.State.InstallEmergencyGroups | src/compaction.rs:326-351 | groups are installed exactly when they are in bounds and no other loop owns the slot, and then the summary generation moves |
| CompactionState.State.InstallConsolidatedSummary | src/compaction/threshold.rs:76-90 | a consolidated summary is installed exactly when no other loop owns the slot |
| CompactionState.State.ClearThreshold | src/compaction/threshold.rs:92-105 | clearing touches only this loop's consolidated summary and attempt and says whether a summary went |
| CompactionState.State.ClearEphemeral | src/compaction.rs:413-452 | ending a loop drops all of its slots and no other loop's, and moves the generation only if a projection went |
| CompactionState.State.RecoveredRequest | src/compaction.rs:454-473 | the retained retry is returned for the same original only, refused for a changed one, dropped for another request |
| CompactionState.State.RetainRecoveredRequest | src/compaction.rs:475-488 | the retry slot then holds exactly this request |
| CompactionState.State.Perform | src/compaction.rs:231-625 | every locked section of the state refines one step of the state machine |
| CompactionState.InstalledGroupsReproduceRequest | src/compaction/projection.rs:333-366 | after an emergency install, projecting the same sources yields exactly the reduced request |
| CompactionState.InstalledConsolidatedReproducesRequest | src/compaction/threshold.rs:56-90 | likewise after a consolidated install |
| CompactionState.ProjectionIsStableUnderExtension | src/compaction/projection.rs:333-366 | as the turn goes on, installed reductions stay valid and the request only grows at its end |
| CompactionState.StaleSummaryIsIgnored | src/compaction/threshold.rs:57-74 | a consolidated summary of another loop, of another durable summary, or covering a range that is gone does not influence the request |
| CompactionState.StaleGroupsAreIgnored | src/compaction.rs:307-324 | folded groups of another loop, and groups whose range is gone, do not influence the request |
| Threshold.Compose | src/compaction/projection.rs:285-307 | a request can be composed if and only if every fixed message and every item is representable; the first that is not decides the error, too large for a user or summary item and invalid for anything else |
| Threshold.AcceptedThroughout | src/compaction/projection.rs:224-307 | once the request as a whole was composed, a fold of it is representable exactly if each of its messages is |
| Threshold.Consolidate | src/compaction/threshold.rs:176-434 | a reduced request is delivered if and only if all checks pass and the generated summary improves the request; it opens with the system prompt, if any, and the summary, without the durable summary; it is clean, strictly smaller than before, reproduced by the new state, and in recovery within the window and smaller than the rejected body; otherwise only attempt markers move; a turn-start attempt marks its loop and source, a cancelled one releases both, and nothing else touches them; every error names the check and the request it failed on |
| Threshold.ConsolidatedOpens | src/compaction/projection.rs:232-243 | a request with a consolidated summary opens with the system prompt, if any, and that summary |
| Threshold.FloorIsWhatRemains | src/compaction/threshold.rs:262-299 | of a settled history, a request with everything covered keeps exactly the history messages its floor counts |
| Threshold.TriggerIsPercentage | src/compaction.rs:48-54 | the trigger is the configured percentage of the window, rounded down, while the product fits 64 bits |
| Threshold.CeilTokensIsLeast | src/compaction/threshold.rs:212-212 | bytes are counted as the least number of four-byte tokens that holds them |
| Threshold.CheckGates | src/compaction/threshold.rs:180-300 | an attempt begins if and only if the request can be built and measured, there is something to cover within bounds, and the turn-start or recovery conditions hold; every refusal names the failed check |
| Threshold.GenerateAndInstall | src/compaction/threshold.rs:332-434 | the summary is installed if and only if the request with it can be built, improves, is not interrupted and the slot is free; every error names what was in the way |
| Threshold.AttemptedOnce | src/compaction/threshold.rs:262-310 | in every run, after a turn-start attempt that was not cancelled no further one begins for the same loop until it ends, and none for the same source at all |
| Recovery.MeasureReconstruction | src/compaction/recovery.rs:149-182 | a fold is measured exactly when it is representable, clean, admitted and sizeable, and then as the request that would be sent |
| Recovery.CandidatesAreOrdered | src/compaction/recovery.rs:308-313 | of any two candidates the earlier has more bytes, or as many and the smaller start |
| Recovery.SortCandidates | src/compaction/recovery.rs:308-313 | sorting permutes the candidates |
| Recovery.SearchReduction | src/compaction/recovery.rs:314-380 | the search goes through the growing folds in candidate order and stops with an error exactly at the first interruption or failed summary before a fold under the trigger; it returns the first worthy fold under the trigger, else the smallest worthy one of all, and nothing only if none is worthy |
| Recovery.TakeFold | src/compaction/recovery.rs:362-379 | one more fold keeps the best of those taken, and ends the search exactly when it is worthy and under the trigger |
| Recovery.ObstacleHinders | src/compaction/recovery.rs:136-144 | what stops the search is an interruption at a candidate or the summary error of one, cancelled and late summaries counting as interruptions |
| Recovery.FoundWhenWorthy | src/compaction/recovery.rs:314-380 | something is found if and only if some fold is worthy |
| Recovery.UnhinderedFolding | src/compaction/recovery.rs:300-391 | while nothing interrupts and no summary fails, folding succeeds if and only if some fold is worthy and no other loop owns the slot |
| Recovery.Assess | src/compaction/recovery.rs:364-369 | a fold is accepted exactly when it is clean, within the hard window, strictly smaller than the rejected body and within the byte bound |
| Recovery.InstallationFailsOnlyForAnotherLoop | src/compaction.rs:326-351 | such a reduction is refused exactly when another loop owns the slot |
| Recovery.ReconstructInner | src/compaction/recovery.rs:209-415 | a reconstruction succeeds if and only if its floor and sources are representable and small enough and the consolidated or the folding path succeeds; it is clean, strictly smaller, within the window, opens with the system prompt and the summary in force, and is reproduced by the new state after one install; an error leaves the state as it was and names the check that refused |
| Recovery.ReconstructByGroups | src/compaction/recovery.rs:300-415 | the folding path succeeds if and only if no obstacle stops the search, some fold is worthy and the slot is free; it then folds at least one new group; it blames the exchanges only if the unfolded history is invalid |
| Recovery.StartInner | src/compaction/recovery.rs:439-689 | what is sent, what is reported and which steps are taken in every case; after an overflow that was not started a second request is sent if and only if the claim succeeds, nothing expires and the reconstruction succeeds, and it is clean, strictly smaller and retained; a retained retry is sent instead of the original |
| Recovery.DeliveryRetry | src/compaction/recovery.rs:454-489 | over two starts and any run between them that keeps the retry: the same request and model again sends exactly the reduced request of the first start, or nothing when out of time, and changes nothing; any other request or model is refused and nothing is sent |
| Recovery.OtherRetryIsNotSent | src/compaction.rs:454-473 | a start whose request has no retained retry sends its own request first and is never refused as changed |
| Recovery.FailuresAreReported | src/compaction/recovery.rs:120-144 | a cancelled or late reconstruction is reported as such; after any other failure the overflow stands |
| Recovery.Recover | src/compaction/recovery.rs:568-689 | from the overflow on, the reduced request is claimed, reconstructed, retained and sent if and only if nothing stands in the way, and otherwise the overflow or the interruption is reported; the claim, one install for the same loop and the retained retry are the only steps taken |
| Recovery.StartIsStretch | src/compaction/recovery.rs:439-689 | apart from the concurrent steps, a start takes only steps of its own loop and never ends one |
| Recovery.ReconstructedAtMostOnce | src/compaction/recovery.rs:439-689 | over any number of starts each logical request of a loop is reconstructed at most once, later reconstructions being of later requests, provided only that between the two the surroundings do not end the loop and no other loop claims |
| Settlement.SanitizeAssistant | src/history.rs:46-90 | opaque reasoning fields and replay go, an assistant with nothing else disappears |
| Settlement.SanitizeKeepsCalls | src/history.rs:46-90 | sanitizing never touches a tool call |
| Settlement.SanitizedReadsTheSame | src/history.rs:19-90 | prose, thoughts, gists, calls and all other messages survive sanitizing, in order; an assistant disappears only if nothing of it was visible |
| Settlement.KeptExactly | src/history.rs:46-90 | sanitizing leaves a message alone exactly if it is not opaque, not empty and every reasoning part shows something |
| Settlement.SettledReadsLikeProjection | src/compaction.rs:356-411 | the settled projection reads like the request it replaces |
| Settlement.SanitizeKeepsClean | src/history.rs:19-90 | sanitizing a valid list leaves a valid list |
| Settlement.SettledWalk | src/compaction.rs:356-411 | the walk over raw offsets yields the sanitized fold without the system prompt, and fails exactly when a message is not representable |
| Settlement.SettledMessagesAreCleanAndOpen | src/compaction.rs:356-411 | settled messages carry no replay, encrypted or signature data, and are valid if the history is |
| Settlement.ReductionIsNotEmpty | src/compaction.rs:356-411 | an installed reduction always settles into something |
| Settlement.ValidateSnapshotContent | src/compaction/snapshot.rs:29-62 | a content is accepted if and only if it is in bounds and, when small, not all Unicode white space, when large, a clean and open message list |
| Settlement.SettledEmergencySummary | src/compaction.rs:356-411 | there is nothing to promote exactly when nothing is installed; a promotion is refused if and only if a message or size bound refuses it or a large content has unpaired exchanges, so from a valid history only the bounds can refuse it |
| Utf8.SplitValid | src/text.rs:3-7 | cutting well-formed text at a boundary leaves two well-formed texts |
| Utf8.EncodedIsCharacter | src/text.rs:3-7 | every Unicode scalar value in UTF-8 is recognised as one character of its length |
| Utf8.CharacterIsEncoded | src/text.rs:3-7 | and every character recognised is the encoding of a scalar value |
| Utf8.BoundariesEndText | src/text.rs:3-7 | the boundaries of well-formed text are exactly where its well-formed prefixes end |
| Prelude.DigitsBound | src/budget.rs:34-55 | a positive number of d decimal digits lies between the neighbouring powers of ten |
| Json.DecimalReadsBack | src/budget.rs:34-55 | a number is written in as many bytes as its digit count, without leading zero, and reads back |
| Json.EscapeReadsBack | src/budget.rs:63-73 | the escape cost of a text is the length of its JSON string, which reads back as the text |
| Utf8.EscapeCountsAgree | src/budget.rs:63-73 | the byte-wise cost equals the character-wise `json_escaped_len` on all well-formed text |
| Utf8.JsonPrefixLengths | src/read.rs:795-821 | the table holds the escape cost of every prefix |
| Utf8.JsonStringPrefix | src/budget.rs:76-88 | the result is the longest prefix at a boundary that fits with its quotes |
| ReadPage.ShorterPrefixFits | src/read.rs:715-793 | a shorter incomplete prefix never needs more room: data, escapes and cursor digits all shrink |
| ReadPage.FittingIsShort | src/read.rs:735-745 | what fits is no longer than the budget, so the search may start there |
| ReadPage.LargestFittingPrefix | src/read.rs:715-793 | the binary search terminates and finds the largest fitting boundary, 0 if none, once the complete item was rejected |
| ReadPage.NextBoundary | src/read.rs:842-851 | the first boundary after an offset |
| ReadPage.SizeUp | src/read.rs:758-783 | the table-based size decides exactly whether the page with this prefix fits |
| ReadPage.FittingChunkBytes | src/read.rs:691-712 | a chunk's cost is returned exactly when the re-encoded page with it fits |
| ReadPage.PlaceItem | src/read.rs:621-677 | an item is taken whole if it fits, else its largest fitting prefix, else not at all |
| ReadPage.PackItem | src/read.rs:602-679 | one round of the loop keeps the page a contiguous, fitting stretch, or ends it with nothing more fitting |
| ReadPage.PackItems | src/read.rs:574-689 | a page is the items' bytes from the cursor to the next one, fits, is maximal, advances, and is refused only if the start is no place in its item, nothing of the first item fits, or the window holds nothing and not even the empty page fits |
| ReadPage.FinishPage | src/read.rs:681-689 | the final size check never rejects a page with a chunk |
| ReadPage.PagingIsLossless | src/read.rs:574-689 | following cursors concatenates chunk data to exactly the items' bytes, each at its place |
| ReadPage.PagingTerminates | src/read.rs:574-689 | there are never more pages than bytes left |
| ReadWire.PageSize | src/read.rs:505-550 | the size pages are packed by is the length of the JSON document sent, with the records of exactly the touched turns |
| DiffPlan.SplitLines | src/diff.rs:484-519 | the spans are those of the first lines, and the count exceeds the limit exactly when the text has more lines |
| DiffPlan.LinesTile | src/diff.rs:484-519 | the lines concatenate to the text |
| DiffPlan.LinesAreProper | src/diff.rs:484-519 | terminators sit only at line ends and a CRLF pair is never split |
| DiffPlan.LinesAreValid | src/diff.rs:484-519 | lines of well-formed text are well formed |
| DiffPlan.SpanIsLine | src/diff.rs:302-309 | each span addresses exactly its line |
| DiffPlan.PlanOps | src/diff.rs:310-354 | the operations are the longest equal start, the middle and the longest equal end behind it; they tile both sides without gap or overlap and replay the old lines into the new ones; only a small middle relies on the external differ |
| DiffPlan.SuffixRun | src/diff.rs:310-322 | trimmed prefix and suffix never overlap and the suffix is an equal run |
| DiffPlan.ScriptReplays | src/diff.rs:324-354 | every gapless script replays its range |
| DiffPlan.LinesOfOp | src/diff.rs:374-416 | an equal run is listed as context; of anything else no added line stands before a removed one; the lines have exactly the operation's old and new numbers in order, each with the kind, side and bytes its numbers say |
| DiffPlan.PlanHunk | src/diff.rs:357-427 | a hunk is cut into the lines of its group's operations one after another, each with its own kinds and its removed lines first; its header counts are its lines, numbered consecutively on both sides |
| DiffPlan.SplitTableOk | src/diff.rs:286-309 | the line tables of well-formed texts address well-formed lines |
| DiffPage.PageMeter.FitsWith | src/diff.rs:839-859 | the incremental total decides exactly whether the re-encoded page with the line fits |
| DiffPage.PageMeter.CommitLine | src/diff.rs:861-866 | committing keeps the counters equal to re-encoding the page |
| DiffPage.PageMeter.OpenHunk | src/diff.rs:868-870 | so does opening a hunk |
| DiffPage.PageMeter.FinishHunk | src/diff.rs:872-878 | so does finishing one |
| DiffPage.ChooseFragment | src/diff.rs:976-999 | the halving search returns the first of its probes that fits, and gives up only if none does |
| DiffPage.ShorterPartFits | src/diff.rs:978-999 | a shorter incomplete fragment never needs more room |
| DiffPage.LastProbeIsShort | src/diff.rs:976-999 | the search goes down to less than twice the first character |
| DiffPage.GivesUpExactly | src/diff.rs:976-1007 | it gives up if and only if neither the whole rest of the line nor its last probe fits |
| DiffPage.AtLeastHalf | src/diff.rs:976-999 | no fragment that fits is more than six bytes longer than twice the chosen one |
| DiffPage.FragmentCanBeMissed | src/diff.rs:976-999 | a concrete text whose first character fits although the search gives up |
| DiffPage.LineText | src/diff.rs:955-975 | an offset inside a line is refused as an argument error only off a boundary or past the end; broken sources are internal errors |
| DiffPage.EmitLine | src/diff.rs:945-1022 | one line contributes exactly its next bytes to the page, with the kind, both numbers and the length of the planned line; the page keeps fitting, and never takes less than about half of what would fit; on an empty page it is refused if and only if neither its rest nor the last probe fits |
| DiffPage.RemoveEmptyTail | src/diff.rs:1044-1048 | only empty hunks are removed |
| DiffPage.BuildPage | src/diff.rs:881-1042 | a page shows the planned bytes from the cursor to the next one, in order; an incomplete page is not empty, is full, advances the cursor and resumes at a boundary; non-empty pages fit with the worst cursor; on a sound plan a start is refused if and only if it is outside the plan, off a boundary, or has no room on a page of its own |
| DiffPage.FinalResultFits | src/diff.rs:774-789 | the later size check cannot reject a non-empty page |
| DiffPage.ResumableIsAccepted | src/diff.rs:917-925 | every emitted cursor is a valid start of the next page |
| DiffPage.SettleFindsTheNextByte | src/diff.rs:928-945 | passing finished lines and hunks passes no planned byte and stops at the next one |
| DiffPage.PagingIsLossless | src/diff.rs:881-1042 | the pages of any reading and what remains are every planned byte, once, in order, each under the kind, numbers and offset of its planned line |
| DiffPage.PagingTerminates | src/diff.rs:881-1042 | there are no more incomplete pages than planned bytes |
| DiffWire.ResultSize | src/diff.rs:839-859 | the size a page is budgeted with is the length of the JSON document sent |
| DiffWire.TemplateSize | src/diff.rs:892-906 | the size a page starts from is the length of the empty document with both flags down and the longest cursor of the plan |
| DiffPage.PlanHunks | src/diff.rs:355-428 | plans from well-formed texts hold, for every group that shows anything, exactly the hunk of its operations, and cannot cause internal errors |
| DiffPatch.CutUpIsScript | src/diff.rs:355-355 | cutting up equal runs keeps a script |
| DiffPatch.GroupsPatchable | src/diff.rs:355-361 | a grouping that leaves out only equal runs leaves only equal lines outside its groups |
| DiffPatch.HunksPatch | src/diff.rs:355-428 | the hunks of such groups, applied to the old lines, give the new lines |
| DiffPatch.AllHunksTrue | src/diff.rs:357-428 | in the hunks of such groups context lines are equal on both sides and only lines between the equal ends are removed or added |
| DiffPatch.PlanDiff | src/diff.rs:286-435 | the plan is truncated exactly when both sides have too many lines; otherwise its hunks turn the old lines into the new ones, every context line is the same on both sides, no line of the equal start or end is shown as removed or added, and each hunk lists its operations one after another with removed lines first |
| ChangeMerge.ByRefFinds | src/changes.rs:876-879 | the lookup knows a reference exactly when a live record has it |
| ChangeMerge.SharedMatchIsComplete | src/changes.rs:880-895 | with one live record per reference, compatible means every live record matches every stored one under its reference |
| ChangeMerge.SplitScan | src/changes.rs:876-895 | disk-only records are exactly the stored ones without a live counterpart, in order, and compatible is exact |
| ChangeMerge.StoredRecordIsFaithful | src/changes.rs:398-413 | the record of a stored change reports its path, kind, both revisions in their own places, commit state and coverage, and matches it |
| ChangeMerge.DiskOnlyStandsFor | src/changes.rs:876-895 | every disk-only record matches a stored change whose reference no live record has |
| ChangeMerge.EveryStoredIsListed | src/changes.rs:876-911 | every stored change without a live record is in the merged list |
| ChangeMerge.MergedIsLiveOrStored | src/changes.rs:872-911 | every merged record is a live one or stands for a stored change |
| ChangeMerge.MergedInOrder | src/changes.rs:869-911 | when the live records are dated and in order of time, so is the whole merged list |
| ChangeMerge.MergeInterleaves | src/changes.rs:896-911 | the merged list holds every live and every disk-only record once, both orders kept |
| ChangeMerge.MergeOrder | src/changes.rs:869-911 | a live record precedes a disk-only one if and only if it and all live records before it are dated and not later |
| ChangeMerge.UndatedFollowDisk | src/changes.rs:869-911 | live records not yet persisted, and all live ones after them, follow every disk-only record |
| ChangeMerge.DiskInOrder | src/store/tool_records/cold_read.rs:496-508 | the disk-only records inherit the store's order of times |
| ChangeMerge.MergeToolRecords | src/changes.rs:872-911 | the nested loops compute that merged order |
| ChangePage.ReservationShrinks | src/changes.rs:650-656 | dropping the details warning and adding the skipped one never needs more room than was reserved |
| ChangePage.PlanPageEnd | src/changes.rs:640-701 | the plan ends before the first record that does not fit the reserved page, and fails on a non-empty rest only if not even one record fits |
| ChangePage.PlanIsLongest | src/changes.rs:633-638 | the plan is the longest record prefix within its bounds that fits |
| ChangePage.RecordOutweighsCursor | src/changes.rs:159-193 | every encoded record is longer than any cursor that could replace it |
| ChangePage.UpgradedIsSmaller | src/changes.rs:793-826 | turning details flags on never makes records longer |
| ChangePage.SecondPlanKeepsFirst | src/changes.rs:633-701 | after verification the second plan ends exactly where the first did |
| ChangePage.PlannedPageFits | src/changes.rs:606-631 | a page with records fits the budget as answered |
| ChangePage.PageWarns | src/changes.rs:606-631 | a page warns of missing details exactly if it shows a record without them, and carries every other warning as it was |
| ChangePage.PageRecords | src/changes.rs:556-631 | a stale cursor gets the stale answer, any other the planned page; the final check rejects no page with records, and an empty one only if it exceeds the budget |
| ChangePage.BareResultFits | src/changes.rs:206-254 | an answer without records fits every budget a valid request may name |
| ChangePage.VerifyBlobs | src/changes.rs:788-826 | only checkable records of the page change, only to available, and only on the store's word; it stops early only at the first check that fails or spends the budget |
| ChangePage.ListPage | src/changes.rs:742-839 | the answer is the page of the first plan, with warnings and completeness exact, and with exact details flags unless a check fails or spends the budget; a page is not listed only if its cursor lies behind the list, not even the first record fits, a check of the clock within the list expired, or the check of a record of the planned page failed |
| ChangePage.ListToolChanges | src/changes.rs:703-839 | an invalid request, an expired start and an unanswered scan are refused as such, the scan being survived exactly while there are live records and it did not run out of time; everything else is the page over the merged records, each a live record or the faithful record of a stored change, under the right owner and consistency and marked stale exactly if the cursor's observation differs, listed unless one of the named reasons holds, and never complete without the store |
| ChangePage.AnswersShowStored | src/changes.rs:703-839 | whatever an answer shows is a live record or matches a stored change, up to its details flag |
| ChangePage.StandingIsCheckable | src/changes.rs:788-812 | with distinct references every record of a stored change has its blobs checked |
| ChangePage.NextCursorIsAccepted | src/changes.rs:208-238 | the next cursor is valid, resumes behind the page and is not stale under its own observation |
| ChangeWire.ResultSize | src/changes.rs:633-701 | the size an answer is planned by is the length of the JSON document sent |
| ChangeWire.PlanBudgetsTheDocument | src/changes.rs:650-692 | the plan accepts an end exactly if the document with these records, the reserved warnings and the cursor behind them is within the budget |
| ChangePage.ListingIsExact | src/changes.rs:703-839 | following cursors lists every entry of one observation once and in order, whatever happens between the calls |
| ChangePage.SameObservation | src/changes.rs:925-933 | a cursor that is not stale pins the whole list of entries |
| EventLanes.RunsStayBounded | src/event.rs:253-320 | every run keeps the lanes within capacity, the burst within eight and the counter within its width |
| EventLanes.LanesAreFifo | src/event.rs:280-308 | each lane delivers exactly what was sent on it, in order |
| EventLanes.LifecycleWaitIsBounded | src/event.rs:666-698 | a waiting lifecycle event sees at most eight control deliveries, fewer inside a burst, and no body event |
| EventLanes.ControlWaitIsBounded | src/event.rs:666-698 | a waiting control frame sees at most one lifecycle delivery, none inside a burst, and no body event |
| EventLanes.NinthDeliveryIsLifecycle | src/event.rs:666-698 | among any nine deliveries is the lifecycle event that was waiting |
| EventLanes.NineReceivesDeliver | src/event.rs:666-698 | nine receives on a working stream deliver the lifecycle event that was waiting, whatever else is sent meanwhile |
| EventLanes.DropsAreAccounted | src/event.rs:704-712 | drops recorded are those reported, still pending, or lost to saturation, exactly |
| EventLanes.NothingIsLost | src/event.rs:314-320 | and none are lost while the total fits the counter |
| EventLanes.RunsKeepPromises | src/event.rs:280-308 | in every run each call is answered by the lanes it met: a snapshot is never dropped and is sent if the stream is open and has room; an event is dropped exactly when its lane is full; a receive on a working stream delivers exactly when something waits |
| EventLanes.BodyIsStreamed | src/event.rs:183-199 | only output, progress, command chunks and later argument previews travel in the body lane |
| EventLanes.AgentEvents.TrySend | src/event.rs:280-294 | sending refines its step: by class to a lane, dropped and counted when full, refused when closed |
| EventLanes.AgentEvents.SendSnapshot | src/event.rs:296-308 | a snapshot waits for room and is never dropped |
| EventLanes.AgentEvents.RecordCoreDrops | src/event.rs:314-320 | drops are added with saturation |
| EventLanes.AgentEvents.Receive | src/event.rs:666-712 | receiving refines its step: lane choice, burst count and attached drops |
| DisplayBody.CutIsLongest | src/text.rs:3-7 | no longer prefix within the limit ends at a boundary |
| DisplayBody.CutOfConcat | src/text.rs:3-7 | cutting two texts in a row is cutting their concatenation |
| DisplayBody.SanitizedIsHarmless | src/presentation/display.rs:83-100 | sanitized text has no control characters besides newlines and tabs of bodies |
| DisplayBody.CharactersAreShown | src/presentation/display.rs:83-100 | each character of a text is shown at its place: as itself, as a space for flattened white space, or as an escape whose digits read back as the character |
| DisplayBody.ControlsByValue | src/presentation/display.rs:93-95 | the control characters are the scalar values below 0x20 and from 0x7F to 0x9F |
| DisplayBody.NewlinesCounted | src/presentation/display.rs:69-75 | newlines are counted wherever they stand |
| DisplayBody.HarmlessIsKept | src/presentation/display.rs:83-100 | text without control effects is left alone, so sanitizing is idempotent |
| DisplayBody.SanitizeDisplayText | src/presentation/display.rs:86-100 | the loop computes the sanitized text |
| DisplayBody.SanitizeConcat | src/presentation/display.rs:86-100 | sanitizing works character by character |
| DisplayBody.Body.Push | src/presentation/display.rs:132-144 | any sequence of pushes shows the cut of their concatenation, with its size, lines and truncation flag |
| DisplayBody.Body.Sanitized | src/presentation/display.rs:146-159 | streaming sanitization shows the cut of the sanitized concatenation |
| DisplayBody.FromText | src/presentation/display.rs:161-165 | the streaming body equals sanitizing everything and then cutting, with the same counts whether or not it retains text |
| DisplayBody.BoundedResultContent | src/presentation/display.rs:421-427 | the whole-string form, whose result is free of control effects |
| DisplayBody.ResultLineCount | src/presentation/display.rs:409-412 | the count-only body counts the lines of the text that would be shown |

## Left out

- The summary model and its chunking, prompts and token accounting (`src/compaction/utility.rs`): a summary is a text or an error.
- Usage sums, observations, operation ids, status views, `superseded_usage` and the observation guard's reports: they do not influence which request is sent.
- Hash serialization failures: hashes are the values they frame. Generations are unbounded numbers without wrap-around.
- HistoryMessage: the Runtime's own prefix and truncation of a summary item are not modelled; a summary item is sent as a system message with its text.
- Call arguments and provider replay payloads are texts; their JSON is not modelled.
- Durable normalization and replay validation (the `durable` branch of `src/history.rs`), and loading, anchoring and writing snapshot files: I/O around the checks that are modelled.
- Recovery.StartInner: concurrent callers act while the first raw start is in flight and not at the other await points, and none of them binds the same request; cancellation and deadlines are parameters that may end the call at each check.
- The external differ: `capture_diff` is assumed to return a gapless script for the trimmed middle, and `group_diff_ops` to leave out nothing but equal runs, which it may cut up.
- The plan fingerprint, binary detection, blob resolution and workspace diffs: single branches around the planner.
- ReadPage.PackItems: the derived summary slot and the store scan are not modelled; the items are a fixed list and the window starts at or before the cursor. A page's fixed fields are one constant.
- The entry inside a workspace change reference is given as its encoding. Workspace change listing: it calls the modelled `page_records` with records built from a status scan that is not part of this model.
- Recorded times are numbers: canonical timestamps of equal length compare like them.
- EventLanes: nothing is claimed for the body lane beyond order and bounds, because it may starve; snapshot charges and the frames' encoding are not modelled.
- DisplayBody: tool-specific detail formatting and the edit diff body are not modelled.
- Sessions, queries, RPC, configuration, the model client and the command line: wiring and I/O.
