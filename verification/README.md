# AOS capsules: verified model

A Dafny model of the stateful core of the AOS community edition: the session
store, the ReAct turn machine, the streaming pipeline from the model provider to
the terminal, selection and compaction, and the agreement protocols around host
hooks and channel publication. `dafny verify dfyconfig.toml` checks all of it.

How things are modelled:

- A protocol is a state machine: a total step function on a world value and runs
  over arbitrary sequences of actions. The key-value store is a map with atomic
  get, compare-and-swap and delete; the bus is a log of published events; clocks
  are numbers. Which host calls fail is part of each action. React's log holds
  the publications it attempts: for streamed text, tool requests, LLM requests and
  answers it says which the bus took; a notice, cancel or re-driven reply whose
  publication fails, which the code ignores, and a request to another capsule
  whose publication fails after the state is saved, are in the log all the same.
- Code that updates objects is a class whose methods are proved equal to the pure
  step functions (`ReactLoop.Capsule`, `ToolStream.ChunkProcessor`,
  `CliProxy.Reconciler`, `HookTokens.TokenStore`, `Grep.Search`,
  `ModelIds.RegistryState`, `SessionCell.SharedCell`, `SessionSearch.Sessions`);
  other loops are methods over values.
- JSON and TOML are datatypes or decoder parameters; hashes are parameters.

The files, by component:

| files | component |
|---|---|
| `SessionModel`, `SessionRuns`, `SessionTheorems`, `SessionCell` | racing calls on one stored session: migration, retry loops, deletes |
| `SessionSearch` | paged transcript search and draining it by cursor |
| `ReactModel`, `ReactInvariant`, `ReactSteps`, `ReactTheorems`, `ReactProgress`, `ReactRounds`, `ReactEffects`, `ReactLoop` | the turn machine, its invariants, bounds, progress, tool rounds, what each handler leaves behind, and imperative handlers |
| `SseStream`, `ToolStream`, `ToolDemux`, `StreamPipeline`, `EndToEnd` | line buffering, tool-call demultiplexing, from network chunks to the turn that asked |
| `CliProxy`, `Terminal` | rendering replies once, connection binding, removing dead clients; what the terminal shows of every react run |
| `HookTokens` | route tokens under races with retirement |
| `Grep`, `Compaction`, `HookWindows`, `ModelIds` | capped search, compaction, hook time windows, model ids |
| `Decimal`, `Base64`, `Sorting`, `ChannelTransaction`, `ChannelPublication` | generations, transactions and publication runs |

Results worth knowing because the code or its comments suggest otherwise:

- Session calls: a failed read is charged like a lost race, so eight failed reads
  alone exhaust the retry budget (`SessionTheorems.FailedReadsAloneContend`).
- Session clear leaves correlation entries behind exactly when one names the
  cleared session; they are harmless (`ReactTheorems.ClearKeepsLiveIff`,
  `ReactTheorems.StaleEntriesHarmless`).
- A streamed text the bus refuses is only logged: the answer equals what was
  published exactly when nothing of it was refused
  (`ReactTheorems.AnswerIsWhatWasStreamed`, `ReactProgress.RefusedTextIsAnswered`).
- A terminal response that does not extend what was streamed is shown empty, so
  after a refused text the terminal may never show the rest
  (`CliProxy.TerminalWholeIff`, `Terminal.AnswerAtTheTerminal`).
- A call whose name arrives twice is started twice, and then react waits for a
  second call with the same id that no result can answer: exactly the streams
  that name each call once are demultiplexed, and exactly the rounds with distinct
  ids can complete (`ToolDemux.DemultiplexedIff`, `ToolDemux.RepeatedNameBreaks`,
  `ReactRounds.CompletableIff`).
- A hook response racing a new session start can retire the newer token, exactly
  when that token was registered after the response read the old one
  (`HookTokens.RetirementCanTakeNewerToken`, `HookTokens.RetiresNewerIff`).
- Hook windows count whole milliseconds elapsed: the first-response window
  stretches, by less than one millisecond, exactly on clocks that tick inside it
  but not at whole milliseconds (`HookWindows.WindowHoldsIff`).
- React's 90 % target is a u64 product that a release build wraps
  (`Compaction.ReactTargetWithinMax`).
- The qualified pass of model selection can only match on a colon-free id `x` and
  the input `x:x` (`ModelIds.QualifiedPassIff`).
- Different base64 texts decode alike when padding leaves bits over
  (`Base64.EncodeDecodeIff`).

Standards: server-sent events are section 9.2 of the WHATWG HTML standard; base64
is section 4 of RFC 4648.

## Model

| member | source | states |
|---|---|---|
| SessionModel.ViewOfWritten | capsules/capsule-session/src/lib.rs:431-444 | a record at the current schema version reads back as itself |
| SessionModel.ViewReads | capsules/capsule-session/src/lib.rs:424-445 | by the shape of what is stored: a record of version 2 or older reads as itself at version 2, anything else as a new empty record |
| SessionModel.MutateChanges | capsules/capsule-session/src/lib.rs:224-251 | field by field what an append and an update change and what they leave, and that only oversize metadata is refused |
| SessionModel.MutatePreserves | capsules/capsule-session/src/lib.rs:224-251 | a committed mutation appends exactly the call's messages, keeps a set creation time and the parent, and reads back as itself |
| SessionCell.SharedCell.Load | capsules/capsule-session/src/lib.rs:461-526 | what was found at the read loads with every field but the version when it is a record of version 2 or older, and as a new record otherwise; the expectation is the exact stored value, and only an own upgrade of the same record is written |
| SessionCell.SharedCell.Modify | capsules/capsule-session/src/lib.rs:536-602 | a returned record is one own committed write that makes exactly the call's changes to what it replaced; every other result writes nothing but migrations; missing means the thread was absent or unread at some instant, refused exactly oversize metadata; undisturbed, the outcome and the cell are exact; giving up needs a rival write or failed read per attempt |
| SessionRuns.ApplyKeepsInv | capsules/capsule-session/src/lib.rs:449-602 | every atomic step of every racing call keeps the run invariant (log chained to the cell, each entry entitled, each lost swap charged) |
| SessionRuns.RunKeepsInv | capsules/capsule-session/src/lib.rs:449-602 | so does every run |
| SessionTheorems.EveryRunReplays | capsules/capsule-session/src/lib.rs:449-602 | what a reader sees always equals the log of winning writes replayed one call at a time |
| SessionTheorems.TranscriptTheorem | capsules/capsule-session/src/lib.rs:536-562 | from any point after which nothing was deleted or overwritten from outside, the transcript is the earlier one followed by each winner's messages once, in win order, and a set creation time never moves |
| SessionTheorems.StoredRecordSurvives | capsules/capsule-session/src/lib.rs:424-562 | the same by what is stored, whatever its schema version: original messages, then the winners' in win order, original parent and creation time, and each setting as the last winning update that set it left it |
| SessionTheorems.CallRunsOnlyCall | capsules/capsule-session/src/lib.rs:536-602 | without deletes and outside writers only calls write, in every run |
| SessionTheorems.NothingLost | capsules/capsule-session/src/lib.rs:536-562 | then the final transcript is the first one followed by all winners' messages |
| SessionTheorems.CommitExactlyOnce | capsules/capsule-session/src/lib.rs:536-602 | a writing call that returned a record has exactly that record in the log once; any other outcome has committed nothing |
| SessionTheorems.UpdatesNeverCreate | capsules/capsule-session/src/lib.rs:564-602 | with deletes anywhere, a winning update or migration found a stored thread to replace |
| SessionTheorems.ContentionIsCharged | capsules/capsule-session/src/lib.rs:536-602 | giving up after eight attempts means at least eight distinct foreign writes, less one per failed read |
| SessionTheorems.FailedReadsAloneContend | capsules/capsule-session/src/lib.rs:461-562 | the allowance for failed reads is needed: eight of them alone give up |
| SessionTheorems.UndisturbedCallFinishes | capsules/capsule-session/src/lib.rs:536-602 | a call left alone for three operations is over, committed unless refused or missing |
| SessionTheorems.UndisturbedReadFinishes | capsules/capsule-session/src/lib.rs:461-526 | a reading call left alone returns what is stored and leaves an older record upgraded |
| SessionTheorems.UndisturbedDeleteFinishes | capsules/capsule-session/src/lib.rs:449-602 | a delete left alone removes what is stored, or finds nothing |
| SessionSearch.FindIsFirst | capsules/capsule-session/src/lib.rs:302-324 | the substring search finds the first occurrence, none only when there is none |
| SessionSearch.CountPositiveIff | capsules/capsule-session/src/lib.rs:302-324 | the count is positive exactly when some message matches |
| SessionSearch.MessageTextIs | capsules/capsule-session/src/lib.rs:127-135 | a message is searched in its plain text or the first text among its parts; tool calls and results have none |
| SessionSearch.MatchAtIff | capsules/capsule-session/src/lib.rs:302-324 | a message counts exactly when the query occurs in that text, letter case aside |
| SessionSearch.CountIsMatching | capsules/capsule-session/src/lib.rs:302-324 | the count is the number of such messages |
| SessionSearch.SearchMessages | capsules/capsule-session/src/lib.rs:302-324 | number of matching messages, saturating at u32, and the excerpt around the first match |
| SessionSearch.WindowShowsMatch | capsules/capsule-session/src/lib.rs:332-357 | the excerpt window is as large as it can be and holds the match's start, all of it when at most 60 characters |
| SessionSearch.SnippetShowsMatch | capsules/capsule-session/src/lib.rs:332-357 | trimmed and with its ellipses, the excerpt still contains the match, for queries of at most 60 characters that begin and end visibly |
| SessionSearch.ExcerptShowsMatch | capsules/capsule-session/src/lib.rs:302-324 | so every thread that matches such a query is listed with an excerpt containing it |
| SessionSearch.Limit | capsules/capsule-session/src/lib.rs:632-636 | the requested limit when it is between 1 and 100, else the nearer end, and 20 when absent |
| SessionSearch.Sessions.Load | capsules/capsule-session/src/lib.rs:461-526 | the record by what is stored under the key, with an older version upgraded in place when the swap goes through and nothing else changed |
| SessionSearch.LoadKeeps | capsules/capsule-session/src/lib.rs:461-526 | a load changes no thread any reader sees |
| SessionSearch.Sessions.ScanPage | capsules/capsule-session/src/lib.rs:774-801 | the key loop over one page agrees with the key-by-key scan, changing the store by migrations only |
| SessionSearch.Sessions.DoSearch | capsules/capsule-session/src/lib.rs:746-811 | the nested page and key loop computes the key-by-key scan for every honest pager, so page sizes do not show; old records it meets are migrated or left, and readers see the same threads afterwards; an empty query finds nothing |
| SessionSearch.ScanReads | capsules/capsule-session/src/lib.rs:774-801 | a call reads at most 200 keys, returns their hits, at most `limit`, and its cursor is the last key read; it stops early only for the 200 keys or a hit that fills the limit |
| SessionSearch.OneCall | capsules/capsule-session/src/lib.rs:746-811 | a cursor splits the remaining hits exactly and strictly shrinks what is left |
| SessionSearch.DrainFindsAll | capsules/capsule-session/src/lib.rs:746-811 | resuming until there is no cursor yields all hits in key order within limits, in at most one call more than threads |
| SessionSearch.HitsAreTheMatches | capsules/capsule-session/src/lib.rs:746-811 | hits are exactly the visible matching threads, keys strictly increasing |
| SessionSearch.DrainListsEachMatchOnce | capsules/capsule-session/src/lib.rs:746-811 | from the start, draining lists each visible match once and nothing else |
| SessionSearch.DrainListsMatchingThreads | capsules/capsule-session/src/lib.rs:746-811 | by the messages alone: draining lists a thread exactly when it may be shown and one of its messages matches, once, in key order, with its own title, time, count and excerpt |
| ReactInvariant.RegisterKeeps | capsules/capsule-react/src/lib.rs:193-203 | registering adds the session once and keeps the list duplicate-free |
| ReactInvariant.UnregisterKeeps | capsules/capsule-react/src/lib.rs:227-237 | swap-remove takes out exactly the session and keeps the list duplicate-free |
| ReactInvariant.AbortKept | capsules/capsule-react/src/lib.rs:438-460 | the terminal teardown keeps the invariant and leaves no stale entry |
| ReactInvariant.TimeoutKept | capsules/capsule-react/src/lib.rs:1487-1510 | so does a phase timeout with cleanup |
| ReactInvariant.SweepKept | capsules/capsule-react/src/lib.rs:612-622 | so does the watchdog over any list of sessions |
| ReactInvariant.InterruptAllKept | capsules/capsule-react/src/lib.rs:633-675 | so does bus lag |
| ReactInvariant.CancelKept | capsules/capsule-react/src/lib.rs:1639-1665 | so does cancel |
| ReactSteps.PromptKept | capsules/capsule-react/src/lib.rs:682-763 | a user prompt keeps the invariant and the live correlation maps |
| ReactSteps.IdentityKept | capsules/capsule-react/src/lib.rs:828-908 | so does the identity response |
| ReactSteps.PublishKept | capsules/capsule-react/src/lib.rs:1707-1740 | so does publishing the LLM request, or failing to |
| ReactSteps.PromptResponseKept | capsules/capsule-react/src/lib.rs:915-966 | so does the prompt builder's response |
| ReactSteps.StreamKept | capsules/capsule-react/src/lib.rs:974-1074 | so does every stream event |
| ReactSteps.StreamDoneKept | capsules/capsule-react/src/lib.rs:1514-1612 | so does the end of a stream, with or without tool calls |
| ReactSteps.ToolResultKept | capsules/capsule-react/src/lib.rs:1082-1202 | so does a tool result |
| ReactSteps.RestartKept | capsules/capsule-react/src/lib.rs:530-534 | so does a restart |
| ReactSteps.ClearKeepsInv | capsules/capsule-react/src/lib.rs:543-605 | session clear keeps the invariant |
| ReactSteps.RunKept | capsules/capsule-react/src/lib.rs:430-460 | every run keeps the invariant, and the live maps when nothing clears |
| ReactTheorems.ActiveListExact | capsules/capsule-react/src/lib.rs:454-460 | the active list is duplicate-free and exactly the sessions with a stored turn that is not Idle |
| ReactTheorems.CorrelationsLive | capsules/capsule-react/src/lib.rs:1618-1632 | without clears every request entry points to a Streaming turn with that id and every call entry to an AwaitingTools turn that dispatched it |
| ReactTheorems.ClearKeepsLiveIff | capsules/capsule-react/src/lib.rs:574-589 | a clear keeps the maps live exactly when no entry names the cleared session |
| ReactTheorems.StaleEntriesHarmless | capsules/capsule-react/src/lib.rs:974-1010 | an event or result through a stale entry changes nothing unless the session named there timed out |
| ReactTheorems.AwaitingToolsAwaits | capsules/capsule-react/src/lib.rs:1541-1590 | an AwaitingTools turn has an unanswered call, and all its calls carry its current request id |
| ReactTheorems.OneFinalPerPrompt | capsules/capsule-react/src/lib.rs:1514-1612 | after a session's final response no delta, tool request or final response of it comes before its next prompt |
| ReactTheorems.AnswerIsWhatWasStreamed | capsules/capsule-react/src/lib.rs:1013-1026 | in every run an answer is non-empty and equals the texts received under its request id, the session's last request, concatenated; it equals the published deltas exactly when the bus refused none of them |
| ReactTheorems.LossShortens | capsules/capsule-react/src/lib.rs:1013-1026 | under one request the published text is never longer than the received one, equal exactly when nothing was refused and shorter otherwise |
| ReactTheorems.WorkPerPromptBounded | capsules/capsule-react/src/lib.rs:1118-1202 | between two prompts at most max(1, max_iterations) LLM requests and as many tool rounds |
| ReactProgress.EventsRun | capsules/capsule-react/src/lib.rs:974-1074 | any stretch of stream events in time leaves all of them accumulated and one publication per text, taken or refused |
| ReactProgress.StreamConcludes | capsules/capsule-react/src/lib.rs:1514-1612 | a whole stream ends with the requests of exactly its calls and the turn waiting for them, or with its text as the one answer and the turn over |
| ReactProgress.TurnDelivers | capsules/capsule-react/src/lib.rs:682-1074 | so from any store, with any running clock and any selected or requested model, a prompt whose turn does not fail or time out publishes one LLM request, its texts in order, and then its tool requests or its answer |
| ReactProgress.RefusedTextIsAnswered | capsules/capsule-react/src/lib.rs:1013-1026 | a run in which the answer holds text no published delta carried |
| ReactProgress.LastResultContinues | capsules/capsule-react/src/lib.rs:1118-1201 | in time and with any usable model, overrides included, the last missing result makes the model be asked again under a new id the turn then waits for |
| ReactRounds.AnsweredIff | capsules/capsule-react/src/lib.rs:1105-1123 | a dispatched call is answered exactly when some result named it, ids being distinct |
| ReactRounds.RecordedAll | capsules/capsule-react/src/lib.rs:1105-1123 | after any results each call carries the latest result that names it and is otherwise itself |
| ReactRounds.CompletableIff | capsules/capsule-react/src/lib.rs:1105-1123 | some results complete a round exactly when its calls have distinct ids; the second of two equal ids is never answered |
| ReactRounds.RoundCompletes | capsules/capsule-react/src/lib.rs:1082-1202 | results in any order, repeated or not, publish nothing until the last missing one arrives, which asks the model again once and removes the calls' entries |
| ReactProgress.RepublishedOnlyWhenIdle | capsules/capsule-react/src/lib.rs:782-821 | a reply is republished only for an Idle session below the limit, changing nothing else |
| ReactProgress.RedrivenIffIdle | capsules/capsule-react/src/lib.rs:782-821 | a reply that meets a wrong phase is republished exactly for an Idle session below twenty, otherwise dropped, changing nothing else |
| ReactProgress.RedrivenAtMostTwenty | capsules/capsule-react/src/lib.rs:782-821 | in any run of store and bus no reply is republished more than twenty times |
| ReactEffects.AbortTearsDown | capsules/capsule-react/src/lib.rs:1618-1632 | on every store: the turn Idle and empty under a fresh id, off the active list, none of its entries left, everything else untouched |
| ReactEffects.CancelEnds | capsules/capsule-react/src/lib.rs:1639-1665 | a cancel tears down any turn under way, whatever its phase, publishing one cancel with the dispatched ids when it waits for tools and nothing otherwise; without a turn nothing changes |
| ReactEffects.CancelIsFinal | capsules/capsule-react/src/lib.rs:1639-1665 | from any reachable store, after a cancel and whatever comes next, no event of the old request changes anything, nor, right after it, a result of an old call |
| ReactEffects.TimeoutEnds | capsules/capsule-react/src/lib.rs:1487-1510 | a check tears down exactly an overdue turn, with one notice |
| ReactEffects.TickEndsOverdue | capsules/capsule-react/src/lib.rs:612-622 | a watchdog tick ends exactly the overdue turns of all sessions, one notice each |
| ReactEffects.LagEndsMidTurn | capsules/capsule-react/src/lib.rs:633-675 | a bus lag ends exactly the turns that stream or wait for tools, one notice each |
| ReactEffects.RestartEndsAll | capsules/capsule-react/src/lib.rs:530-534 | after a restart every turn is Idle and no entry is left |
| ReactEffects.ClearForgets | capsules/capsule-react/src/lib.rs:543-605 | a clear removes the session's turn and activity, prepares its replacement, and says so |
| ReactEffects.StreamErrorEnds | capsules/capsule-react/src/lib.rs:1051-1072 | an error event tears the turn down with its message |
| ReactEffects.NoModelEndsAtIdentity | capsules/capsule-react/src/lib.rs:870-886 | without a usable model the identity reply tears the turn down with one notice |
| ReactEffects.NoModelEndsAtRequest | capsules/capsule-react/src/lib.rs:1707-1712 | and so does the attempt to publish the request |
| ReactEffects.RefusedRequest | capsules/capsule-react/src/lib.rs:1724-1739 | a refused request removes its own entry and changes nothing else |
| ReactEffects.ResolvedModel | capsules/capsule-react/src/lib.rs:1476-1481 | the requested model unless blank, else the selected one unless blank, else none |
| ReactEffects.CapEnds | capsules/capsule-react/src/lib.rs:1138-1162 | the last result at the iteration cap ends the turn with a notice and its calls' entries gone |
| ReactEffects.DispatchParks | capsules/capsule-react/src/lib.rs:1521-1570 | the turn is parked on all its calls, each with its own name and arguments, and each is requested once, in order |
| ReactEffects.RefusedToolEnds | capsules/capsule-react/src/lib.rs:1560-1589 | with one request refused, those before it went out, the turn is over with a notice and none of its calls can be answered |
| ReactEffects.EmptyStreamEnds | capsules/capsule-react/src/lib.rs:1605-1610 | a stream that ends with nothing ends the turn in silence |
| ReactEffects.UndeliveredAnswer | capsules/capsule-react/src/lib.rs:1590-1604 | an answer that cannot be stored or published is not given, and only its entry goes |
| ReactEffects.IdentityTakesOn | capsules/capsule-react/src/lib.rs:828-908 | an identity reply in time takes the turn on and asks the prompt builder with its prompt and a usable model; without the history nothing changes |
| ReactEffects.LeftoverDropped | capsules/capsule-react/src/lib.rs:1104-1114 | a result left over from another request of the session changes nothing |
| ReactEffects.UnstoredRoundStaysOpen | capsules/capsule-react/src/lib.rs:1118-1191 | when the answered calls cannot be stored nothing changes and the same result can come again |
| ReactEffects.PromptBegins | capsules/capsule-react/src/lib.rs:682-763 | a prompt begins a turn of its own under a fresh id with the old turn's entries gone; blank or unstored text changes nothing |
| ReactLoop.Capsule.Handle | capsules/capsule-react/src/lib.rs:530-1202 | one message of any kind makes exactly the machine's step on the object, keeps its invariant, and leaves no stale entry unless it is a clear |
| ReactLoop.Capsule.RegisterActive | capsules/capsule-react/src/lib.rs:193-203 | the list becomes the registered list, nothing else changes |
| ReactLoop.Capsule.UnregisterActive | capsules/capsule-react/src/lib.rs:227-237 | the list becomes the swap-removed list |
| ReactLoop.Capsule.DeleteCallSessions | capsules/capsule-react/src/lib.rs:165-172 | exactly the given calls leave the map |
| ReactLoop.Capsule.StoreCallSessions | capsules/capsule-react/src/lib.rs:124-130 | exactly the given calls map to the session |
| ReactLoop.Capsule.CleanupInflightMappings | capsules/capsule-react/src/lib.rs:1618-1632 | exactly the turn's request and call entries go |
| ReactLoop.Capsule.CheckTimeoutWithCleanup | capsules/capsule-react/src/lib.rs:1487-1510 | the store after a timeout check, and whether it fired |
| ReactLoop.Capsule.WatchdogTick | capsules/capsule-react/src/lib.rs:612-622 | the handler is the model's step |
| ReactLoop.Capsule.BusLagged | capsules/capsule-react/src/lib.rs:633-675 | the handler is the model's step |
| ReactLoop.Capsule.CancelTurn | capsules/capsule-react/src/lib.rs:1639-1665 | the handler is the model's step |
| ReactLoop.Capsule.LifecycleRestart | capsules/capsule-react/src/lib.rs:530-534 | the handler is the model's step |
| ReactLoop.Capsule.SessionCleared | capsules/capsule-react/src/lib.rs:543-605 | the handler is the model's step |
| ReactLoop.Capsule.UserPrompted | capsules/capsule-react/src/lib.rs:682-763 | the handler is the model's step |
| ReactLoop.Capsule.RedriveIfUnready | capsules/capsule-react/src/lib.rs:782-821 | the handler is the model's step, and says whether the caller must stop |
| ReactLoop.Capsule.IdentityResponded | capsules/capsule-react/src/lib.rs:828-908 | the handler is the model's step |
| ReactLoop.Capsule.PromptAssembled | capsules/capsule-react/src/lib.rs:915-966 | the handler is the model's step |
| ReactLoop.Capsule.RequestCompletion | capsules/capsule-react/src/lib.rs:1707-1740 | publishing the request is the model's step |
| ReactLoop.Capsule.LlmStreamed | capsules/capsule-react/src/lib.rs:974-1074 | the handler is the model's step |
| ReactLoop.Capsule.StreamDone | capsules/capsule-react/src/lib.rs:1514-1612 | the handler is the model's step |
| ReactLoop.Capsule.DispatchPending | capsules/capsule-react/src/lib.rs:1521-1589 | the turn is parked first, then one request per call is published until one is refused |
| ReactLoop.Capsule.ToolResulted | capsules/capsule-react/src/lib.rs:1082-1202 | the handler is the model's step |
| ReactLoop.Capsule.RoundFinished | capsules/capsule-react/src/lib.rs:1138-1201 | at the cap the turn stops with a notice, otherwise the next round starts |
| ReactLoop.RecordFirst | capsules/capsule-react/src/lib.rs:1107-1116 | the result lands in the first call with that id unless it is left over from an earlier request |
| ReactLoop.EveryAnswered | capsules/capsule-react/src/lib.rs:1122-1123 | true exactly when there are calls and all have results |
| ReactLoop.AmendFirst | capsules/capsule-react/src/lib.rs:1029-1046 | only the first pending call with that id is amended |
| SseStream.LinesAreTheText | capsules/capsule-openai-compat/src/lib.rs:385-402 | complete lines and residue together are the text |
| SseStream.LinesHoldNoNewline | capsules/capsule-openai-compat/src/lib.rs:394-402 | neither a line nor the residue holds a newline |
| SseStream.LinesOfConcat | capsules/capsule-openai-compat/src/lib.rs:385-402 | cutting a text anywhere and carrying the residue over gives the same lines |
| SseStream.ParseStream | capsules/capsule-openai-compat/src/lib.rs:380-428 | the buffer and its two loops, which end, compute the chunk-by-chunk meaning, for any line handler |
| SseStream.ChunkedIsWhole | capsules/capsule-openai-compat/src/lib.rs:380-428 | for chunks that fit the buffer that meaning is the one of the whole text |
| SseStream.ChunkingIrrelevant | capsules/capsule-openai-compat/src/lib.rs:380-428 | two cuttings of one text give the same events and verdict |
| SseStream.TooLongIff | capsules/capsule-openai-compat/src/lib.rs:388-392 | the size error happens exactly when a chunk that is read does not fit behind the waiting text |
| SseStream.LineEndsAgree | capsules/capsule-openai/src/lib.rs:336-362 | for both providers CR LF and LF line ends mean the same |
| SseStream.LiveLineIs | capsules/capsule-openai-compat/src/lib.rs:404-448 | a data line, whatever blanks surround its payload, publishes the end, is decoded, or fails on bad JSON; other lines change nothing |
| SseStream.BlankData | capsules/capsule-openai-compat/src/lib.rs:441-447 | a data line of blanks changes nothing |
| SseStream.EventLineIs | capsules/capsule-openai/src/lib.rs:341-362 | in the native parser a data line under a name adds exactly its pair, a blank line ends the name, other lines change nothing |
| SseStream.EventBlockFeeds | capsules/capsule-openai/src/lib.rs:341-362 | a whole named event is dispatched data line by data line under its own name, which ends with it |
| ToolStream.ChunkProcessor.ProcessFragment | capsules/capsule-openai-compat/src/lib.rs:478-511 | one fragment grows and fills its slot and publishes what the model says |
| ToolStream.ChunkProcessor.ProcessChunk | capsules/capsule-openai-compat/src/lib.rs:450-529 | a chunk's usage, text, fragments and ends are the model's step |
| ToolStream.OrderFacts | capsules/capsule-openai-compat/src/lib.rs:476-513 | the order of first appearance lists each index seen once |
| ToolStream.IdsDistinct | capsules/capsule-openai-compat/src/lib.rs:484-486 | distinct calls of a well-formed stream have distinct, non-empty ids |
| ToolStream.PendingExtends | capsules/capsule-react/src/lib.rs:1029-1046 | a further fragment without a name extends just its own call in react |
| ToolStream.PendingAdds | capsules/capsule-react/src/lib.rs:1029-1046 | a first fragment adds just its own call |
| ToolStream.SlotsHoldLatest | capsules/capsule-openai-compat/src/lib.rs:484-486 | for any fragments at all, ids that change included, each slot holds the latest id of its index, under which its events go out |
| ToolDemux.BodyTracks | capsules/capsule-openai-compat/src/lib.rs:450-513 | until a finishing chunk, slots, bus and react hold exactly what the fragments mean |
| ToolDemux.Demultiplexed | capsules/capsule-openai-compat/src/lib.rs:450-529 | for any interleaving of well-formed fragments finished by one chunk, a usage chunk or text after it included, each call has on the bus exactly what its fragments announce and one end: one start, its own deltas in order and one end when no name is repeated, and then react ends with every call complete and its arguments concatenated |
| ToolDemux.DemultiplexedIff | capsules/capsule-openai-compat/src/lib.rs:490-498 | each call has one start, and react ends with one pending call per index, exactly when no later fragment carries a name |
| ToolDemux.RepeatedNameBreaks | capsules/capsule-openai-compat/src/lib.rs:490-498 | a stream that repeats a name and leaves react with a second pending call of the same id, never complete |
| StreamPipeline.WireRuns | capsules/capsule-openai-compat/src/lib.rs:404-447 | the lines of a complete stream hand the decoded chunks over in order, then publish the end and succeed |
| StreamPipeline.PipelineDelivers | capsules/capsule-openai-compat/src/lib.rs:380-529 | however the network cuts a complete stream, its events are the decoded chunks' and the end, and react holds exactly the calls if and only if no name is repeated |
| EndToEnd.ChunksText | capsules/capsule-openai-compat/src/lib.rs:450-475 | the text events of a stream carry exactly the contents of its chunks |
| EndToEnd.UsageIsReported | capsules/capsule-openai-compat/src/lib.rs:455-465 | one usage event per chunk that reports usage |
| EndToEnd.ReplyArrives | capsules/capsule-react/src/lib.rs:974-1612 | however the network cuts a complete stream, the turn that asked for it ends up having requested exactly its calls, in order and with their own arguments, and waiting for them in a round that can complete, or having answered with the contents of all chunks |
| CliProxy.Reconciler.ReconcilePayload | capsules/capsule-cli/src/lib.rs:250-301 | one message updates the accumulator and the payload as the model says |
| CliProxy.AccumulatorBounded | capsules/capsule-cli/src/lib.rs:259-278 | the accumulator never exceeds 64 entries in any run, evictions included |
| CliProxy.RenderedOnce | capsules/capsule-cli/src/lib.rs:250-301 | without eviction, and where terminals extend what was streamed, the text forwarded for a session equals its replies concatenated plus what is pending |
| CliProxy.TerminalWholeIff | capsules/capsule-cli/src/lib.rs:283-300 | a streamed reply comes out whole exactly when the streamed text is a prefix of it, otherwise the terminal is empty |
| CliProxy.StreamedReplyAddsNothing | capsules/capsule-cli/src/lib.rs:288-299 | when the streamed text already ends with the whole reply the terminal adds nothing |
| CliProxy.SessionsIndependent | capsules/capsule-cli/src/lib.rs:250-301 | without eviction a session's text is what it would be alone |
| Terminal.ProxyHoldsStream | capsules/capsule-cli/src/lib.rs:259-300 | fed with any react log, without eviction, the proxy holds for each session exactly what was streamed since its last final response |
| Terminal.RoundsInOrder | capsules/capsule-react/src/lib.rs:974-1026 | that is what earlier rounds streamed followed by what the current request did |
| Terminal.AnswerAtTheTerminal | capsules/capsule-cli/src/lib.rs:281-300 | at every answer of every react run: nothing is added when none of it was refused, what is shown then ending with the whole answer; in any case the text since the last final response becomes the answer if it was a beginning of it and stays as it was otherwise |
| CliProxy.OnePrincipal | capsules/capsule-cli/src/lib.rs:544-623 | everything a connection publishes carries the one valid principal it is bound to, on allowed topics, and a binding never changes |
| CliProxy.BoundConnection | capsules/capsule-cli/src/lib.rs:535-623 | a bound connection publishes every accepted message on an allowed topic, once, in order, as its principal, and nothing else, and follows the session of its last chat prompt |
| CliProxy.FirstMessageBinds | capsules/capsule-cli/src/lib.rs:105-129 | an unbound connection ignores malformed claims and is bound by its first other message, to its claim or the default |
| CliProxy.AllowedTopicIff | capsules/capsule-cli/src/lib.rs:727-765 | the topics clients may publish on, admin responses excepted |
| CliProxy.PassThrough | capsules/capsule-cli/src/lib.rs:250-301 | only the text of a final response of a streamed session is changed, and a session's record changes only with its own messages |
| CliProxy.RemoveDead | capsules/capsule-cli/src/lib.rs:473-475 | removing increasing indices from the back leaves exactly the other clients in order |
| CliProxy.SortDedupIs | capsules/capsule-cli/src/lib.rs:502-503 | sorting and deduplicating lists each flagged index once, increasing |
| CliProxy.RemoveBroadcastDead | capsules/capsule-cli/src/lib.rs:501-507 | clients flagged several times are removed once, no other is lost or moved |
| HookTokens.TokensMatch | capsules/capsule-mcp/src/host_hooks.rs:324-333 | the accumulating comparison is equality of byte strings |
| HookTokens.KeysApart | capsules/capsule-mcp/src/host_hooks.rs:199-201 | admitted messages of different hosts or sessions never share a cell |
| HookTokens.AdmittedIff | capsules/capsule-mcp/src/host_hooks.rs:203-303 | what an admitted message is, field by field; the delivery id needs no check of its own |
| HookTokens.TokenStore.AuthenticateToken | capsules/capsule-mcp/src/host_hooks.rs:179-193 | whatever others write in between: accepted exactly when the token is the one found first, or none was and the event may register and either the own swap stored it or the same one was found after losing; alone, exactly when it is the stored token, or is registered |
| HookTokens.TokenStore.RelayResponse | capsules/capsule-mcp/src/host_hooks.rs:117-177 | published exactly when the stored token derives the route, and then, for a final event, the binding is deleted; otherwise nothing changes |
| HookTokens.RunKeepsInv | capsules/capsule-mcp/src/host_hooks.rs:62-193 | in every run each access is explained by an admitted message |
| HookTokens.AcceptedTokenWasStored | capsules/capsule-mcp/src/host_hooks.rs:179-193 | an accepted request's token was the stored one at an instant of its own call |
| HookTokens.UndisturbedRequest | capsules/capsule-mcp/src/host_hooks.rs:179-193 | in any run, a request nobody comes between is accepted exactly when its token is stored, or is registered |
| HookTokens.UndisturbedResponse | capsules/capsule-mcp/src/host_hooks.rs:146-175 | a final response nobody comes between ends the binding exactly when its token derives the route |
| HookTokens.DifferentTokensNeedRetirement | capsules/capsule-mcp/src/host_hooks.rs:117-193 | two accepted different tokens of one host and session have a retirement of it between those instants |
| HookTokens.OnlyRegistrationCreates | capsules/capsule-mcp/src/host_hooks.rs:182-197 | a binding appears only through an admitted registering request of that session, with its token |
| HookTokens.OnlyItsResponseRetires | capsules/capsule-mcp/src/host_hooks.rs:146-175 | a binding ends only through a final response that had recognised its own route's token, and ends that token unless another retirement intervened |
| HookTokens.RetiresNewerIff | capsules/capsule-mcp/src/host_hooks.rs:146-175 | a retirement ends another token than the one recognised exactly when another was registered since and not retired in between |
| HookTokens.RetirementCanTakeNewerToken | capsules/capsule-mcp/src/host_hooks.rs:146-175 | that exception is real: a run in which a newer token is retired |
| HookTokens.RouteNamesItsToken | capsules/capsule-mcp/src/host_hooks.rs:313-322 | a response carrying a request's route recognised that request's token, unless the hash maps these two tokens alike |
| Grep.Search.GrepContent | capsules/capsule-fs/src/grep.rs:12-21 | the matches become the old ones plus the file's, cut at 100 |
| Grep.Search.Walk | capsules/capsule-fs/src/lib.rs:281-325 | matches and files visited become those of visiting, one by one, the files that `Grep.FilesByPath` describes |
| Grep.FilesByPath | capsules/capsule-fs/src/lib.rs:281-325 | by position: a file is walked exactly when a path of at most 20 steps through listed directories leads to it, and files come in the order of their paths |
| Grep.FileHitsIff | capsules/capsule-fs/src/grep.rs:12-21 | a match of a file is exactly a line of it that contains the pattern, with its number and text |
| Grep.LinesAre | capsules/capsule-fs/src/grep.rs:13 | line `n` of a text is the stretch after its first `n` newlines, without a carriage return before its newline |
| Grep.LineCount | capsules/capsule-fs/src/grep.rs:13 | there are as many lines as newlines, and one more when the text does not end with one |
| Grep.ReadAll | capsules/capsule-fs/src/lib.rs:281-325 | no file is read after the hundredth match, and the walk stops only for a cap or the end |
| Grep.SearchMeaning | capsules/capsule-fs/src/lib.rs:281-325 | the result is the first 100 matches of the first 1000 files |
| Grep.GrepSearch | capsules/capsule-fs/src/lib.rs:159-175 | for every tree, unreadable files, unlistable directories and failed stats included: every match reports a line containing the pattern in one of the first 1000 files reached, and with fewer than 100 matches every such line is reported; an empty pattern is refused |
| Grep.SomeLineContainsIff | capsules/capsule-fs/src/grep.rs:12-21 | for a pattern without newline and not ending in a carriage return, a line matches exactly when the text contains it |
| Compaction.EstimateIsCappedSum | capsules/capsule-context-engine/src/strategy.rs:27-32 | the saturating total is the true sum capped at u64 |
| Compaction.EstimateIsQuarter | capsules/capsule-context-engine/src/strategy.rs:20-24 | one token for every four bytes begun |
| Compaction.MessageIdIs | capsules/capsule-context-engine/src/strategy.rs:35-39 | a message is pinned by its id when it has one, else by its message id, text only |
| Compaction.SummarizeAndTruncate | capsules/capsule-context-engine/src/strategy.rs:50-99 | the loops keep exactly the messages of the greedy cut |
| Compaction.TruncateIsShortest | capsules/capsule-context-engine/src/strategy.rs:73-91 | what stays meets the target or everything removable is gone, and no shorter oldest-first removal would do, when the true sum fits u64 |
| Compaction.TruncateKeeps | capsules/capsule-context-engine/src/strategy.rs:60-99 | order is kept, and so is every recent message, every message pinned by a field of its own, and everything after the cut, and nothing else before it |
| Compaction.GuestSumFits | capsules/capsule-context-engine/src/strategy.rs:20-32 | the running total is the true sum for every list a 32-bit guest can hold |
| Compaction.ReactTargetWithinMax | capsules/capsule-react/src/lib.rs:1995-1996 | the target is at most nine tenths of the budget, equal to it exactly when the product fits u64 |
| Compaction.BudgetHolds | capsules/capsule-react/src/lib.rs:1983-2045 | end to end what react sends on is within nine tenths of the budget or consists of recent and pinned messages when there is a budget, the reply arrives and nobody skips; in every other case it is the full history |
| Compaction.ReportIsExact | capsules/capsule-context-engine/src/lib.rs:413-417 | the reported count is the number of messages removed, and "compacted" says whether any were |
| Compaction.OneResponseIsEnough | capsules/capsule-context-engine/src/lib.rs:390-418 | one response that skips keeps the whole history, and a message any response pins stays |
| Compaction.MergeIgnoresOrder | capsules/capsule-context-engine/src/lib.rs:625-639 | merged responses do not depend on order or repetition |
| HookWindows.HookRecvTimeout | capsules/capsule-context-engine/src/lib.rs:200-219 | the wait never passes the outer cap, nor the first-response window before a response, nor the idle grace after; none exactly when a window is spent |
| HookWindows.WaitIsLongest | capsules/capsule-context-engine/src/lib.rs:200-219 | and no longer wait would stay in the windows |
| HookWindows.FanoutStopsIff | capsules/capsule-context-engine/src/lib.rs:536-556 | a fan-out stops exactly with less than a millisecond of its cap left, fifty responses, or none within the first window |
| HookWindows.BridgeWaitIs | capsules/capsule-hook-bridge/src/lib.rs:357-395 | the bridge waits for a first response until its deadline and at most 25 milliseconds for each further one |
| HookWindows.InlineWaitAgrees | capsules/capsule-prompt-builder/src/lib.rs:379-401 | the prompt builder's inline choice is the same on all inputs |
| HookWindows.FireBeforeCompaction | capsules/capsule-context-engine/src/lib.rs:536-569 | the loop is the modelled collection on every script of polls |
| HookWindows.FireBeforePromptBuild | capsules/capsule-prompt-builder/src/lib.rs:371-415 | this loop is the same collection |
| HookWindows.DispatchHook | capsules/capsule-hook-bridge/src/lib.rs:352-395 | the loop is the collection with a deadline and quiescence, failing on errors that are no timeouts |
| HookWindows.FanoutWithinCap | capsules/capsule-context-engine/src/lib.rs:536-569 | both fan-outs end within their outer cap whatever arrives |
| HookWindows.SilentFanoutEndsEarly | capsules/capsule-context-engine/src/lib.rs:536-569 | with no usable response they end within the first-response window however many messages arrive, exactly so on a millisecond clock |
| HookWindows.WindowCanStretch | capsules/capsule-context-engine/src/lib.rs:540-555 | on a finer clock they can overrun it by part of a millisecond |
| HookWindows.WindowHoldsIff | capsules/capsule-context-engine/src/lib.rs:536-569 | for every clock granularity: silence always ends within the window unless the outer cap is longer and the clock ticks inside the window but not at whole milliseconds |
| HookWindows.BridgeWithinDeadline | capsules/capsule-hook-bridge/src/lib.rs:357-395 | the bridge collectors end within their deadline likewise |
| HookWindows.CollectsInOrder | capsules/capsule-context-engine/src/lib.rs:557-567 | a collection returns every usable response of the polls it read, in order |
| HookWindows.CollectsUntilTheEnd | capsules/capsule-context-engine/src/lib.rs:536-569 | no collection gives up early: it stops only at the first poll that brings nothing, when no window is left, or when nothing is to come |
| HookWindows.PushContext | capsules/capsule-hook-bridge/src/lib.rs:523-537 | accepted exactly when the joined text still fits 64 KiB; the running total is the joined length |
| HookWindows.CollectAdditionalContext | capsules/capsule-hook-bridge/src/lib.rs:471-521 | the loop is the collection with greedy context keeping, joined at the end |
| HookWindows.ContextFits | capsules/capsule-hook-bridge/src/lib.rs:515-537 | the text handed back never exceeds 64 KiB |
| ModelIds.SplitOfJoin | capsules/capsule-registry/src/selection.rs:65-76 | a colon-free qualifier and any model, colons included, split back |
| ModelIds.DedupeKeepsFirsts | capsules/capsule-registry/src/lib.rs:226-232 | deduplication keeps the first entry of every key and loses no key |
| ModelIds.DedupeInOrder | capsules/capsule-registry/src/lib.rs:226-232 | and keeps the order |
| ModelIds.ExtractModelIds | capsules/capsule-openai-compat/src/lib.rs:216-229 | every non-blank id of the answer, once, and an error exactly when all are blank |
| ModelIds.DefaultComesFirst | capsules/capsule-openai-compat/src/lib.rs:246-272 | describing loses and adds nothing and puts an offered default first |
| ModelIds.RestInOrder | capsules/capsule-openai-compat/src/lib.rs:246-272 | the other ids keep their order |
| ModelIds.DedupeProviders | capsules/capsule-registry/src/lib.rs:226-232 | the loop computes that deduplication |
| ModelIds.RequestTopicQualifier | capsules/capsule-registry/src/selection.rs:183-189 | the topic's last part exactly when it is a non-empty name of letters, digits, hyphens and underscores |
| ModelIds.DiscoverIsCanonical | capsules/capsule-registry/src/lib.rs:250-278 | discovered ids are distinct and all carry a colon |
| ModelIds.DiscoveredIff | capsules/capsule-registry/src/lib.rs:250-278 | an id is discovered exactly when some provider offers it on a topic of its own, under that topic's qualifier |
| ModelIds.QualifiedPassIff | capsules/capsule-registry/src/selection.rs:144-165 | after the exact pass, the qualified pass matches exactly on a colon-free id `x` and the input `x:x` |
| ModelIds.ResolveMeaning | capsules/capsule-registry/src/selection.rs:119-170 | an input binds an entry exactly when it is its id, or no id and the entry is the only one with that bare model |
| ModelIds.UnknownIff | capsules/capsule-registry/src/selection.rs:119-170 | an input is unknown exactly when it is no id and no bare model |
| ModelIds.AmbiguousLists | capsules/capsule-registry/src/selection.rs:119-170 | an ambiguous input lists, in order, the ids of all entries with that bare model |
| ModelIds.CanonicalIdIsStable | capsules/capsule-registry/src/selection.rs:224-262 | a listed canonical id resolves to its own entry and survives reconciling |
| ModelIds.RegistryState.SetActiveModel | capsules/capsule-registry/src/lib.rs:449-474 | only a canonical id is stored, and only on success |
| ModelIds.RegistryState.Reconcile | capsules/capsule-registry/src/selection.rs:224-262 | kept, remapped to the provider's first entry, or cleared, as modelled |
| ModelIds.ReconciledListed | capsules/capsule-registry/src/selection.rs:224-262 | what reconciling leaves is listed |
| ModelIds.ReconciledIs | capsules/capsule-registry/src/selection.rs:224-262 | a listed id stays, an id that names a provider moves to that provider's first entry, any other goes |
| ModelIds.RegistryState.GetActiveModel | capsules/capsule-registry/src/lib.rs:340-372 | with any provider known the active id is listed and the reply is its entry; a listed id is kept |
| ModelIds.FullTrip | capsules/capsule-openai-compat/src/lib.rs:616-621 | each described upstream id, whatever other providers answer, is discovered, resolves to itself, is kept, and strips back to the upstream id |
| Decimal.GenerationTextIff | scripts/channel_publication.py:60-65 | the texts the name pattern accepts are exactly the printed valid generations |
| Base64.DecodeEncode | scripts/channel_transaction.py:49-61 | decoding an encoding gives the bytes back |
| Base64.EncodeDecodeIff | scripts/channel_transaction.py:53-61 | a decodable text is the encoding of its bytes exactly when padding leaves no bits over |
| Base64.EncodeLength | scripts/channel_transaction.py:49-50 | four characters for every three bytes begun |
| Base64.EncodingIsStandard | scripts/channel_transaction.py:49-50 | every three bytes, begun, become the four characters section 4 of RFC 4648 gives for their 24 bits |
| Base64.DecodableHasShape | scripts/channel_transaction.py:55 | the shape check refuses nothing that decodes |
| Base64.DecodableIff | scripts/channel_transaction.py:53-61 | exactly the texts of that shape whose length is a multiple of four decode |
| ChannelTransaction.FieldReadsBack | scripts/channel_transaction.py:53-61 | no check of a field refuses an encoding of allowed length |
| ChannelTransaction.DumpLength | scripts/channel_transaction.py:71-84 | the exact length of the transaction text |
| ChannelTransaction.TransactionText | scripts/channel_transaction.py:71-83 | the exact text of a transaction |
| ChannelTransaction.PackIff | scripts/channel_transaction.py:64-85 | packing succeeds exactly within the field limits, so the 16 MiB check never fails |
| ChannelTransaction.ReadUndoesWrite | scripts/channel_transaction.py:71-108 | a concrete reader gives back the five fields of every transaction text written |
| ChannelTransaction.ReaderExists | scripts/channel_transaction.py:71-108 | so a reader as assumed by the round trip exists |
| ChannelTransaction.UnpackPack | scripts/channel_transaction.py:64-120 | unpacking returns the exact bytes, and is refused for any other channel or generation |
| ChannelTransaction.UnpackedIsValid | scripts/channel_transaction.py:88-122 | success on any text means valid fields as asked and payloads within limits |
| ChannelTransaction.ValidUnpacks | scripts/channel_transaction.py:88-122 | and every text that reads as the six fields asked for, with payloads within limits, unpacks |
| ChannelPublication.TransactionNameIff | scripts/channel_publication.py:60-62 | a name reads as a transaction of a generation exactly when it is the one printed for it |
| ChannelPublication.HistoryNameIff | scripts/channel_publication.py:63-65 | likewise the two history names |
| ChannelPublication.NamesApart | scripts/channel_publication.py:60-75 | no name reads as both |
| ChannelPublication.NamesAre | scripts/channel_publication.py:60-85 | the three names of a generation |
| ChannelPublication.FlattenAssets | scripts/channel_publication.py:23-32 | one level of pages is flattened; anything but objects is refused |
| ChannelPublication.ElementsAre | scripts/channel_publication.py:23-32 | flattening keeps everything in order, items as themselves and pages as their elements |
| ChannelPublication.ScanOkIff | scripts/channel_publication.py:44-57 | the assets are accepted exactly when each is well formed and no two uploads share a name |
| ChannelPublication.TransactionFloorIs | scripts/channel_publication.py:66-76 | the floor is the greatest uploaded transaction generation, zero when there is none |
| ChannelPublication.HistoryFloorIs | scripts/channel_publication.py:71-77 | likewise for history |
| ChannelPublication.PublicationPlan | scripts/channel_publication.py:35-106 | the loops compute the modelled plan, first error first, lists sorted |
| ChannelPublication.PlanLists | scripts/channel_publication.py:95-106 | an accepted plan lists exactly the uploaded names, strictly increasing, and exactly the other assets' ids, in order |
| ChannelPublication.PlanFlags | scripts/channel_publication.py:76-106 | its floors and which of the requested names are uploaded |
| ChannelPublication.AcceptedIff | scripts/channel_publication.py:78-93 | accepted exactly when history is backed and no uploaded transaction is above the request, which is then strictly above all or the uploaded top one |
| ChannelPublication.PlanOkIff | scripts/channel_publication.py:35-93 | for any response: when a plan is made at all |
| ChannelPublication.PromoteKeepsInv | scripts/channel_publication.py:76-93 | uploading the transaction first keeps every history name backed, wherever the attempt is cut |
| ChannelPublication.FloorNeverDecreases | scripts/channel_publication.py:76-93 | over any run of attempts the floor never falls, history never overtakes it and uploaded names only grow |
| ChannelPublication.CompleteAttempt | scripts/channel_publication.py:76-93 | an attempt run to its end uploads all three names and puts both floors at its generation |
| ChannelPublication.RetryCompletes | scripts/channel_publication.py:78-93 | after an interruption anywhere the same generation is accepted again and completes |

## Left out

- JSON and TOML parsing: datatypes, or decoder functions passed in; texts and identifiers are sequences of UTF-8 code units, in session search of characters.
- UTF-8 decoding of network chunks: the code decodes each chunk lossily by itself, so chunk claims are about text cut at character boundaries.
- Event-block joining of section 9.2 of the WHATWG HTML standard: the code dispatches each data line by itself and takes no lone carriage return as a line end; the model follows the code.
- Unicode case folding and white space: lower-casing and trimming are modelled for ASCII.
- SessionSearch.Sessions.DoSearch: nobody else writes during one search; `HonestPager` states what is assumed of the host's paged key listing.
- `do_list` totals, previews, summaries and the session command line: they would only add easy members.
- `do_delete` checks and then deletes; nothing is claimed about which of two racing deletes reports success.
- Session calls: a host error during a compare-and-swap is taken to have had no effect.
- Sessions under different keys are independent, so the race model has one session's cell.
- React: store writes succeed, request ids are never reused (a counter stands for random ids), schema versions of the stored turn and corrupt turn state are not modelled, and handlers' error returns after the last state change are dropped. A clear to a session id already in use is excluded (`ReactModel.Enabled`).
- React: model, topic and context-window caches, message texts sent to the model, the parsing of tool arguments (the code sends an empty object when they are not JSON), and redriving of payloads that are not objects.
- Terminal.AnswerAtTheTerminal: messages reach the proxy in the order in which react published them, as its polling order is meant to ensure.
- CliProxy: framing, reconnects, `broadcast_poll_messages` with `should_deliver`, and link-level errors.
- CliProxy.RenderedOnce: stated without eviction; with it a stale session's terminal repeats text, as the code says.
- ToolDemux.Demultiplexed: for the OpenAI-compatible provider only; the native provider starts calls and sends their deltas under different ids. Of calls whose first fragment has no name or no fresh id, only `ToolStream.SlotsHoldLatest` speaks.
- HookTokens: payload size, turn and workspace fields, and the audit events of rejected messages; host errors during a swap as for sessions.
- Grep: path joining and output formatting; matches are records.
- Compaction: the reply topic carries no correlation id, so react could read a late reply to an earlier request; the model's reply, when there is one, answers the request made.
- HookWindows: which JSON counts as a usable response; permission filtering, response merging of the prompt builder and `apply_merge` of the hook bridge.
- ModelIds: rendering of lists and results, discovery timing, and the registry's persisted state. `save_state` reads its expectation at save time and so does not prevent lost updates; nothing is claimed about racing handlers there.
- ModelIds.FullTrip: a provider id that itself begins with the alias and a colon is stripped once, which undoes the stamp; ids that never passed the registry are not covered.
- ChannelTransaction: reading and writing files, and JSON parsing (`LoadsDumps` states that reading undoes writing). Python's decoder varies by version on malformed padding; the model refuses it.
- ChannelPublication: the upload order (transaction, history pointer, history bundle, any of it cut short) is the one of the promotion workflow `promote-channel.yml`, whose other steps are not part of this model: signatures, byte comparison of existing assets and the mutable current pair. Attempts are serialized, as the workflow's concurrency group makes them.
- Forge, identity, memory, agents, meta-harness, HTTP, router, shell deny-lists, the OpenAI model catalog and release validators: templates, literal tables or one-branch checks.
