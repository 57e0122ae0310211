# A verified model of clm's engine

clm runs a language-model agent: it keeps a conversation, sends it to a provider,
executes the tool calls of the answers, and records what came of it. This project
models the parts whose correctness hangs together and proves what they promise.
`dafny verify dfyconfig.toml` checks all of it.

One invariant runs through everything: an assistant message with tool calls is
followed directly by results whose ids are a permutation of its call ids
(`Messages.Paired`). Providers refuse a conversation that breaks it.

| files | what they model |
|---|---|
| `Utf8`, `Messages` | stored content, sizes, pairing |
| `Repair`, `Compaction`, `KeptTurns`, `Supersede`, `History` | the passes over the history: what each may do, and the list edited in place |
| `BatchSpec`, `Permission`, `Timeouts`, `ToolBatch`, `Detach` | one batch of tool calls as a state machine, why a call may run, what a timeout and a cancel do to it, and the engine's flags and counter that refine the machine |
| `Conversation`, `Transcript`, `Resume` | whole runs of prompts, replies, batches, folds and restores: pairing, what the history holds of what was said, and where turns and sessions begin and end |
| `Chain`, `Recovery` | server-side response chains and the re-sends after a refusal |
| `Stream`, `StreamTurn`, `AnthropicStream`, `ResponsesStream`, `ChatStream` | streamed replies, assembled in place, against the same reply taken whole |
| `McpSpec`, `McpRestart`, `McpClient` | the life of an MCP stdio client |
| `Wire`, `AnthropicWire`, `AnthropicContent`, `OpenAiWire`, `OpenAiContent` | the history in a provider's own shape: its pairing, and that nothing of its content is lost |
| `SessionSpec`, `SessionLog` | the session log and its image files at every crash point |
| `ProcBuffer`, `ProcHandles` | the output and the handles of a child process |
| `RateLimit` | the token bucket |
| `CutText`, `CutOutput` | cutting long tool output |
| `Base64` | canonical base64 |

Most parts come in two layers: a specification (functions and relations over values,
with the theorems as lemmas) and a class whose methods change fields, lists and
buffers the way the source does and are proved to do what the specification says.
Callbacks, timers, answers of users and hooks, the network and the file system are
events or nondeterministic outcomes. Allocation succeeds.

## What came out

The model follows the code where the code and its comments differ.

- A tool that times out without a way to be stopped still owes a report, and the
  comment at `libclm/tools.c:1214-1232` says it will be ignored. It reaches a batch
  that may be gone: `BatchSpec.AbandonedRun`. `BatchSpec.OutOfReachIff` and
  `BatchSpec.StoppableIsSafe` say exactly when nothing reaches an ended batch.
- A queued notice can be lost, against the comment at `libclm/agent.c:938-946`: the end
  of a turn calls the host before it submits the notice (`libclm/agent.c:950-971`), and
  a host that compacts or submits there, as `src/tui.c:701-707` does, makes the agent
  busy, so that submit is refused (`Transcript.NoticeLost`,
  `Transcript.QueuePostedIffHostRests`). Otherwise nothing said is lost
  (`Transcript.NothingSaidIsLost`).
- A detached batch may still use the agent that is gone exactly when code held it
  open at the detach (`Detach.TouchedIffHeld`): the dispatch loop does not look at the
  detached flag and goes on with its next call (`Detach.FreedWhileDispatching`), and
  the end of the last hold ends the batch through the agent.
- A positive return of compaction means a smaller history for exactly the summaries
  whose stored form is no longer than they are (`Compaction.ShrinksIffHonest`).
  Well-formed UTF-8 always is. A malformed summary can grow by two bytes for each
  bad byte.
- `keep_min_turns` never decides where compaction cuts (`History.Log.WalkBack`), and
  the step forward from a fitting cut at the first message is never taken
  (`Compaction.FittingCutIsLater`).
- A second supersede pass is idle exactly when the stub survives storage unaltered,
  or there was nothing to rewrite (`Supersede.SupersedeIdle`); one that does not
  survive never settles (`Supersede.StubNeverSettles`).
- On a history the running agent can reach, repair has nothing to do
  (`Conversation.PairedWhenNoBatch`). It matters for logs about to be restored
  (`Conversation.RestoredPaired`).
- A streamed call without argument fragments ends with empty arguments, where the
  whole reply has `{}`; with fragments that spell out the arguments the two agree
  (`Stream.SentCallsIff`, `Stream.NoFragments`).
- `clm_ratelimit_delay` tells a sufficient wait from every state exactly when the
  rate divides a million (`RateLimit.DelayExactIff`). Otherwise it rounds down.
- A record appended to a log that ends in a torn line becomes part of that line and
  is not loaded as a record of its own (`SessionSpec.AppendedAloneIff`). A rewrite
  puts an end to it. Image names are found in spite of torn lines
  (`SessionSpec.FoundIffNamed`).
- Tool output that begins with more blanks than its limit is not cut inside them;
  output of blanks alone is passed on whole, with the marker behind it
  (`CutOutput.Cut`). With a cap below 32, or from 516 to 527, the tail may have no
  room for one byte, and `fit_tail` then reads the byte behind its input
  (`CutOutput.LooksBehindIff`); a continuation byte there moves the cut
  (`CutOutput.BehindDecides`).
- The comment at the head of `libclmuv/mcp_client.c` says calls in flight are not
  failed when the client is freed early; the code fails them, and so does the model.

## Model

| member | source | states |
|---|---|---|
| Utf8.Utf8SeqExact | libclm/history.c:206-235 | the accepted length is n exactly when the first n bytes are one well-formed character of section 4 of RFC 3629 |
| Utf8.CountBad | libclm/history.c:238-270 | the counting pass finds exactly the bytes that belong to no well-formed sequence |
| Utf8.Utf8Repair | libclm/history.c:238-270 | the filling pass agrees with the counting one: the buffer holds len + 2 * bad bytes and a terminator, and they are the text with each bad byte replaced by U+FFFD; null exactly when nothing is bad |
| Utf8.RepairedLen | libclm/history.c:238-270 | a repaired text has length len + 2 * bad |
| Utf8.RepairedWellFormed | libclm/history.c:238-270 | whatever the input, the repaired text is well formed |
| Utf8.BadZeroIffWellFormed | libclm/history.c:238-270 | a text is left alone exactly when it was well formed |
| Utf8.BadByteReplaced | libclm/history.c:238-270 | behind well-formed text, which stays, a byte that opens no character becomes U+FFFD and repair goes on with the next byte |
| Utf8.CutBackOnBoundary | libclm/history.c:272-326 | in well-formed text the cut lands on a character boundary at most three bytes back, and both sides are well formed |
| Messages.StoreContent | libclm/history.c:272-326 | what is stored is the repaired text, cut to 64 KiB - 1 on a boundary, and compressed only when that succeeds and is smaller |
| Messages.KeptTextWellFormed | libclm/history.c:272-326 | kept text is a well-formed prefix of the repaired one; a cut keeps at least 65532 bytes; well-formed text that fits is kept as it is |
| Messages.StoredReadsBack | libclm/history.c:272-326 | what a reader sees is the kept text, compressed or not |
| Messages.ShorterIsStored | libclm/history.c:272-326 | of the two forms of a text the compressor takes, the shorter is stored |
| Messages.WhatItCosts | libclm/history.c:375-385 | one more call costs its name, its arguments and 48, one more byte of content costs one, and the empty message 32 |
| Repair.FillRunKeeps | libclm/history.c:815-895 | filling one run answers every call, keeps the other messages in order and loses or copies no result |
| Repair.FixedAnswered | libclm/history.c:815-895 | after repair of any history every call is answered inside the run directly after its head |
| Repair.FixedKeepsOrder | libclm/history.c:815-895 | the messages that are no results stay, in order |
| Repair.FixedConserves | libclm/history.c:815-895 | as a multiset, the results afterwards are those before plus the synthesised ones: moved, never lost or doubled |
| Repair.FixedSynth | libclm/history.c:815-895 | each synthesised result is made up for a call of some head: its id and name, and the text that says the result is missing |
| Repair.FixedIdleIffAnswered | libclm/history.c:815-895 | repair changes nothing and reports nothing exactly on a history whose calls are all answered |
| Repair.RepairIdempotent | libclm/history.c:815-895 | a second repair returns 0 and changes nothing |
| Repair.FillRunExact | libclm/history.c:815-895 | with distinct ids a run gains exactly the missing answers and no answer stays behind it |
| Repair.FixedPaired | libclm/history.c:815-895 | a history whose call and result ids are distinct, results after their calls, ends exactly paired, which is what compaction needs |
| History.Log.ResultPresent | libclm/history.c:783-797 | the scan of the run in place says whether a result for the id is in it |
| History.Log.ResultLater | libclm/history.c:800-813 | the scan finds the first later result for the id |
| History.Log.AnswerOne | libclm/history.c:815-895 | one call in place: its result is there, or moves up behind the run, or is synthesised, and the rest of the list is unchanged |
| History.Log.RepairDangling | libclm/history.c:815-895 | the list edited in place ends as Repair.Fixed says and the return value is moved plus synthesised |
| Compaction.BestCutUnique | libclm/history.c:433-520 | the longest suffix that starts at a cut point and fits, or the newest when none fits, is one cut only, so the outcome is determined |
| Compaction.WithinShape | libclm/history.c:391-520 | a fold keeps the system prologue and, verbatim, the suffix that starts at the best cut, with one summary message between |
| Compaction.KeepsTheMost | libclm/history.c:433-520 | what stays is the longest suffix from a cut point on that costs at most keep_bytes and at most half of what follows the prologue, or the newest when none does; one summary message tells the rest, which cost more than the summary |
| Compaction.FittingCutIsLater | libclm/history.c:490-502 | a cut that fits the limit is never the first message behind the prologue, so the step forward is never taken |
| Compaction.WithinKeepsPairing | libclm/history.c:433-520 | a paired history stays paired |
| Compaction.FoldedKeepsPairing | libclm/history.c:391-418 | folding a range that begins and ends at messages that are no results keeps pairing, and keeps every call answered |
| Compaction.WithinShrinks | libclm/history.c:433-520 | a positive return strictly lowers the total message bytes when the stored summary costs no more than its own length |
| Compaction.WellFormedIsHonest | libclm/history.c:272-326 | well-formed UTF-8 meets that condition with any compressor |
| Compaction.ShrinksIffHonest | libclm/history.c:433-520 | a positive return shrinks the history in every case exactly for summaries that meet the condition |
| Compaction.MalformedSummaryGrows | libclm/history.c:433-520 | one bad byte is stored as three: a summary for which a positive return can grow the history |
| Compaction.FoldingTerminates | libclm/history.c:433-520 | repeated folding with honest summaries stops within the size of the history |
| Compaction.RecentCutUnique | libclm/history.c:522-631 | the cut of clm_history_compact is determined |
| Compaction.RecentKeepsPairing | libclm/history.c:522-631 | clm_history_compact keeps a paired history paired |
| Compaction.RecentKeepsMission | libclm/history.c:522-631 | the exchange-head fallback keeps the prologue and the first user message |
| KeptTurns.KeepsTurns | libclm/history.c:522-631 | with keep_recent user messages behind the first message after the prologue, the history becomes the prologue, the summary, and the suffix that begins with a user message and has exactly keep_recent of them |
| KeptTurns.KeepsExchanges | libclm/history.c:522-631 | with too few of those but enough exchange heads, it becomes all up to the first user message, the summary, and the suffix with exactly keep_recent exchange heads, beginning with one |
| KeptTurns.KeepsAll | libclm/history.c:522-631 | with too few of either nothing changes |
| History.Log.FoldRange | libclm/history.c:391-418 | the removal loop and the insertion leave the folded history, with the count of messages removed |
| History.Log.WalkBack | libclm/history.c:433-520 | the backward walk ends at the best cut, or finds that there is none; keep_min_turns has no say |
| History.Log.CompactWithin | libclm/history.c:433-520 | the list edited in place and the return value are what Compaction.Within allows |
| History.Log.CompactRecent | libclm/history.c:522-631 | the list edited in place and the return value are what Compaction.Recent allows |
| History.Log.NthUser | libclm/history.c:522-631 | the walk back finds the n-th user message from the end, or how many there are |
| History.Log.NthHead | libclm/history.c:522-631 | the walk back finds the n-th exchange head from the end |
| Supersede.SupersedeKeeps | libclm/history.c:731-779 | superseding keeps pairing and the newest batch head |
| Supersede.SupersedeTouchesOnly | libclm/history.c:731-779 | everything from the newest head on, and every message that is no result of the tool, stays as it is |
| Supersede.StaleBecomesStub | libclm/history.c:731-779 | a stale result before the newest head holds the stub and no attachments, and still answers its call |
| Supersede.StubIsLeft | libclm/history.c:731-779 | a result that shows the stub already is left as it is |
| Supersede.SupersedeIdle | libclm/history.c:731-779 | a second pass rewrites nothing exactly when the stub survives storage, or there was nothing to rewrite |
| Supersede.StubNeverSettles | libclm/history.c:731-779 | the other side at an input: a stub that storage alters is rewritten again by every pass |
| Supersede.StubSurvives | libclm/history.c:731-779 | a well-formed stub without NUL that fits survives storage |
| History.Log.SupersedeTool | libclm/history.c:731-779 | the pass in place ends as Supersede.Superseded says and returns how many results it rewrote |
| BatchSpec.NextInv | libclm/tools.c:964-1079 | every event (timer, hook answer, permission answer, report, timeout, cancel, hold released) keeps the batch invariant |
| BatchSpec.EndsOnce | libclm/tools.c:1048-1079 | over every interleaving each call has one result exactly when it is done, and the batch has ended exactly once when all are done and no hold is left |
| Permission.RunsIffAllowed | libclm/tools.c:1283-1396 | over every run a tool is invoked at most once, and exactly when all hooks passed the call, it was brought to the gate, and there no prompt was needed, or an answer kept from an earlier call of the tool (or from before the run) allowed it and no hook asked, or the user allowed this very call |
| Permission.NeverRunsWhenDenied | libclm/tools.c:455-563 | a call denied by a hook or by the user is finished without an invocation; so is one that needs a prompt for a tool whose kept answer is a denial; where nobody can be asked no prompt is answered |
| BatchSpec.NoDeadlock | libclm/tools.c:1398-1521 | until the batch has ended something can always happen next |
| BatchSpec.QuietAfterEnd | libclm/tools.c:605-633 | after the end only a call whose timeout could not stop it can reach the batch, with its late report or its cancel callback, and that changes no result |
| BatchSpec.OutOfReachIff | libclm/tools.c:1214-1232 | an ended batch is out of reach exactly when no abandoned call still owes a report |
| BatchSpec.StoppableIsSafe | libclm/tools.c:1214-1232 | if every tool that can time out can be stopped, nothing reaches a batch after its end |
| BatchSpec.UnstoppableIsAbandoned | libclm/tools.c:1214-1232 | the other direction: a timeout that cannot stop its call leaves a report owed by a call that is already done |
| BatchSpec.WithdrawnIsAbandoned | libclm/tools.c:577-585 | withdrawing the cancel callback does it too: a timeout after that leaves a report owed |
| BatchSpec.AbandonedRun | libclm/tools.c:1214-1232 | the concrete run after which a late report reaches a batch that is gone |
| Timeouts.TimedOutCallIsAwaited | libclm/tools.c:1214-1232 | a tool that set a way to be stopped and kept it: whatever happens in between, its timeout writes no result and leaves it unfinished, and its report then writes its only one |
| Timeouts.SetCallIsStopped | libclm/tools.c:577-585 | once the callback is set, a cancel pass asks the tool to stop, whatever happens meanwhile |
| Timeouts.TimeoutStaysPossible | libclm/tools.c:1283-1307 | a call invoked with a timeout can time out at every moment until it has reported or did time out |
| Timeouts.InvokedIsArmed | libclm/tools.c:1283-1307 | a call is invoked only by dispatch, tokens, a hook or an answer, and then runs with its timeout as asked for |
| Timeouts.StartedCall | libclm/tools.c:1329-1343 | a call that starts is parked, fails as unknown, waits for its first hook, or has passed the gate: which of them, exactly |
| Timeouts.HookedCall | libclm/tools.c:455-507 | a verdict is kept; a denial finishes the call uninvoked, else the next hook is asked until the last has answered |
| Timeouts.CancelRetires | libclm/tools.c:1523-1578 | a cancel pass retires, with a result, exactly the calls that wait for tokens or a hook |
| ToolBatch.Batch.InvFinalize | libclm/tools.c:964-1079 | one result is written, the counter drops, and the batch ends exactly at zero |
| ToolBatch.Batch.RunInvoke | libclm/tools.c:1283-1307 | the timeout is armed and the batch held open around the tool |
| ToolBatch.Batch.PermissionGate | libclm/tools.c:1351-1375 | default deny: the call runs, asks or fails as the policy, the forced question and the remembered answers say |
| ToolBatch.Batch.GateRun | libclm/tools.c:1378-1396 | the next hook, or the permission gate after the last one |
| ToolBatch.Batch.DispatchOne | libclm/tools.c:1329-1343 | an unknown tool fails, a known one enters the hooks |
| ToolBatch.Batch.OnRlTimer | libclm/tools.c:1312-1327 | a parked call starts when its timer fires |
| ToolBatch.Batch.GateRespond | libclm/tools.c:455-507 | a hook verdict denies the call, forces the question or passes it on; the counter still equals open calls plus holds |
| ToolBatch.Batch.PermissionRespond | libclm/tools.c:530-563 | an answer counts once: a second one is refused and changes nothing |
| ToolBatch.Batch.SetCancel | libclm/tools.c:577-585 | a tool that has not reported becomes stoppable, or with NULL unstoppable again: flag and model say what was asked for, and nothing else changes |
| ToolBatch.Batch.Complete | libclm/tools.c:1092-1105 | the first report finalises the call, a later one is ignored |
| ToolBatch.Batch.OnTimeout | libclm/tools.c:1214-1232 | a stoppable tool is asked to stop and its report awaited, another is finalised at once |
| ToolBatch.Batch.LetGo | libclm/tools.c:1507-1521 | releasing a hold ends the batch exactly when nothing is open |
| ToolBatch.Batch.CancelNext | libclm/tools.c:1523-1578 | one turn of the cancel loop, flags and counter included |
| ToolBatch.Batch.DispatchAll | libclm/tools.c:1398-1521 | after a dispatch loop into which nothing calls back, parked calls wait for their timer and the others have started |
| ToolBatch.Batch.CancelAll | libclm/tools.c:1523-1578 | after a pass into which nothing calls back, calls that never started are retired, prompts keep waiting, and exactly the stoppable running tools were asked to stop |
| Detach.DetachedFreedOnce | libclm/tools.c:1580-1659 | a batch whose agent is gone is freed at most once, exactly when all calls are done and no hold is left, and nothing uses the agent if no hold was live |
| Detach.TouchedIffHeld | libclm/tools.c:1482-1521 | what comes after a detach (late reports, the remaining turns of the dispatch loop, the ends of holds) can use the agent, which is gone, exactly when a hold was live |
| Detach.FreedWhileDispatching | libclm/tools.c:1482-1521 | the shortest case: the first of two tools frees the agent while it is being run, and the dispatch loop goes on to the second call |
| Detach.DetachCalls | libclm/tools.c:1580-1659 | the loop drops what never started and the counter still equals open calls plus holds |
| Detach.DetachLeaves | libclm/tools.c:1580-1659 | what never started is dropped, what runs is awaited, and no timeout is left armed |
| Conversation.NextAdvances | libclm/tools.c:964-1079 | every batch event finishes at most the call it is about and keeps all ids |
| Conversation.WrittenRun | libclm/tools.c:1048-1064 | while a batch runs, the results behind its head are those of exactly the finished calls, superseding included |
| Conversation.RestoredPaired | libclm/agent.c:3184-3206 | what is restored from a saved log, repaired first and without its system messages, is paired, if the ids of the log are distinct and results come after their calls, or it was paired |
| Conversation.DoesSound | libclm/agent.c:850-1000 | every prompt, notice, reply, tool event, fold, compaction on request, clear and restore, and what the host does at the end of a turn, keeps the history sound |
| Conversation.PlayedSound | libclm/agent.c:850-1000 | so does every run of them |
| Conversation.PairedWhenNoBatch | libclm/agent.c:3448-3460 | in every reachable state with no batch running each call message is followed directly by results whose ids are a permutation of its call ids, so repair has nothing to do |
| Transcript.NothingSaidIsLost | libclm/agent.c:850-1000 | over any run that does not fold, clear or restore: the user messages added, followed by the queue, are what was submitted (context first) and notified, each once and in order, queued texts joined by a blank line, refused submits left out |
| Transcript.FlushPosts | libclm/agent.c:3448-3460 | a flush puts the whole queue into the history as one user message, and nothing waits then |
| Transcript.QueuePostedIffHostRests | libclm/agent.c:950-971 | the end of a turn leaves no queue; what waited there is the next message exactly when the host did nothing in its callback, or asked the same |
| Transcript.NoticeLost | libclm/agent.c:938-971 | the input on the other side: a host that compacts in its end-of-turn callback, and the notice is gone |
| Transcript.BusyRefuses | libclm/agent.c:850-866 | a submit while busy changes nothing; one without context while idle adds its message and starts a turn |
| Transcript.NoReplyIsLost | libclm/agent.c:1970-2051 | over the same runs the assistant messages are exactly the replies, in order, partial ones included |
| Transcript.ResultIsWritten | libclm/tools.c:1048-1064 | a tool event that finishes a call writes what the tool gave, under the id and name of the call; the rest keeps its place, or is superseded |
| Transcript.WrittenStays | libclm/tools.c:1048-1079 | and what else the event leads to is appended behind it |
| Resume.TurnEnds | libclm/agent.c:950-971 | a turn that ends leaves an idle agent with the reply in its history, unless something was queued or the host asked for more |
| Resume.BatchStarts | libclm/tools.c:1398-1441 | a reply with calls starts a batch of just these calls, ids and names, behind a head that holds them |
| Resume.BatchEnds | libclm/tools.c:1065-1079 | the last result ends the batch: the turn goes on with a model call, or ends |
| Resume.CompactionStarts | libclm/agent.c:1831-1865 | asking for a compaction makes an idle agent busy and changes nothing else |
| Resume.LogIsTakenOver | libclm/agent.c:3184-3206 | a log whose calls are answered is taken over message by message, each at its place among those that are no system messages |
| Resume.RestoreAdds | libclm/agent.c:3184-3206 | whatever repair had to do, the prompts and replies of the log come in order behind what is there, and no system message does |
| Resume.ClearThenRestore | libclm/agent.c:3135-3206 | a clear and a restore leave the new system prompt and behind it the messages of the log |
| Resume.StaleAreStubs | libclm/agent.c:3208-3236 | before the newest head, each result of a volatile tool is left as its stub, when the stub survives storage |
| Resume.RestKept | libclm/agent.c:3208-3236 | and everything else is as it was |
| Chain.SaidSkip | libclm/agent.c:3624-3700 | leaving out the sent prefix and the one reply after it leaves out nothing anyone else said |
| Chain.NotedStands | libclm/agent.c:1094-1109 | a noted response id stands on the server for exactly the messages sent; without an id the chain stands as before |
| Chain.Agent.StartTurn | libclm/agent.c:3608-3751 | a chained request carries the history from the first message behind the prefix and its reply, so server copy plus delta says what the full history says, and equals it when every reply was stored unaltered |
| Chain.Agent.Answered | libclm/agent.c:1970-2051 | after an answer the chain stands for all that was sent |
| Chain.Agent.FailedWillRetry | libclm/agent.c:2133-2210 | a failed response that left an id keeps the chain sound, though not exact; one that left none leaves the chain |
| Chain.Agent.Fold | libclm/agent.c:1600-1605 | a fold that removed something drops the chain before the next request |
| Chain.Agent.SupersedeTool | libclm/tools.c:1048-1055 | superseding drops the chain unless it rewrote nothing |
| Chain.Agent.Replace | libclm/agent.c:3135-3173 | clear, restore and provider switch drop the chain |
| Chain.Agent.PromptPartChanged | libclm/agent.c:317-371 | a changed prompt part is noted, nothing else changes; the chain is dropped by the next StartTurn |
| Chain.Agent.Recover | libclm/agent.c:2207-2259 | a lost chain is dropped with the history untouched, repair runs only with no chain, and what is sent again is the whole history |
| Recovery.RetryDelayBounds | libclm/agent.c:1154-1171 | every wait lies between 1000 and 60000 ms, is at least what the body asked for below the cap, and never shrinks with the attempt number |
| Recovery.FirstWait | libclm/agent.c:1154-1171 | the first wait is what the body asked for, but at least a second and at most a minute |
| Recovery.WaitDoubles | libclm/agent.c:1154-1171 | where the body asks for nothing each wait is twice the one before, up to a minute |
| Recovery.AskedCounts | libclm/agent.c:1154-1171 | what the body asks for counts as soon as it is longer than that, up to a minute |
| Recovery.ReactionFits | libclm/agent.c:2188-2259 | which status and body is tried with what, first come first served; with nothing left to try the turn fails |
| Recovery.ReactionChanges | libclm/agent.c:2188-2259 | each attempt changes one thing and starts the waits anew |
| Recovery.ReactionUsesUp | libclm/agent.c:2188-2259 | each re-send strictly lowers the lexicographic measure of chain, tools attached, unanswered calls, file-loss budget and retries |
| Recovery.ResendsBounded | libclm/agent.c:2188-2259 | so one model step is sent again at most 53 times in a row |
| Recovery.Requester.RlRetry | libclm/agent.c:1229-1251 | a rate limit is waited out at most as often as the budget says |
| Recovery.Requester.OnRefused | libclm/agent.c:2188-2259 | the recovery branches, in the order of the source, do what React says and resend exactly when it is no failure |
| Stream.MergeAllSlots | libclm/agent.c:2396-2438 | each call depends on its own deltas only |
| Stream.InterleavingIrrelevant | libclm/agent.c:2396-2438 | any interleaving across tool indices gives the same calls |
| Stream.FeedConcat | libclm/agent.c:2585-2602 | feeding two pieces is feeding their concatenation |
| Stream.ChoppingIrrelevant | libclm/agent.c:2585-2602 | any chopping of the bytes gives the same state |
| Stream.FeedLines | libclm/agent.c:2460-2583 | a stream of whole lines amounts to its events, in order |
| Stream.DataLineCarries | libclm/agent.c:2477-2490 | a data line carries its payload, whatever the spaces in front and with or without a carriage return |
| Stream.SilentLineCarriesNothing | libclm/agent.c:2477-2487 | an empty line, a line of another field and the end mark carry nothing |
| Stream.FeedPrinted | libclm/agent.c:2460-2602 | a stream of printed lines, chopped anyhow, amounts to the events of its payloads in order |
| Stream.CancelledReply | libclm/agent.c:2461-2477 | after a cancel inside the data the reply is what the data before it made it, however much follows |
| Stream.AssembledCalls | libclm/agent.c:2054-2096 | deltas that deliver the calls of a reply assemble to exactly those calls, index gaps skipped |
| Stream.SentCalls | libclm/agent.c:2054-2096 | calls announced once and sent in fragments come out with id, name and concatenated arguments, in any interleaving |
| Stream.SentCallsIff | libclm/agent.c:2054-2096 | announced calls come out as in the whole reply exactly when the fragments of each spell out its arguments |
| Stream.NoFragments | libclm/agent.c:2054-2096 | the input on the other side: a call sent without fragments has empty arguments where the whole reply has {} |
| Stream.LoneDelta | libclm/agent.c:2054-2096 | a delta without a name makes no call; a missing id is empty and missing arguments are {} |
| StreamTurn.Streaming.GetCall | libclm/agent.c:2380-2394 | the call array grows to hold the index and keeps what it had |
| StreamTurn.Streaming.MergeToolCalls | libclm/agent.c:2396-2438 | the deltas of a chunk are merged in place as Stream.MergeFrom says |
| StreamTurn.Streaming.StreamHandleLine | libclm/agent.c:2460-2583 | a line changes the turn buffers as Stream.HandleLine says, whose lines Stream.DataLineCarries and Stream.SilentLineCarriesNothing decide, and is dropped while the turn is being cancelled |
| StreamTurn.Streaming.OnData | libclm/agent.c:2585-2602 | bytes as they come change the buffers as Stream.Feed says, up to the line whose callback cancels the turn, if one does |
| StreamTurn.Streaming.BuildToolCalls | libclm/agent.c:2054-2096 | slots without a name are gaps, the others become calls in order |
| AnthropicStream.NormalizeResponse | libclm/provider_anthropic.c:820-970 | text, calls, finish reason and usage of a whole reply |
| AnthropicStream.StreamEqualsWhole | libclm/provider_anthropic.c:1064-1200 | for any splitting and interleaving, with the prompt counts before the output count, the assembled stream equals the whole reply normalised, usage included |
| AnthropicStream.BytesEqualWhole | libclm/provider_anthropic.c:1064-1200 | and so for any chopping of the bytes of lines that carry the payloads, with spaces, carriage returns and silent lines anywhere |
| AnthropicStream.UsageFromStart | libclm/provider_anthropic.c:783-803 | the usage of the turn is the prompt counts of the last message_start before the last output count, with that output count, whatever events stand around them |
| AnthropicStream.StopReasons | libclm/provider_anthropic.c:805-818 | the stop reasons by name; another one is passed on |
| AnthropicStream.UsageAddsUp | libclm/provider_anthropic.c:783-803 | the prompt counts cached tokens in, and the total adds the output |
| AnthropicStream.ErrorEndsTheTurn | libclm/agent.c:2446-2458 | a reported error is the finish reason of a turn that has none yet, and changes nothing else |
| ResponsesStream.NormalizeResponse | libclm/provider_responses.c:536-728 | text, calls, finish reason and usage of a whole reply |
| ResponsesStream.StreamEqualsWhole | libclm/provider_responses.c:817-958 | for any splitting and interleaving the assembled stream equals the whole reply normalised |
| ResponsesStream.CloseEvent | libclm/provider_responses.c:460-484 | the closing event sets finish reason and usage and leaves text and calls |
| ResponsesStream.FinishReasons | libclm/provider_responses.c:460-484 | calls decide first; else the status, an incomplete reply by its reason |
| ResponsesStream.UsageAddsUp | libclm/provider_responses.c:700-725 | the total adds output to input, and absent counts are 0 |
| ResponsesStream.ErrorEndsTheTurn | libclm/agent.c:2446-2458 | a reported error is the finish reason of a turn that has none yet, and changes nothing else |
| ResponsesStream.BytesEqualWhole | libclm/provider_responses.c:817-958 | and so for any chopping of the bytes of lines that carry the payloads, with spaces, carriage returns and silent lines anywhere |
| ChatStream.FoldText | libclm/agent.c:2552-2563 | the text of a chat completions stream is that of its chunks, in order |
| ChatStream.LastFinishCounts | libclm/agent.c:2534-2544 | the last finish reason counts, errors or not |
| ChatStream.ErrorIsTheReason | libclm/agent.c:2446-2458 | a stream that names no reason of its own ends in an error exactly when it reported one |
| ChatStream.LastUsageCounts | libclm/agent.c:2508-2514 | the last usage counts |
| ChatStream.StreamEqualsWhole | libclm/agent.c:2301-2371 | for any splitting and interleaving the assembled stream equals the whole reply |
| ChatStream.BytesEqualWhole | libclm/agent.c:2460-2602 | and so for any chopping of the bytes of the lines that carry it |
| McpSpec.NextInv | libclmuv/mcp_client.c:231-311 | every event keeps the invariant over handles, teardown goal, pending list and answers |
| McpSpec.FreedOnce | libclmuv/mcp_client.c:1371-1422 | over any run the client is freed at most once, and only with all three handles gone |
| McpSpec.ProcClosedAfterExit | libclmuv/mcp_client.c:981-1061 | a process handle is closed only after its exit callback or a failed spawn |
| McpSpec.NoSpawnOnceDiscarded | libclmuv/mcp_client.c:231-278 | a discarded client stays discarded and never spawns again, so free wins over a racing respawn |
| McpSpec.AnsweredOnce | libclmuv/mcp_client.c:1065-1149 | each call is waiting or answered, exactly once in all, whether by reply, cancel, death, failed send or free |
| McpSpec.ReplyFindsItsCall | libclmuv/mcp_client.c:837-934 | a reply completes the call that sent its id (section 5 of the JSON-RPC 2.0 specification) and no other |
| McpSpec.SpendThrifty | libclmuv/mcp_client.c:162-178 | the bucket, in exact reals, never grants more than its burst plus its refill |
| McpSpec.RestartsBounded | libclmuv/mcp_client.c:162-178 | over T seconds at most 3 + T/30 restarts are granted, and each respawn has its grant |
| McpRestart.RestartsWithAToken | libclmuv/mcp_client.c:231-278 | a working client that dies with at least one token after the refill, and is not freed, comes back with the last close callback: one process more, alive, the handshake pending, a token less |
| McpRestart.StaysDeadWithoutAToken | libclmuv/mcp_client.c:1249-1271 | with less than one token it stays dead: all handles gone and nothing spawned |
| McpRestart.ExitAndCloses | libclmuv/mcp_client.c:981-994 | such runs are there from every working client: the exit, then three close callbacks |
| McpRestart.FreeIsCarriedOut | libclmuv/mcp_client.c:1371-1422 | a working client that is freed ends with the last close callback, freed once |
| McpRestart.FreeBeatsRespawn | libclmuv/mcp_client.c:280-311 | a free while a respawn is due wins |
| McpRestart.DeathGoesDown | libclmuv/mcp_client.c:1249-1271 | a death answers the waiting calls as dead and takes the handles down, towards a respawn exactly with a token |
| McpRestart.HandshakeAnswered | libclmuv/mcp_client.c:901-916 | the reply to the handshake asks for the tools; a failed one ends it there |
| McpRestart.ListAnswerIsTold | libclmuv/mcp_client.c:917-926 | the answer to that is told to the caller: whether the tools are there |
| McpRestart.FailureIsTold | libclmuv/mcp_client.c:1249-1271 | so are a death, a refused handshake and a failed respawn, as failures |
| McpRestart.SilentOnceFreed | libclmuv/mcp_client.c:1385-1422 | a freed client never calls its caller again |
| McpRestart.CallIsSent | libclmuv/mcp_client.c:1121-1149 | a call on a working client waits under the next id, on any other it fails at once |
| McpRestart.ReplyIsAnswered | libclmuv/mcp_client.c:837-934 | a reply to a call is its answer, and the other entries stay |
| McpRestart.CancelIsAnswered | libclmuv/mcp_client.c:852-865 | a cancelled call is answered as cancelled, and the other entries stay |
| McpRestart.FailedOnlyCalls | libclmuv/mcp_client.c:1205-1215 | the answers a death or a free gives: one for each waiting call |
| McpClient.Client.BeginTeardown | libclmuv/mcp_client.c:288-311 | teardown starts once, the count is that of the open handles, and the goal is only raised |
| McpClient.Client.SpawnProcess | libclmuv/mcp_client.c:996-1061 | a spawn opens all three handles or leaves them closing |
| McpClient.Client.SendRequest | libclmuv/mcp_client.c:1065-1106 | the next id is used and the entry stays listed exactly when the write was accepted |
| McpClient.Client.OnHandleClosed | libclmuv/mcp_client.c:260-278 | the last close callback does what teardown was started for |
| McpClient.Client.SpendToken | libclmuv/mcp_client.c:162-178 | the bucket arithmetic in place |
| McpClient.Client.Die | libclmuv/mcp_client.c:1249-1271 | death fails all pending calls once and starts a teardown towards respawn or idling |
| McpClient.Client.Release | libclmuv/mcp_client.c:1385-1422 | free fails what is pending and raises the goal to Free, whatever is under way |
| McpClient.Client.OnExit | libclmuv/mcp_client.c:981-994 | the process handle is closed here and nowhere else |
| McpClient.Client.OnEof | libclmuv/mcp_client.c:936-979 | end of file kills the client as far as it is not dead yet |
| McpClient.Client.PendingTake | libclmuv/mcp_client.c:837-850 | the entry with the id leaves the list, if there is one |
| McpClient.Client.OnReply | libclmuv/mcp_client.c:867-934 | a line with an id completes the call it belongs to |
| McpClient.Client.OnCancel | libclmuv/mcp_client.c:852-865 | the entry of the call leaves the list and the call is answered |
| McpClient.Client.ToolInvoke | libclmuv/mcp_client.c:1121-1149 | a call is listed, or answered at once when it cannot be sent |
| AnthropicWire.ConvertMessages | libclm/provider_anthropic.c:305-461 | the array filled up in place is the conversion, and the system texts are joined apart |
| AnthropicWire.ConvertPaired | libclm/provider_anthropic.c:305-461 | a paired history becomes, exchange by exchange, the tool_use message and one carrier with its results in order and then the queued user text |
| AnthropicWire.GroupedIsPaired | libclm/provider_anthropic.c:305-461 | each tool_use message is followed directly by one user message that begins with exactly its tool_results, and results stand nowhere else |
| AnthropicWire.ConversionKeepsPairing | libclm/provider_anthropic.c:305-461 | both for what convert_messages builds |
| AnthropicContent.NothingIsLost | libclm/provider_anthropic.c:257-461 | for any history: read in order, the request holds the texts and images of its messages by role, the calls with id, name and arguments, and the results with id, text and images, each once |
| AnthropicContent.SystemPromptIsWhole | libclm/provider_anthropic.c:305-330 | the system prompt is all system texts, with a blank line between each two |
| OpenAiWire.Request.ToolNameFor | libclm/provider_openai.c:20-42 | the name of the nearest earlier call with the id |
| OpenAiWire.Request.SplitToolImages | libclm/provider_openai.c:48-106 | the message keeps its text as a string and its images leave for the carrier, labelled |
| OpenAiWire.Request.CarryToolImages | libclm/provider_openai.c:115-163 | the array with carriers inserted while it is walked is the run-by-run form |
| OpenAiWire.WalkIsCarried | libclm/provider_openai.c:115-163 | the walk with images kept aside equals the run-by-run form: each run whole, its images in one user message right behind it |
| OpenAiWire.ImagesConserved | libclm/provider_openai.c:48-163 | no image is lost, doubled or reordered |
| OpenAiContent.NothingIsLost | libclm/provider_openai.c:48-163 | for any history: each result is sent under its id with its text, everything else in order with text, images and calls, and what is added are carriers of moved images |
| OpenAiContent.FlatKeepsText | libclm/provider_openai.c:48-106 | a result flattened to a string keeps its text |
| OpenAiWire.CarryingTwice | libclm/provider_openai.c:115-163 | carrying a second time changes nothing |
| OpenAiWire.CarriedKeepsPairing | libclm/provider_openai.c:108-163 | pairing is kept: a carrier never comes between a head and its results |
| OpenAiWire.RequestKeepsPairing | libclm/provider_openai.c:108-163 | a paired history stays paired and keeps its images, no result keeps parts, and all results have string content exactly when none was stored with neither text nor images |
| OpenAiWire.LabelNamesTheCall | libclm/provider_openai.c:20-42 | an image is labelled with the name of a call of the head its message answers |
| SessionSpec.NamedIsFound | libclmsession/session.c:532-554 | the byte search misses no image name, even behind torn lines |
| SessionSpec.FoundIffNamed | libclmsession/session.c:532-554 | it finds exactly the names in the text |
| SessionSpec.NamesOfGrown | libclmsession/session.c:181-205 | a log followed by any part of a printed line names nothing new but the images of that line |
| SessionSpec.TornLineCostsNoOther | libclmsession/session.c:1192-1228 | a crash while a line is appended costs at most that line when loading |
| SessionSpec.AppendedAloneIff | libclmsession/session.c:181-205 | an appended record loads as a line of its own exactly when the log ended with a line break |
| SessionSpec.TornThenAppended | libclmsession/session.c:1115-1190 | the concrete case: a record appended behind a torn one becomes part of its line |
| SessionSpec.AppendSafe | libclmsession/session.c:747-780 | at every moment of an append each named image is in the blob directory |
| SessionSpec.RewriteSafe | libclmsession/session.c:840-954 | after the rename too, and the log is the complete new one |
| SessionSpec.RewrittenLines | libclmsession/session.c:840-954 | loaded after a rewrite: the first line of the old log, then exactly the records, a line each |
| SessionSpec.HeadLine | libclmsession/session.c:821-838 | that first line is the old one, with a line break behind it if it had none |
| SessionSpec.BackupStays | libclmsession/session.c:917-954 | the rename takes the log away from under a linked backup, which goes on holding the old log |
| SessionSpec.ClearSafe | libclmsession/session.c:574-603 | at every moment of the clean-up too |
| SessionSpec.MomentSafe | libclmsession/session.c:747-954 | at every crash point the log name holds the old log, at most with a part of one line more, or the complete new one |
| SessionSpec.NamedFileLives | libclmsession/session.c:574-603 | an image file a log still names is neither removed nor changed by any step |
| SessionSpec.RunSafe | libclmsession/session.c:312-954 | over any run of operations, each finished or cut short anywhere, no log or backup names a missing image and the log is there |
| SessionSpec.RunKeepsFile | libclmsession/session.c:574-603 | over any run an image file lives on as long as some log names it |
| SessionSpec.WroteStored | libclmsession/session.c:447-489 | a record that is written has its images in the directory, each under the full name the loader opens |
| SessionSpec.RunKeepsRecord | libclmsession/session.c:312-954 | over any run the image files of a record written in it stay, under those full names and with the same bytes, as long as some log names their hashes |
| SessionLog.BlobRefsFrom | libclmsession/session.c:532-554 | the search loop returns what Found says |
| SessionLog.RefsHave | libclmsession/session.c:556-567 | whether the first 64 bytes of a name are a reference |
| SessionLog.Session.BlobWrite | libclmsession/session.c:408-441 | under the final name only ever the whole image: every state on the way adds nothing else, and where no call fails it is there |
| SessionLog.Session.StoreAttachments | libclmsession/session.c:448-489 | all images are stored on success, and no other file changed at any moment; where no call fails it succeeds |
| SessionLog.Session.Append | libclmsession/session.c:747-780 | every moment is one of the append, and no byte of the line is written before its images are stored; where no call fails the whole line is there |
| SessionLog.Session.Rewrite | libclmsession/session.c:840-954 | every moment is one before the rename or one after it; on failure the log is the old one; where no call fails the new log is in place, the backup holds the old one and only named image files are left |
| SessionLog.Session.BlobGc | libclmsession/session.c:574-603 | every moment only spared files stay untouched and, if no unlink fails, only they are left |
| SessionLog.Session.ReadMetaLine | libclmsession/session.c:821-838 | the first line of the log |
| SessionLog.Session.Open | libclmsession/session.c:312-345 | opening changes nothing but files no log names, and where no call fails removes them all |
| ProcBuffer.Output.Grow | libclmproc/proc.c:57-75 | room for need bytes and the terminator, never more than max + 1, contents kept |
| ProcBuffer.Output.KeepHead | libclmproc/proc.c:77-94 | as many bytes are appended as fit max, the others counted |
| ProcBuffer.Output.KeepEnds | libclmproc/proc.c:98-135 | whatever the chunk, the buffer is the window of the stream: its first head bytes and its newest max - head |
| ProcBuffer.ReadAll | libclmproc/proc.c:292-311 | for any chunking the buffer ends as the stream alone decides, and kept plus dropped is its length |
| ProcBuffer.WindowShift | libclmproc/proc.c:115-135 | evicting as many bytes as needed behind the head gives the window of the longer stream |
| ProcBuffer.WindowFlood | libclmproc/proc.c:110-114 | data longer than the tail leaves the head and the newest of the data |
| ProcBuffer.KeptBytes | libclmproc/proc.c:77-135 | byte by byte: with the head kept the first bytes of the stream, with both ends its first head bytes and its newest |
| ProcHandles.NextInv | libclmproc/proc.c:158-320 | every callback and host call keeps counts, alarm and handles consistent |
| ProcHandles.EndsOnce | libclmproc/proc.c:137-172 | the end is reported once, exactly when every handle is closed, and nothing happens after it |
| ProcHandles.NeverBack | libclmproc/proc.c:174-188 | a handle goes from live to closing to closed and never back |
| ProcHandles.TimerNeverAlone | libclmproc/proc.c:158-172 | while nothing is closing, the process, a pipe or the input is still awaited: never the timer alone |
| ProcHandles.KillLeavesTheExit | libclmproc/proc.c:211-219 | once the kill timer has fired only the exit itself is left to wait for |
| ProcHandles.CancelArmsKill | libclmproc/proc.c:221-250 | a cancel, a stopped output and a run past its limit mark the child cancelled and arm the kill |
| ProcHandles.DoomedUntilKilled | libclmproc/proc.c:158-320 | over any run the kill then stays armed until it fires, or until nothing but the timer is left |
| ProcHandles.ExitGivesGrace | libclmproc/proc.c:267-282 | an exit with pipes still open arms the kill for the time of grace, if there is one and no cancel came before |
| ProcHandles.SignalsSent | libclmproc/proc.c:198-258 | a signal is sent only while the process or a pipe is there: SIGKILL by a kill, SIGTERM by what first cancels, nothing by anything else |
| ProcHandles.Child.OnClosed | libclmproc/proc.c:158-172 | the count drops, the end is reported at zero, and a last timer is closed |
| ProcHandles.Child.OnExited | libclmproc/proc.c:267-282 | the process handle closes; a grace timer is armed only for open pipes of an uncancelled child |
| ProcHandles.Child.OnTimer | libclmproc/proc.c:211-228 | the limit cancels, the kill signals and closes pipes and timer |
| ProcHandles.Child.Stop | libclmproc/proc.c:241-250 | the group is signalled while the pipes are open, then output is stopped and the child cancelled |
| ProcHandles.Child.KillAtOnce | libclmproc/proc.c:252-258 | the group is killed and the pipes close, without waiting |
| RateLimit.RefillCredit | libclm/ratelimit.c:24-61 | a refill never loses credit below a full bucket and gains less than one microsecond of it |
| RateLimit.RefillTokens | libclm/ratelimit.c:24-61 | the tokens after a refill are the whole tokens of the credit, capped at the burst |
| RateLimit.PollingIsFree | libclm/ratelimit.c:44-61 | no schedule of polls costs a token; when the rate divides 10^6 it gains none either |
| RateLimit.CallTakes | libclm/ratelimit.c:84-129 | a request is granted whole or not at all, exactly when that many tokens of credit are there within the burst; a consume takes what there is, a question nothing |
| RateLimit.GrantsBounded | libclm/ratelimit.c:84-97 | over T microseconds and k crediting refills at most burst + rate * (T + k) / 10^6 tokens are granted, without the k when the rate divides 10^6 |
| RateLimit.WaitIsEnough | libclm/ratelimit.c:99-115 | when the rate divides 10^6, waiting what clm_ratelimit_delay says and asking again succeeds |
| RateLimit.WaitIsNeeded | libclm/ratelimit.c:99-115 | and it is the least that suffices, counted from the time the tokens account for, which lies less than one token back |
| RateLimit.WaitTooShort | libclm/ratelimit.c:99-115 | otherwise an empty bucket tells too short a wait |
| RateLimit.DelayExactIff | libclm/ratelimit.c:99-115 | the wait told suffices from every state exactly when the rate divides 10^6 |
| RateLimit.Limiter.Refill | libclm/ratelimit.c:24-61 | in 64-bit arithmetic: tokens never exceed the burst whatever wraps, and with burst * 10^6 + rate below 2^64 the result is the exact one |
| RateLimit.Limiter.Allow | libclm/ratelimit.c:84-97 | grants exactly when the refilled bucket has n tokens |
| RateLimit.Limiter.DelayFor | libclm/ratelimit.c:99-115 | the wait for a request within the burst, without overflow |
| RateLimit.Limiter.Consume | libclm/ratelimit.c:117-129 | takes n tokens, or all there are |
| RateLimit.Limiter.SetRate | libclm/ratelimit.c:141-148 | settles at the old rate first |
| RateLimit.Limiter.SetBurst | libclm/ratelimit.c:150-158 | keeps tokens within the new burst |
| CutOutput.FindBinaryOffset | libclm/tools.c:648-681 | the scan returns the offset as defined |
| CutText.TextIffNoOffset | libclm/tools.c:648-681 | the whole buffer passes exactly when it is text in the sense of the check |
| CutText.NoTextBehindOffset | libclm/tools.c:648-681 | no longer head of the buffer is text |
| CutText.CostConcat | libclm/tools.c:710-738 | costs add up where a space separates |
| CutText.HeadCost | libclm/tools.c:720-738 | a head costs no more than the whole |
| CutText.ByteCosts | libclm/tools.c:684-708 | what a byte costs: digits twelve, by the length of its word and its class otherwise |
| CutText.PlainWordCosts | libclm/tools.c:710-718 | a word of letters costs three and the sum of its bytes |
| CutOutput.EstTokens | libclm/tools.c:720-738 | the estimate is the cost of the words in twelfths, rounded up |
| CutOutput.Utf8Floor | libclm/tools.c:741-747 | backs up to the first byte of a character |
| CutOutput.FitHead | libclm/tools.c:754-790 | no longer run of whole words fits; it is trimmed to the last line break of its second half, or one word is cut where its budget ends; cost within budget, length within the larger of the limit and the leading blanks, on a character boundary |
| CutOutput.FitTail | libclm/tools.c:794-833 | the mirror: longest tail, trimmed to the first line break of its first half, a cut word begins with a whole character; the byte behind the input is read exactly when the last word reaches the end and not even its last byte has room, and a continuation byte there makes the last character the tail |
| CutOutput.LooksBehindIff | libclm/tools.c:794-893 | some output makes fit_tail read the byte behind its input exactly with a cap below 32 or from 516 to 527 (one zero more than the cap does), and with any other cap none does |
| CutOutput.DigitOutputLooks | libclm/tools.c:794-893 | with such a cap every output that is cut, begins with a word and ends in a digit does, wherever its head ends |
| CutOutput.BehindDecides | libclm/tools.c:818-820 | a tail with room for no byte is empty exactly when the byte behind is no continuation byte |
| CutOutput.TailTakesAByteIff | libclm/tools.c:880-893 | the caps for which the tail budget always has room for one byte |
| CutOutput.LinesLeftOut | libclm/tools.c:896-903 | the line range of the marker is exactly the lines of the bytes left out |
| CutOutput.MarkerCounts | libclm/tools.c:896-914 | the marker counts as many lines as the output has, and starts on a line of its own |
| CutOutput.Cut | libclm/tools.c:855-930 | for every cap: output that fits is passed on whole; other output becomes head, marker and tail as fit_head and fit_tail choose them, both cuts between characters and within their budgets, or, where the byte behind the output was read and is a continuation byte, with its last character as tail |
| CutOutput.HeadKeepsHalf | libclm/tools.c:754-790 | of the whole words at the start that fit the head more than half of the bytes are kept |
| CutOutput.TailKeepsHalf | libclm/tools.c:794-833 | of the whole words at the end that fit the tail at least half of the bytes are kept |
| CutOutput.CutKeepsToCap | libclm/tools.c:855-930 | with no long blanks at the ends the result keeps to its cap but for the rest of one character |
| Base64.DecodeEncode | libclm/image.c:66-98 | decode(encode(x)) = x |
| Base64.EncodeDecode | libclm/image.c:66-98 | an accepted text is the encoding of what it decodes to (section 3.5 of RFC 4648) |
| Base64.AcceptedIffEncoding | libclm/image.c:66-98 | the accepted texts are exactly the encodings |
| Base64.EncodesSixBits | libclm/image.c:21-49 | section 4 of RFC 4648: each character stands for its six bits of the byte stream, and only what carries no bit is padding |
| Base64.LengthAgrees | libclm/image.c:15-19 | the length is that of clm_base64_len |
| Base64.EncodeInto | libclm/image.c:21-49 | the buffer holds the encoding and its terminator |
| Base64.DecodeInto | libclm/image.c:66-98 | the buffer, of n / 4 * 3 bytes, holds the decoding, or the text is refused |

## Left out

- AnthropicStream.StreamEqualsWhole: assumes that the argument fragments of each call concatenate to its argument text; `Stream.SentCallsIff` says that otherwise the calls differ, and `Stream.NoFragments` gives the input.
- ResponsesStream.StreamEqualsWhole: the same assumption; response ids, which only a chain uses, are not compared.
- SessionSpec.FoundIffNamed: assumes lines as the JSON printer leaves them (quotes escaped, the image list behind role, type and media type), stated as `SessionSpec.LineOk`.
- SessionLog.Session.BlobGc: making and removing the blob directory itself is not modelled.
- SessionLog.Session.Append: prompt records and model records are plain lines without images; the hash that suppresses a repeated prompt record and the flag for an empty session are not modelled.
- Detach.DetachedFreedOnce: assumes, as the comment at `libclm/tools.c:1638-1642` says, that a running tool completes after its cancel callback has returned.
- Detach.TouchedIffHeld: events are atomic, so it speaks of an agent freed between them or by a tool's own code. An agent freed from a callback in the middle of `inv_finalize` or `dispatch_one` (`cb_on_tool_result`, `cb_on_tool_begin`) is not a state of the model.
- Conversation.PairedWhenNoBatch: a saved log in which ids repeat is no `Restore` of the model, unless it is paired already; `Repair.FixedAnswered` says what repair does for any log. So too for `Conversation.DoesSound` and `Conversation.PlayedSound`.
- Conversation.DoesSound: see `Conversation.PairedWhenNoBatch` for logs in which ids repeat.
- Conversation.PlayedSound: likewise.
- Transcript.NothingSaidIsLost: over runs without a fold, a clear or a restore, which are there to take messages away or bring others in, and in which no turn ends as in `Transcript.NoticeLost`; the host does at most one thing in its end-of-turn callback.
- Transcript.NoReplyIsLost: over the same kind of runs.
- AnthropicContent.NothingIsLost: of a call message with attachments, which the engine never makes, the calls count.
- SessionSpec.RunSafe: presence of an image is by its hash, which is what the byte search for names yields; `SessionSpec.RunKeepsRecord` states it by full file name for the records written in a run.
- ToolBatch.Batch.DispatchAll: a tool or callback that calls back into the batch while the loop runs is an event of `BatchSpec` between two turns (`ToolBatch.Batch.DispatchOne`), not part of this method.
- ToolBatch.Batch.CancelAll: likewise, with `ToolBatch.Batch.CancelNext` as one turn.
- BatchSpec.NextInv: a tool removed from the registry while its calls run, and the pin that keeps it alive, are not modelled; the known tools are fixed during a batch.
- Chain.Agent.StartTurn: the rewriting of the system message by prompt parts is one event that drops the chain, without its text.
- OpenAiWire.Request.CarryToolImages: names and ids in image labels are taken as ASCII text.
- AnthropicWire.ConvertMessages: tool arguments stay the text they are, where the code parses them to an object; cache breakpoints and uploaded file ids are not modelled.
- McpClient.Client.SendRequest: only the stdio transport; calls over HTTP with their own contexts are not modelled.
- McpRestart.ListAnswerIsTold: registering the tools and taking them back is not modelled, only whether the caller is told.
- McpSpec.SpendThrifty: the restart budget is exact reals, where the source computes with doubles; so too in `McpSpec.RestartsBounded` and `McpClient.Client.SpendToken`.
- McpSpec.RestartsBounded: bounds the grants of that exact budget.
- McpClient.Client.SpendToken: exact reals for doubles.
- ProcHandles.NextInv: exit status reporting is not modelled; which signals are sent is (`ProcHandles.SignalsSent`), what the group does with them is not.
- Message compression is an arbitrary function that may fail; decompression is taken to invert it on the wire.
- JSON parsing and printing, fnmatch, dates and user-facing strings are abstract.
- Building requests apart from their messages: tool schemas, cache control, headers, effort, response schemas.
- The Responses API's own message conversion, model lists, properties and health probes.
- Asking the model for a summary, with its own retries; only what a fold does with one.
- The choice of a file name for spooled output, session listing, session ids, and deletion of old sessions.
- What survives a crash beyond atomic rename, link and unlink and ordered writes.
- Built-in file tools, peer sockets, shell and monitor wrappers, the Lua bindings, the frontend, image header sniffing, SHA-256 and text cleaning.
- Failing allocations and missing call ids.
