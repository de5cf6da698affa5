# Verified model of the UMTS QoS module, the NetDial script engine and MockSY

This project models three components of the Symbian telephony stack in Dafny and
proves what they promise. `dafny verify dfyconfig.toml` checks all of it.

## GUQoS, the UMTS QoS module

One `CNif` object per network interface owns PDP contexts, the data flows attached to
them, a queue of requests of which one is served at a time, and a map of the evaluation
precedences in use. Requests are table-driven state machines (Open, Negotiate, Join,
Leave, Close, Delete). A step asks the network interface for something with a `Control`
call, which is refused at once or answered by a later event. Completing a request may
delete a context, whose destructor cancels other queued requests while the queue is
being walked; flows move between contexts and are told whether they are blocked.

`GuqosState` has the state, the action tables and the invariant `Ok`. `GuqosHeap`,
`GuqosRequests`, `GuqosLoops` and `GuqosEvents` define each operation on the whole
state, up to `GuqosEvents.Step`, one event of any of 23 kinds; the lemmas beside them carry
`Ok` through. `GuqosRuns` proves that every event keeps it, and `GuqosTheorems` states
what follows for all runs and for the destructor. `GuqosIdentity` says over runs exactly
when identities of filters are lost, `GuqosExhaustion` how the map of evaluation
precedences runs full, and `GuqosSetup` plays a whole run that starts at the
construction and fills it. `GuqosStory` is the grammar of what a request and the network
say to each other, recorded in the history of each request, and `GuqosCodes` proves that
it explains every code that a client is told; `GuqosReplies`, `GuqosBlocking`,
`GuqosRemoval`, `GuqosCalls` and `GuqosOutcomes` say by calls and upcalls what replies,
blocking events, filter removals, calls and whole requests come to. `GuqosNif` is the object itself:
fields, queue walks with restart, filter masks and the precedence array, each method
proved to compute its function. `PacketFilters` and `TftInfo` hold the filter arithmetic
and the eight-slot table of `TTFTInfo`. The network interface answers a `Control` call
by any function of all calls so far, and events come in any order, so every network
behaviour is covered. Upcalls are recorded in a trace and are taken not to call back.
The calls of flows and channels follow their bodies in
telephonyprotocols/gprsumtsqosprt/src/guqos.cpp; that file is not UTF-8 text, so the
table cites the declarations in guqos.h and names the lines of the bodies.

Identifiers and precedences of packet filters follow section 10.5.6.12 of
3GPP TS 24.008 and section 15.3 of 3GPP TS 23.060.

## The NetDial script engine

A small interpreter for login scripts: a line reader, expressions over strings,
character codes and variables, SET, SEND, WAIT, LOOP, GOTO, EXIT, DTR, READ and CHARMAP,
a forward search for labels in skip mode, and WAIT strings matched against a ring buffer
of received characters. `ScriptText`, `ScriptReader`, `ScriptStores` and
`ScriptExpressions` are its parts, `ScriptMachine` is one round of the interpreter loop
and the completions of the serial port, and `ScriptExecutor` is the object with its
parsing loops, proved against it. `ScriptSteps`, `ScriptRuns`, `ScriptLines`,
`ScriptWaits`, `ScriptProgress`, `ScriptLoops`, `ScriptPlays`, `ScriptPort`,
`ScriptRetries`, `ScriptJumps` and `ScriptLabels` prove what holds over runs, and
`ScriptCommands`, `ScriptWords`, `ScriptNumbers` and `ScriptWaiting` what each command
means as it is written. `ScriptLayout` is what a layout of the text ensures, `ScriptRest`
when the interpreter comes to rest, `ScriptLogin` a login script of the repository for
which it does, and `ScriptExamples` has two scripts that the theorems exclude, with
their runs. `Chat` is
`CCommChatter` and the scan of received characters.

## MockSY

`MockSy` is the expectation engine: expected commands and the completions to send wait
in one queue, completions that have been released count down in a delta queue.
`MockSyAnswers` says what each command is answered.

## Where the code surprises

The model follows the code where a reader of its comments would expect something else.

- The destructor of a context cancels only the requests that name it as the field of
  their own kind (`Targets`); a request that merely acts on the context while it is
  served must clear its field first, or it would be cancelled while it is running.
- A filter that the network refuses leaves its precedence marked until the next report.
  When all 256 are marked, `CPdpContext::AddPacketFilter` does not look at the error and
  sends a filter without a precedence (`GuqosSteps.AddingNeedsRoom`,
  `GuqosExhaustion.RefusedJoinsExhaustMap`). There is a run with an honest network that
  comes to this (`GuqosSetup.IdentitiesCanBeLost`), and identities stay unique exactly as
  long as no accepted filter meets a full map (`GuqosIdentity.IdentitiesUniqueExactly`).
  `Load` counts what is marked, in flight or
  may still be asked for by the queue; calls made while it is below 256 are safe
  (`GuqosTheorems.FilterIdentityIsUnique`), and a report makes room again
  (`GuqosTheorems.ReportLeavesRoom`).
- A reply of the expected kind is taken from whichever context sends it, and the request
  goes on with that context.
- A WAIT string longer than the 64 characters of the ring buffer is matched
  periodically and can be found although it was never received (`Chat.FalseMatch`); the
  comparison is exact for strings that fit (`Chat.ShortStringsMatchExactly`). The match
  loops read one character before the string; the model tests the bound first.
- `CScriptReader::Reset` reads the first line twice, so line counts start at two.
- A jump restores the position but not the text of the current line. A LOOP body is
  entered as often as its number says exactly when the closing brace stands further left
  than the place behind the opening one; otherwise the brace uses up the count by itself,
  and the body is met once more behind the loop (`ScriptLoops.BodyRunsItsCount`,
  `ScriptLoops.FarLoopRepeatsBodyOnce`). A GOTO back passes over what stands on the label's
  own line (`ScriptJumps.JumpLandsBehindLabelLine`). A label that stands behind a GOTO
  back on the same line is recorded on the line jumped to, and rejected as a second
  definition when it is met on its own (`ScriptExamples.StrayLabelIsRejected`); where
  every GOTO ends its line and closing braces stand alone and left, this does not happen
  (`ScriptLayout.LabelsKeepTheirPlacesByLayout`).
- In skip mode CHARMAP leaves its brackets standing, which the next round rejects
  (`ScriptJumps.CharmapIllegalInSkipMode`). Inside a WAIT, an item that starts with a
  character that starts no term is never passed there, so that a script without labels
  need not come to an end (`ScriptWaits.RoundReturns`, `ScriptRest.RestsExactly`,
  `ScriptExamples.SkippedWaitNeverReturns`).
- A completion of MockSY with delay zero is delivered by the next callback, which counts
  no other completion down: it holds all the others up by one callback
  (`MockSy.CompletionsAreOnTime`, `MockSy.HeldByZeroDelay`).
- `DTR DROP` raises the line and `DTR RAISE` drops it: the two words are swapped in
  SCOMMAND.CPP at lines 41 and 42. READ looks for its character set at its own word and
  never finds one (`ScriptCommands.ReadTakesNoCharset`). SET without an equals sign at the end of its line reads past the line.
- The range check of `CWaitCommand::LabelFromIndexL` joins two conditions that exclude
  each other and never fires; `ScriptPort.WaitsAreAnswered` shows that it is not needed.


## Model

| member | source | states |
|---|---|---|
| `PacketFilters.FreeIdExactlyWhenRoom` | telephonyprotocols/gprsumtsqosprt/src/context.cpp:329-356 | with distinct identifiers in 1..8 a context has at most eight filters, and a new identifier is refused exactly when it has eight |
| `PacketFilters.MatchesIsCoverage` | telephonyprotocols/gprsumtsqosprt/src/context.cpp:265-289 | a filter covers a flow exactly if it passes every packet of the flow, provided the flow can have packets |
| `PacketFilters.FreeIdFrom` | telephonyprotocols/gprsumtsqosprt/src/context.cpp:329-356 | the least identifier from `j` to 8 that no filter uses, or the overflow error exactly if all are used |
| `PacketFilters.FreePrecedenceFrom` | telephonyprotocols/gprsumtsqosprt/src/iface.cpp:592-604 | the least unmarked precedence, or the error exactly if all are marked |
| `PacketFilters.ReservationCapacity` | telephonyprotocols/gprsumtsqosprt/src/iface.cpp:560-604 | after a recomputation and n reservations there is still a free precedence exactly if the different precedences in use plus n are fewer than 256 |
| `PacketFilters.UsedPrecedencesBounded` | telephonyprotocols/gprsumtsqosprt/src/iface.cpp:560-588 | filter lists of at most eight use at most eight precedences each |
| `PacketFilters.ReservationsLeak` | telephonyprotocols/gprsumtsqosprt/src/iface.cpp:592-604 | reservations that are never cleared use up a map of any size |
| `PacketFilters.RemovalKeepsCoverage` | telephonyprotocols/gprsumtsqosprt/src/context.cpp:411-472 | on a secondary context a flow is covered by a retained filter exactly when it was covered at all, a filter is retained exactly when it is the highest match of some flow, and on the primary none is retained |
| `Tft.AddRefinesMap` | telephonyprotocols/gprsumtsqosinterface/src/UmtsNifControlIf.cpp:97-130 | adding is map update by identifier, refused exactly when eight other identifiers are stored, and leaves a refused table as it was |
| `Tft.RemoveRefinesMap` | telephonyprotocols/gprsumtsqosinterface/src/UmtsNifControlIf.cpp:157-180 | removing is map removal, and not found exactly when the identifier is not stored |
| `Tft.OccupiedIsMap` | telephonyprotocols/gprsumtsqosinterface/src/UmtsNifControlIf.cpp:97-204 | the stored filters are the values of the map, each once, with distinct identifiers, as many as the map has entries |
| `Tft.AddAllDistinct` | telephonyprotocols/gprsumtsqosprt/src/context.cpp:411-472 | up to eight filters with distinct identifiers all fit into an empty table and come out in their order |
| `Tft.TftInfo.AddPacketFilter` | telephonyprotocols/gprsumtsqosinterface/src/UmtsNifControlIf.cpp:97-130 | the slot arrays change as the map update says; the count is the size of the map; the iterator is reset only when a slot is taken |
| `Tft.TftInfo.GetPacketFilter` | telephonyprotocols/gprsumtsqosinterface/src/UmtsNifControlIf.cpp:134-152 | finds the filter that the map has under the identifier |
| `Tft.TftInfo.RemovePacketFilter` | telephonyprotocols/gprsumtsqosinterface/src/UmtsNifControlIf.cpp:157-180 | frees the slot of the identifier; the count follows; the iterator is reset on success |
| `Tft.TftInfo.NextPacketFilter` | telephonyprotocols/gprsumtsqosinterface/src/UmtsNifControlIf.cpp:184-204 | returns the next stored filter in slot order, exactly once each, then nothing |
| `Tft.CopyFilters` | telephonyprotocols/gprsumtsqosprt/src/context.cpp:800-807 | resetting the iterator and reading on copies every stored filter once, in slot order |
| `GuqosState.InitialOk` | telephonyprotocols/gprsumtsqosprt/src/iface.cpp:62-82 | a new interface, with its primary context, meets the invariant |
| `GuqosState.TraceAnnounce` | telephonyprotocols/gprsumtsqosprt/src/context.cpp:211-243 | after a round of block or unblock upcalls exactly the flows of the list were last told that state, and no completion was delivered |
| `GuqosHeap.TouchOk` | telephonyprotocols/gprsumtsqosprt/src/context.cpp:211-261 | changing status, blocking or filters of a context keeps the invariant: its flows are told exactly when its blocking state changes |
| `GuqosHeap.SetFlowContextOk` | telephonyprotocols/gprsumtsqosprt/src/tc.cpp:66-110 | moving a flow keeps links and counts, tells it the blocking state of its new context, and touches no filter, request or other flow |
| `GuqosHeap.DetachOk` | telephonyprotocols/gprsumtsqosprt/src/tc.cpp:141-150 | deleting a flow no request refers to keeps the invariant |
| `GuqosHeap.AddRequestOk` | telephonyprotocols/gprsumtsqosprt/src/iface.cpp:497-503 | a new request joins the end of the queue alive and idle, and the callback that will serve it is set |
| `GuqosHeap.DestructOk` | telephonyprotocols/gprsumtsqosprt/src/async_request.cpp:359-370 | completing takes the request off the queue once, delivers its completion once if it has a listener, and keeps everything else |
| `GuqosHeap.DestructOnce` | telephonyprotocols/gprsumtsqosprt/src/async_request.cpp:359-370 | every request ever added stays alive or destructed exactly once, and delivered exactly once if destructed with a listener |
| `GuqosHeap.CancelPendingOk` | telephonyprotocols/gprsumtsqosprt/src/iface.cpp:522-538 | after cancelling for a context no queued request targets it, the others keep order and state, and only completions were made |
| `GuqosHeap.BestContextIsBest` | telephonyprotocols/gprsumtsqosprt/src/iface.cpp:158-205 | the new default ranks no worse than any other candidate and strictly better than every earlier one |
| `GuqosHeap.RankingOrder` | telephonyprotocols/gprsumtsqosprt/src/context.cpp:295-326 | signalling ranks first, then conversational and streaming contexts, then interactive ones by priority, then all others alike |
| `GuqosHeap.SelectNewDefaultOk` | telephonyprotocols/gprsumtsqosprt/src/iface.cpp:158-205 | the default changes exactly when there is another context, and a Close for the new one is queued |
| `GuqosHeap.MoveFlowsOk` | telephonyprotocols/gprsumtsqosprt/src/iface.cpp:208-238 | moving all flows of a context keeps every flow, link, count and blocking notice |
| `GuqosHeap.DropContextOk` | telephonyprotocols/gprsumtsqosprt/src/context.cpp:161-179 | a context without flows goes with exactly the requests that target it |
| `GuqosHeap.DeleteDropped` | telephonyprotocols/gprsumtsqosprt/src/iface.cpp:208-238 | a context that is not the only one goes, its flows follow in order behind those of the default, no flow is lost, exactly the requests that target it end, the others keep their state |
| `GuqosHeap.DeleteKept` | telephonyprotocols/gprsumtsqosprt/src/iface.cpp:208-238 | the only context is not deleted: its flows are blocked |
| `GuqosHeap.DeletePdpContextOk` | telephonyprotocols/gprsumtsqosprt/src/iface.cpp:208-238 | in both cases the invariant holds, no flow is lost, and there is less to serve or the queue is as before |
| `GuqosRequests.FailOk` | telephonyprotocols/gprsumtsqosprt/src/async_request.cpp:561-573 | any failure ends the request, once, even when it deletes a context whose destructor cancels others; what is left to serve shrinks |
| `GuqosRequests.AbandonContextOk` | telephonyprotocols/gprsumtsqosprt/src/async_request.cpp:857-869 | an Open forgets its new context before deleting it, and so survives until its own completion |
| `GuqosRequests.AskOk` | telephonyprotocols/gprsumtsqosprt/src/async_request.cpp:373-381 | a Control call that is refused ends the request at once; otherwise it waits |
| `GuqosSteps.ActOk` | telephonyprotocols/gprsumtsqosprt/src/async_request.cpp:383-680 | every action of every table ends the request with less left to serve, waits for the one reply it asked for, or lets the next action run; the last action of a table always ends |
| `GuqosSteps.AddingNeedsRoom` | telephonyprotocols/gprsumtsqosprt/src/context.cpp:360-407 | the action that adds a filter keeps identities unique exactly if the map has a free precedence or the network refuses the filter; otherwise it sends a filter without one |
| `GuqosSteps.ActFit` | telephonyprotocols/gprsumtsqosprt/src/async_request.cpp:383-680 | with room for every request in the queue, no action of any table runs out of precedences, and the room stays |
| `GuqosLoops.RunActionsOk` | telephonyprotocols/gprsumtsqosprt/src/async_request.cpp:333-357 | running the actions of a table ends with the request completed or waiting in a state not before the first one |
| `GuqosLoops.RunOk` | telephonyprotocols/gprsumtsqosprt/src/async_request.cpp:226-330 | a reply is answered by completion or by waiting for one specific reply in a strictly later state |
| `GuqosLoops.StartOk` | telephonyprotocols/gprsumtsqosprt/src/async_request.cpp:828-854 | every kind of request, when started, is completed or waits; a Join or Open with nothing to do completes |
| `GuqosLoops.StartDeleteOk` | telephonyprotocols/gprsumtsqosprt/src/async_request.cpp:752-765 | a Delete forgets its context, deletes it and survives until its own completion |
| `GuqosLoops.RunPendingOk` | telephonyprotocols/gprsumtsqosprt/src/iface.cpp:546-557 | serving the queue ends, by contexts and then queue length, with an empty queue or one request waiting, although serving may queue more |
| `GuqosRuns.StepSound` | telephonyprotocols/gprsumtsqosprt/src/iface.cpp:279-416 | each of the 23 events keeps the invariant, loses no control call, and leaves the request being served, if it stays, at least as many states further as replies were delivered |
| `GuqosRuns.ReportedUnique` | telephonyprotocols/gprsumtsqosprt/src/context.cpp:776-838 | a report of filters known or in flight keeps identities unique, although it recomputes the precedence map |
| `GuqosRuns.CloseFlowSound` | telephonyprotocols/gprsumtsqosprt/inc/guqos.h:70 | closing a flow takes it from every request and its context before it goes, and queues the clean-up of a secondary context (body in guqos.cpp, lines 139-172) |
| `GuqosRuns.ReleaseFlowSound` | telephonyprotocols/gprsumtsqosprt/inc/guqos.h:72 | releasing a flow returns it to the default context with every invariant kept (body in guqos.cpp, lines 174-202) |
| `GuqosRuns.QueueTimerSound` | telephonyprotocols/gprsumtsqosprt/src/iface.cpp:540-557 | the callback serves the queue; when it has run on a ready interface with requests left, one of them is being served |
| `GuqosTheorems.ExactlyOnceCompletion` | telephonyprotocols/gprsumtsqosprt/src/async_request.cpp:359-370 | over every run a request ever added is queued once or destructed once, never both, and its completion is delivered exactly once if destructed with a listener, else never |
| `GuqosTheorems.FlowsAndContextsLinked` | telephonyprotocols/gprsumtsqosprt/src/tc.cpp:66-150 | over every run a flow is in the list of a context exactly when it points at it, once and nowhere else; counts are list lengths; the default context lives; no request refers to a dead object |
| `GuqosTheorems.BlockingMirror` | telephonyprotocols/gprsumtsqosprt/src/context.cpp:211-261 | over every run each flow was last told exactly the present blocking state of its context |
| `GuqosTheorems.AlwaysAwaitsOneReply` | telephonyprotocols/gprsumtsqosprt/src/async_request.cpp:226-357 | over every run the request being served heads the queue and waits for the one reply its action asked for; a startable request always has its callback set |
| `GuqosTheorems.RepliesAreBounded` | telephonyprotocols/gprsumtsqosprt/src/async_request.cpp:27-81 | over every run a request served throughout advances one state per reply and so ends within the states of its table |
| `GuqosTheorems.FilterIdentityIsUnique` | telephonyprotocols/gprsumtsqosprt/src/context.cpp:329-407 | over every run with an honest network in which each call that asks for a filter is made while the map has room, identifiers are distinct in each context and precedences across the interface, also against a filter in flight |
| `GuqosTheorems.RoomForAllCalls` | telephonyprotocols/gprsumtsqosprt/src/iface.cpp:560-604 | a run with an honest network keeps identities unique if the load of the map at its start and its calls that ask for a filter are together at most 256 |
| `GuqosTheorems.ReportLeavesRoom` | telephonyprotocols/gprsumtsqosprt/src/iface.cpp:560-588 | a run that starts with a report keeps identities unique if eight for each context, one, the requests in the queue and the calls that ask for a filter are together at most 256 |
| `GuqosExhaustion.RefusedJoinsExhaustMap` | telephonyprotocols/gprsumtsqosprt/src/context.cpp:360-407 | over whole runs: with n Joins refused by the network and the next accepted, identities stay unique exactly if the marked precedences and n are fewer than 256 |
| `GuqosExhaustion.FullMapSendsNoPrecedence` | telephonyprotocols/gprsumtsqosprt/src/iface.cpp:592-604 | on an idle interface with a full map the very next Join sends a filter without a precedence, and identities are no longer unique |
| `GuqosIdentity.StepUniquely` | telephonyprotocols/gprsumtsqosprt/src/async_request.cpp:27-81 | after any of the 23 events identities that were unique still are, exactly if no accepted filter action of it found the map full |
| `GuqosIdentity.IdentitiesUniqueExactly` | telephonyprotocols/gprsumtsqosprt/src/iface.cpp:592-604 | over every run from the construction on with an honest network identities are unique throughout exactly if no accepted filter action finds the map full |
| `GuqosSetup.ExhaustedFromStart` | telephonyprotocols/gprsumtsqosprt/src/context.cpp:360-407 | a run from the construction on that opens two flows and a channel, has n Joins refused and the next accepted, ends with unique identities exactly if n < 255 |
| `GuqosSetup.IdentitiesCanBeLost` | telephonyprotocols/gprsumtsqosprt/src/iface.cpp:592-604 | so a well-formed run with an honest network ends with identities that are not unique |
| `GuqosTheorems.TeardownLeavesNothing` | telephonyprotocols/gprsumtsqosprt/src/iface.cpp:84-117 | the destructor completes every queued request once, deletes each context but the default on the network in list order, and leaves no context, request or flow |
| `GuqosCodes.CompletionsAreExplained` | telephonyprotocols/gprsumtsqosprt/src/async_request.cpp:226-381 | over every run each completion that a client is told carries the code that the conversation of its request explains: a refused call and a reply with an error are reported as they are, a reply to something else as cancelled, death as such; success is told only for a Delete, for a request with nothing to do, or behind a whole conversation of its kind in which every call was taken and answered |
| `GuqosCodes.TeardownIsExplained` | telephonyprotocols/gprsumtsqosprt/src/iface.cpp:84-117 | the same for the completions that the destructor delivers at the end of a run |
| `GuqosOutcomes.Agendas` | telephonyprotocols/gprsumtsqosprt/src/async_request.cpp:27-81 | what each kind of request may ask for, and in which order |
| `GuqosReplies.RepliesDecide` | telephonyprotocols/gprsumtsqosprt/src/async_request.cpp:226-330 | in every reachable state a reply with an error to the last call of the request being served completes it with that error, any other reply completes it as cancelled, and the completion is the last thing said |
| `GuqosReplies.RefusalDecides` | telephonyprotocols/gprsumtsqosprt/src/async_request.cpp:373-381 | a refused call completes the request with the refusal as the last thing said; a call that is taken leaves it waiting |
| `GuqosReplies.DeathIsTold` | telephonyprotocols/gprsumtsqosprt/src/iface.cpp:208-238 | when a context goes that is not the only one, exactly the requests about it end, and their clients are told that they died |
| `GuqosBlocking.BlockingIsTold` | telephonyprotocols/gprsumtsqosprt/src/iface.cpp:374-390 | over every run: a blocking event and a packet that is not taken stop every flow of their context, an unblocking event lets them go on exactly if the context is reported active, and flows of other contexts are told nothing |
| `GuqosBlocking.ConfirmationIsTold` | telephonyprotocols/gprsumtsqosprt/src/context.cpp:609-654 | over every run: a confirmed activation or modification lets the flows go on exactly if the context is reported active, before the request hears of it |
| `GuqosRemoval.RemovalKeepsFlowsCovered` | telephonyprotocols/gprsumtsqosprt/src/async_request.cpp:383-432 | the call names all filters of the default context, and of any other exactly those that no flow that stays attached relies on, so that each such flow that was covered still is; it is left out only if there is nothing to name or no flow left |
| `GuqosRemoval.AdditionSendsTheFlowsFilter` | telephonyprotocols/gprsumtsqosprt/src/async_request.cpp:435-460 | a covered flow gets no filter, a full context ends the request, and otherwise the call names the filter of the flow under the least free identifier and precedence |
| `GuqosRemoval.CallsNameTheContext` | telephonyprotocols/gprsumtsqosprt/src/async_request.cpp:462-498 | commitments, tokens and quality of service are asked for on the context of the request, activation exactly if it is not active |
| `GuqosOutcomes.LeaveDetaches` | telephonyprotocols/gprsumtsqosprt/src/async_request.cpp:383-432 | a Leave that starts puts its flow on the default context, whatever becomes of its calls |
| `GuqosOutcomes.JoinAttaches` | telephonyprotocols/gprsumtsqosprt/src/async_request.cpp:955-985 | a Join that has let go of its flow, or succeeds, has put it on its channel |
| `GuqosOutcomes.OpenAttaches` | telephonyprotocols/gprsumtsqosprt/src/async_request.cpp:513-540 | an Open whose context has been committed puts its flow there and succeeds |
| `GuqosOutcomes.FailedOpenCleansUp` | telephonyprotocols/gprsumtsqosprt/src/async_request.cpp:857-869 | a failed Open has the network delete the context it has made, and no flow is lost |
| `GuqosOutcomes.FailedReplyCleansUp` | telephonyprotocols/gprsumtsqosprt/src/async_request.cpp:226-330 | a reply with an error from that context is such a failure |
| `GuqosOutcomes.DefaultIsReplaced` | telephonyprotocols/gprsumtsqosprt/src/iface.cpp:158-205 | the best of the other contexts becomes the default one and gets a Close at the end of the queue |
| `GuqosOutcomes.CallbackWaits` | telephonyprotocols/gprsumtsqosprt/src/iface.cpp:546-557 | the callback starts nothing unless it is set, the interface is ready and no request is being served |
| `GuqosOutcomes.ConfirmationsAreTaken` | telephonyprotocols/gprsumtsqosprt/src/context.cpp:609-654 | a confirmation nobody waits for replaces filters, parameters and status of its context and unblocks it if it is active |
| `GuqosCalls.CallsAreQueued` | telephonyprotocols/gprsumtsqosprt/inc/guqos.h:73-77 | every call is refused at once, for the first of its reasons, or queues one request that carries what was asked for (bodies in guqos.cpp, lines 204-445) |
| `GuqosCalls.FlowsComeAndGo` | telephonyprotocols/gprsumtsqosprt/inc/guqos.h:69-72 | opening puts a flow last on the default context; closing and releasing take it from every request, have its secondary context closed and let that expire if the flow was the last (bodies in guqos.cpp, lines 116-202) |
| `GuqosCalls.ContextsGo` | telephonyprotocols/gprsumtsqosprt/src/context.cpp:182-209 | closing a channel takes it from the default context or has its own context go with a call to the network; a context whose time is up goes if it has no flows and is closed otherwise |
| `GuqosCalls.EventsAreTaken` | telephonyprotocols/gprsumtsqosprt/src/iface.cpp:440-478 | the default context coming up makes the interface ready; a context nobody asked for is deleted again; a report replaces filters and parameters, recomputes the map from all contexts and is announced |
| `GuqosCalls.DeletionIsAnnounced` | telephonyprotocols/gprsumtsqosprt/src/context.cpp:665-734 | over every run a context that the network has deleted is announced as failed, for its channel or flow by flow, before it goes; the only one stays and is blocked |
| `GuqosCalls.RequestsStart` | telephonyprotocols/gprsumtsqosprt/src/async_request.cpp:828-854 | a request with nothing to do completes without a call; an Open whose flow is alone on a secondary context starts there with the token or the quality of service, any other request with its first action, on the context of its flow or the one it is for |
| `GuqosCalls.ActionsMove` | telephonyprotocols/gprsumtsqosprt/src/async_request.cpp:513-540 | the context made for an Open carries its channel and belongs to it, a Join goes on with its channel, and the flow of a request that comes to that action is put on the request context |
| `GuqosCalls.EventsNameTheFirst` | telephonyprotocols/gprsumtsqosprt/src/iface.cpp:129-138 | an event is about the first context of the list with its identifier |
| `GuqosNif.Nif.constructor` | telephonyprotocols/gprsumtsqosprt/src/iface.cpp:62-82 | a new object is in the initial state |
| `GuqosNif.Nif.NotifyBlockingState` | telephonyprotocols/gprsumtsqosprt/src/context.cpp:211-243 | one upcall for each flow in list order exactly if the blocking state differs from before and a listener is installed |
| `GuqosNif.Nif.Block` | telephonyprotocols/gprsumtsqosprt/src/context.cpp:246-251 | computes the blocked context and its notices |
| `GuqosNif.Nif.UnBlock` | telephonyprotocols/gprsumtsqosprt/src/context.cpp:255-261 | computes the unblocked context and its notices |
| `GuqosNif.Nif.SetContextStatus` | telephonyprotocols/gprsumtsqosprt/src/context.cpp:737-774 | computes the new status and the notices it causes |
| `GuqosNif.Nif.FlowDetached` | telephonyprotocols/gprsumtsqosprt/src/context.cpp:692-700 | the count drops; a secondary context without flows starts its timer |
| `GuqosNif.Nif.SetContext` | telephonyprotocols/gprsumtsqosprt/src/tc.cpp:66-110 | unlinking, linking and notice together compute the move of the flow |
| `GuqosNif.Nif.AddRequest` | telephonyprotocols/gprsumtsqosprt/src/iface.cpp:497-503 | computes the queue with the request at its end |
| `GuqosNif.Nif.CloseRequest` | telephonyprotocols/gprsumtsqosprt/src/iface.cpp:606-618 | the request leaves the queue; if it was current the callback is set; the sequence number changes |
| `GuqosNif.Nif.CompleteAndDestruct` | telephonyprotocols/gprsumtsqosprt/src/async_request.cpp:359-370 | computes the completion, and changes the sequence number |
| `GuqosNif.Nif.Cancel` | telephonyprotocols/gprsumtsqosprt/src/async_request.cpp:726-734 | ends the request with the error of its kind exactly if it targets the context |
| `GuqosNif.Nif.CancelPendingRequest` | telephonyprotocols/gprsumtsqosprt/src/iface.cpp:522-538 | the walk that restarts when the queue has changed ends and computes the cancellation of all targets |
| `GuqosNif.Nif.CancelPendingFlow` | telephonyprotocols/gprsumtsqosprt/src/iface.cpp:505-519 | every queued request lets go of the flow |
| `GuqosNif.Nif.SelectNewDefaultContext` | telephonyprotocols/gprsumtsqosprt/src/iface.cpp:158-205 | the search loop computes the best context and queues its Close |
| `GuqosNif.Nif.DeletePdpContext` | telephonyprotocols/gprsumtsqosprt/src/iface.cpp:208-238 | new default, hand-over of flows and destruction together compute the deletion |
| `GuqosNif.Nif.HandOver` | telephonyprotocols/gprsumtsqosprt/src/iface.cpp:208-238 | moving the first flow until none is left computes the move of all of them in order |
| `GuqosNif.Nif.DestroyContext` | telephonyprotocols/gprsumtsqosprt/src/context.cpp:161-179 | computes the removal of the context and the cancellation of its requests |
| `GuqosNif.Nif.RecomputeEvaluationPrecedences` | telephonyprotocols/gprsumtsqosprt/src/iface.cpp:560-588 | the array marks exactly the precedences that filters of the interface use |
| `GuqosNif.Nif.FindEvaluationPrecedence` | telephonyprotocols/gprsumtsqosprt/src/iface.cpp:592-604 | finds and marks the least free precedence |
| `GuqosNif.Nif.FindPacketFilterId` | telephonyprotocols/gprsumtsqosprt/src/context.cpp:329-356 | the bit mask loop finds the least free identifier |
| `GuqosNif.Nif.Covered` | telephonyprotocols/gprsumtsqosprt/src/context.cpp:369-375 | decides whether a filter covers the flow |
| `GuqosNif.Nif.AddPacketFilter` | telephonyprotocols/gprsumtsqosprt/src/context.cpp:360-407 | covered flows need nothing, a full context is an error, otherwise flow and template get the least free identifier and precedence |
| `GuqosNif.Nif.MarkNeeded` | telephonyprotocols/gprsumtsqosprt/src/context.cpp:435-456 | marks exactly the filters that are the highest match of some attached flow but the excluded one |
| `GuqosNif.Nif.Unmarked` | telephonyprotocols/gprsumtsqosprt/src/context.cpp:457-472 | the template holds the unmarked filters in order, and the result is their number |
| `GuqosNif.Nif.RemovePacketFilter` | telephonyprotocols/gprsumtsqosprt/src/context.cpp:411-472 | the template holds exactly the filters no attached flow needs, and the result is their number |
| `GuqosNif.Nif.DeleteOnNetwork` | telephonyprotocols/gprsumtsqosprt/src/context.cpp:672-684 | the network is told of every deletion but that of the default context |
| `GuqosNif.Nif.Failure` | telephonyprotocols/gprsumtsqosprt/src/async_request.cpp:561-573 | computes the failure of each kind of request |
| `GuqosNif.Nif.AbandonContext` | telephonyprotocols/gprsumtsqosprt/src/async_request.cpp:857-869 | computes the deletion of the new context of an Open |
| `GuqosNif.Nif.Ask` | telephonyprotocols/gprsumtsqosprt/src/async_request.cpp:373-381 | computes one call with its refusal |
| `GuqosNif.Nif.ActionRemovePacketFilter` | telephonyprotocols/gprsumtsqosprt/src/async_request.cpp:383-432 | computes the step: flow to the default context, unneeded filters removed |
| `GuqosNif.Nif.ActionAddPacketFilter` | telephonyprotocols/gprsumtsqosprt/src/async_request.cpp:435-460 | computes the step: covered, failed, or one filter sent |
| `GuqosNif.Nif.ActionCommit` | telephonyprotocols/gprsumtsqosprt/src/async_request.cpp:462-498 | computes the step: activate, modify, or nothing to do |
| `GuqosNif.Nif.DoRememberCreatedContext` | telephonyprotocols/gprsumtsqosprt/src/async_request.cpp:810-826 | computes the step: the Open owns the new context, which carries the channel |
| `GuqosNif.Nif.ActionAddSblpParameter` | telephonyprotocols/gprsumtsqosprt/src/async_request.cpp:606-635 | computes the step: a token is sent exactly if there is one |
| `GuqosNif.Nif.ActionSetQoS` | telephonyprotocols/gprsumtsqosprt/src/async_request.cpp:637-649 | computes the step |
| `GuqosNif.Nif.DoAddFlowToContext` | telephonyprotocols/gprsumtsqosprt/src/async_request.cpp:513-540 | computes the step: the flow joins the context and the request lets it go |
| `GuqosNif.Nif.ActionNegotiationComplete` | telephonyprotocols/gprsumtsqosprt/src/async_request.cpp:652-680 | computes the step: the flow joins the context and the request completes |
| `GuqosNif.Nif.Action` | telephonyprotocols/gprsumtsqosprt/src/async_request.cpp:27-81 | the action of the current state of the table |
| `GuqosNif.Nif.RunActions` | telephonyprotocols/gprsumtsqosprt/src/async_request.cpp:333-357 | the action loop ends and computes the run of the table from the current state |
| `GuqosNif.Nif.Run` | telephonyprotocols/gprsumtsqosprt/src/async_request.cpp:226-330 | an unexpected reply cancels, an error fails, the expected reply goes on with the next state |
| `GuqosNif.Nif.StartDelete` | telephonyprotocols/gprsumtsqosprt/src/async_request.cpp:752-765 | computes the start of a Delete |
| `GuqosNif.Nif.Start` | telephonyprotocols/gprsumtsqosprt/src/async_request.cpp:333-357 | computes the start of each kind of request, with the shortcut of an Open that reuses its context |
| `GuqosNif.Nif.RunPendingRequests` | telephonyprotocols/gprsumtsqosprt/src/iface.cpp:546-557 | the loop ends and computes the service of the queue |
| `GuqosNif.Nif.FindContext` | telephonyprotocols/gprsumtsqosprt/src/iface.cpp:129-138 | the first context with the identifier |
| `GuqosNif.Nif.FindChannel` | telephonyprotocols/gprsumtsqosprt/src/iface.cpp:140-149 | the first context with the channel |
| `GuqosNif.Nif.OpenFlow` | telephonyprotocols/gprsumtsqosprt/inc/guqos.h:69 | a new flow joins the default context last and is told its blocking state (body in guqos.cpp, lines 115-137) |
| `GuqosNif.Nif.CloseFlow` | telephonyprotocols/gprsumtsqosprt/inc/guqos.h:70 | computes the closing of a flow (body in guqos.cpp, lines 139-172) |
| `GuqosNif.Nif.DeleteFlow` | telephonyprotocols/gprsumtsqosprt/src/tc.cpp:141-150 | computes the unlinking of a dying flow |
| `GuqosNif.Nif.ReleaseFlow` | telephonyprotocols/gprsumtsqosprt/inc/guqos.h:72 | computes the release of a flow (body in guqos.cpp, lines 174-202) |
| `GuqosNif.Nif.OpenChannel` | telephonyprotocols/gprsumtsqosprt/inc/guqos.h:73 | refuses a bad or used channel and an unknown flow, else queues an Open (body in guqos.cpp, lines 204-259) |
| `GuqosNif.Nif.CloseChannel` | telephonyprotocols/gprsumtsqosprt/inc/guqos.h:74 | the default context loses its channel, any other is deleted (body in guqos.cpp, lines 261-287) |
| `GuqosNif.Nif.NegotiateChannel` | telephonyprotocols/gprsumtsqosprt/inc/guqos.h:75 | refuses an unknown channel, else queues a Negotiate (body in guqos.cpp, lines 289-325) |
| `GuqosNif.Nif.JoinOrLeave` | telephonyprotocols/gprsumtsqosprt/inc/guqos.h:76-77 | refuses an unknown channel or flow, else queues the request (body in guqos.cpp, lines 327-372) |
| `GuqosNif.Nif.NegotiateFlow` | telephonyprotocols/gprsumtsqosprt/inc/guqos.h:71 | refuses an unknown flow and one without an extension policy, else queues an Open without a channel (body in guqos.cpp, lines 374-428) |
| `GuqosNif.Nif.SendPacket` | telephonyprotocols/gprsumtsqosprt/src/tc.cpp:156-186 | a packet the network does not take blocks the context of its flow |
| `GuqosNif.Nif.PrimaryContextCreated` | telephonyprotocols/gprsumtsqosprt/src/iface.cpp:440-451 | the interface becomes ready and the queue will be served |
| `GuqosNif.Nif.SecondaryContextCreated` | telephonyprotocols/gprsumtsqosprt/src/iface.cpp:453-478 | without a request the new context is deleted on the network, with an error the request ends, else it resumes on the new context |
| `GuqosNif.Nif.ContextBlockedEvent` | telephonyprotocols/gprsumtsqosprt/src/iface.cpp:279-416 | status, then block |
| `GuqosNif.Nif.ContextUnblockedEvent` | telephonyprotocols/gprsumtsqosprt/src/iface.cpp:279-416 | status, then unblock |
| `GuqosNif.Nif.GenerateEvent` | telephonyprotocols/gprsumtsqosprt/src/context.cpp:702-734 | one event for the channel, or one for each flow in order |
| `GuqosNif.Nif.ContextDeleteEvent` | telephonyprotocols/gprsumtsqosprt/src/context.cpp:665-669 | status and events first, then the deletion |
| `GuqosNif.Nif.Update` | telephonyprotocols/gprsumtsqosprt/src/context.cpp:776-838 | the reported filters replace those of the context, the map is recomputed, then the status changes |
| `GuqosNif.Nif.ParametersChangedEvent` | telephonyprotocols/gprsumtsqosprt/src/context.cpp:657-663 | the report is taken over and announced |
| `GuqosNif.Nif.QoSSetEvent` | telephonyprotocols/gprsumtsqosprt/src/context.cpp:523-533 | the reply goes to the request being served |
| `GuqosNif.Nif.TftModifiedEvent` | telephonyprotocols/gprsumtsqosprt/src/context.cpp:549-589 | the reply of each template operation goes to the request being served |
| `GuqosNif.Nif.ConfirmedEvent` | telephonyprotocols/gprsumtsqosprt/src/context.cpp:609-654 | the report is taken over, an active context unblocked, and the reply delivered |
| `GuqosNif.Nif.QueueTimer` | telephonyprotocols/gprsumtsqosprt/src/iface.cpp:540-557 | the callback fires once and serves the queue |
| `GuqosNif.Nif.ContextTimer` | telephonyprotocols/gprsumtsqosprt/src/context.cpp:182-209 | an empty context is deleted, one with flows gets a Close |
| `GuqosNif.Nif.Handle` | telephonyprotocols/gprsumtsqosprt/src/iface.cpp:279-416 | any event, handled by the object, does what the specification says and leaves it valid |
| `GuqosNif.Nif.CompleteQueue` | telephonyprotocols/gprsumtsqosprt/src/iface.cpp:84-117 | the destructor empties the queue head first |
| `GuqosNif.Nif.DropContexts` | telephonyprotocols/gprsumtsqosprt/src/iface.cpp:84-117 | the destructor deletes the contexts with their flows, first to last |
| `GuqosNif.Nif.Destroy` | telephonyprotocols/gprsumtsqosprt/src/iface.cpp:84-117 | computes the teardown |
| `Chat.ShortStringsMatchExactly` | telephonyprotocols/csdagt/script/SCHAT.CPP:122-168 | for strings no longer than the buffer the comparison is true exactly if the string is a suffix of everything added |
| `Chat.LongStringsMatchPeriodically` | telephonyprotocols/csdagt/script/SCHAT.CPP:122-168 | for longer strings it is true exactly if as much as fits is a suffix and the string repeats itself with the size of the buffer |
| `Chat.FalseMatch` | telephonyprotocols/csdagt/script/SCHAT.CPP:122-168 | for every buffer size there is a string that matches and was not received |
| `Chat.CommChatter.constructor` | telephonyprotocols/csdagt/script/SCHAT.CPP:60-72 | an empty history |
| `Chat.CommChatter.ClearHistory` | telephonyprotocols/csdagt/script/SCHAT.CPP:83-90 | forgets the history |
| `Chat.CommChatter.Match` | telephonyprotocols/csdagt/script/SCHAT.CPP:122-168 | walking the ring backwards decides the comparison with the whole history, folded or not |
| `Chat.CommChatter.AddChar` | telephonyprotocols/csdagt/script/SCHAT.CPP:92-120 | the history grows by the character, and the index notified last is the highest string found, if any |
| `Chat.CommChatter.AddString` | telephonyprotocols/csdagt/script/SCHAT.CPP:178-185 | the string is last in the list |
| `Chat.CommChatter.DeleteAll` | telephonyprotocols/csdagt/script/SCHAT.CPP:196-209 | the list is empty |
| `Chat.CommChatter.Scan` | telephonyprotocols/csdagt/script/SIO.CPP:256-270 | the loop over the received characters computes the scan |
| `Chat.ScanStopsFirst` | telephonyprotocols/csdagt/script/SIO.CPP:256-285 | the scan stops at the first character at which some string is found, takes the highest, and consumed and excess together are what was received |
| `ScriptReader.LinesPartition` | telephonyprotocols/csdagt/script/SSCRREAD.CPP:173-231 | the lines read one after the other are the script, each with its line end last and nowhere else |
| `ScriptReader.CutIsUnique` | telephonyprotocols/csdagt/script/SSCRREAD.CPP:184-231 | there is only one way to cut a script into such lines |
| `ScriptReader.NextLinePlaced` | telephonyprotocols/csdagt/script/SSCRREAD.CPP:173-182 | from the position of a line the next line is read with the same count base, and the end is reported exactly behind the last line |
| `ScriptReader.CountNamesLine` | telephonyprotocols/csdagt/script/SSCRREAD.CPP:233-253 | two positions name the same line exactly when their line counts are equal |
| `ScriptReader.ScriptReader.SetScript` | telephonyprotocols/csdagt/script/SSCRREAD.CPP:141-151 | position and skip flag are reset, the line text is not |
| `ScriptReader.ScriptReader.GetCurrentLine` | telephonyprotocols/csdagt/script/SSCRREAD.CPP:184-231 | the nearer of carriage return and line feed ends the line |
| `ScriptReader.ScriptReader.GetNextLine` | telephonyprotocols/csdagt/script/SSCRREAD.CPP:173-182 | computes the next line |
| `ScriptReader.ScriptReader.SetCurrentPos` | telephonyprotocols/csdagt/script/SSCRREAD.CPP:245-253 | restores the position and nothing else |
| `ScriptReader.ScriptReader.Reset` | telephonyprotocols/csdagt/script/SSCRREAD.CPP:255-268 | back to the first line, which then has number two |
| `ScriptStores.LabelsNamePlaces` | telephonyprotocols/csdagt/script/SVARLAB.CPP:74-128 | a label is accepted exactly when its name is new or was recorded at this line and offset; accepted, it is found there, and the others stay |
| `ScriptStores.DefineThenLookup` | telephonyprotocols/csdagt/script/SVARLAB.CPP:183-244 | the variable store is a map from folded names |
| `ScriptStores.LabelMan.Find` | telephonyprotocols/csdagt/script/SVARLAB.CPP:109-128 | the first label with the folded name |
| `ScriptStores.LabelMan.Add` | telephonyprotocols/csdagt/script/SVARLAB.CPP:74-107 | computes the new label list or the error, which leaves the list as it was |
| `ScriptStores.VarMan.Find` | telephonyprotocols/csdagt/script/SVARLAB.CPP:226-244 | the content of the variable, with the index left at its place |
| `ScriptStores.VarMan.Add` | telephonyprotocols/csdagt/script/SVARLAB.CPP:183-211 | appends or replaces, or refuses a long name |
| `ScriptExpressions.TempNamesFit` | telephonyprotocols/csdagt/script/SCOMMAND.CPP:110-148 | names of temporary variables never exceed twenty characters while their numbers do not wrap |
| `ScriptExpressions.CompoundTemps` | telephonyprotocols/csdagt/script/SCOMMAND.CPP:110-148 | evaluation changes no variable but temporaries |
| `ScriptExpressions.CompoundIsConcatenation` | telephonyprotocols/csdagt/script/SCOMMAND.CPP:110-250 | any number of terms, written in any spacing and naming no temporary variable, evaluate to the concatenation of their texts, with the offset at the first unconsumed non-blank, or to the error of the first term that has one |
| `ScriptSteps.EatOnward` | telephonyprotocols/csdagt/script/SCOMMAND.CPP:360-402 | looking for the next command only goes forward and keeps positions those of lines |
| `ScriptSteps.WaitItemsShape` | telephonyprotocols/csdagt/script/SCOMMAND.CPP:708-778 | reading the strings of a WAIT goes forward to behind its brace and changes only temporaries |
| `ScriptSteps.DispatchAdvances` | telephonyprotocols/csdagt/script/SSCREXEC.CPP:254-267 | every command but a GOTO back goes forward, starts a loop or leaves it alone, adds no label, and in skip mode changes nothing but place, temporaries and loop |
| `ScriptRuns.StepSound` | telephonyprotocols/csdagt/script/SSCREXEC.CPP:240-269 | every round keeps all recorded positions those of lines of the script, counted from one base |
| `ScriptLabels.LabelAcceptedAtItsPlace` | telephonyprotocols/csdagt/script/SCOMMAND.CPP:1022-1045 | a label read from its own line is accepted exactly if its name is new or was recorded at this very place of the script; a name recorded at another place ends the script |
| `ScriptLabels.TidyStep` | telephonyprotocols/csdagt/script/SSCRREAD.CPP:233-253 | if a round that goes back leaves nothing on the line it goes back from, every command is read from its own line |
| `ScriptLabels.LabelsKeepTheirPlaces` | telephonyprotocols/csdagt/script/SVARLAB.CPP:74-128 | over every run that goes back only from lines it leaves nothing on, each recorded label stands in the script where its position says, and a label met first or again is accepted exactly if its name is new or was recorded at that place |
| `ScriptLabels.GotoEndingLineIsTidy` | telephonyprotocols/csdagt/script/SCOMMAND.CPP:974-1020 | a GOTO back that ends its line leaves nothing on it |
| `ScriptLabels.ClosingBraceIsTidy` | telephonyprotocols/csdagt/script/SCOMMAND.CPP:904-929 | nor does a closing brace alone on its line, left of the place behind the opening one |
| `ScriptLayout.LaidOutRunsAreTidy` | telephonyprotocols/csdagt/script/SSCRREAD.CPP:233-253 | in a script whose GOTOs end their lines and whose closing braces stand alone and left, every run goes back only from lines it leaves nothing on |
| `ScriptLayout.LabelsKeepTheirPlacesByLayout` | telephonyprotocols/csdagt/script/SVARLAB.CPP:74-128 | over every run of such a script each recorded label stands in the script where its position says, and a label is accepted exactly if its name is new or was recorded at that place |
| `ScriptExamples.StrayLabelIsRejected` | telephonyprotocols/csdagt/script/SSCRREAD.CPP:245-253 | a script with a label behind a GOTO back on the same line, whose run ends with the error for a label defined twice although the label stands in it once |
| `ScriptRuns.SkipRound` | telephonyprotocols/csdagt/script/SCOMMAND.CPP:1002-1057 | one round in skip mode makes no request and ends the mode exactly if the label searched for is then known |
| `ScriptRuns.SkipModeIsInert` | telephonyprotocols/csdagt/script/SCOMMAND.CPP:1002-1057 | from an unknown GOTO until its label is defined no request is made and only temporary variables change; the mode ends with the round that defines the label and not before |
| `ScriptPlays.SkipModeIsInertInRuns` | telephonyprotocols/csdagt/script/SCOMMAND.CPP:1002-1057 | the same over runs with the port: until the label is defined no request is made, only temporary variables change and the mode stays |
| `ScriptProgress.StepProgresses` | telephonyprotocols/csdagt/script/SSCREXEC.CPP:240-269 | every round that does not jump back to a label lowers a lexicographic measure of text not yet passed, loop counter and text left |
| `ScriptWaits.ListPassed` | telephonyprotocols/csdagt/script/SCOMMAND.CPP:708-778 | the strings of a WAIT that are read without an error are passed to the closing brace exactly if each item, read from the text alone, takes something; otherwise the parser never returns |
| `ScriptWaits.ImpassableItem` | telephonyprotocols/csdagt/script/SCOMMAND.CPP:751-778 | a list cannot be passed exactly if some item before the closing brace starts with a character that starts and continues no term |
| `ScriptWaits.NormalListPassed` | telephonyprotocols/csdagt/script/SCOMMAND.CPP:708-749 | in normal mode every list is passed or ends the script unless a variable with the empty name is defined |
| `ScriptWaits.RoundReturns` | telephonyprotocols/csdagt/script/SSCREXEC.CPP:240-269 | a round that does not end the script never returns exactly if it comes to a WAIT whose list cannot be passed |
| `ScriptRest.RestsExactly` | telephonyprotocols/csdagt/script/SSCREXEC.CPP:240-269 | between jumps back to labels the interpreter ends the script, waits for the port, panics or stops in front of a jump back, exactly if each round on the way returns; otherwise it hangs |
| `ScriptRest.ComesToRest` | telephonyprotocols/csdagt/script/SSCREXEC.CPP:240-269 | if every WAIT of the script, read on from where it stands, has a list that is passed, a stretch of rounds comes to rest that goes back only from lines it leaves nothing on |
| `ScriptRest.LaidOutComesToRest` | telephonyprotocols/csdagt/script/SSCREXEC.CPP:240-269 | so does every stretch if, in the text, each GOTO ends its line and closing braces stand alone and left |
| `ScriptRest.RunsComeToRest` | telephonyprotocols/csdagt/script/SSCREXEC.CPP:228-269 | wherever a run of such a script has got to, whatever the port has sent, the rounds from there come to rest |
| `ScriptRest.ComesToRestOutOfStep` | telephonyprotocols/csdagt/script/SSCRREAD.CPP:233-253 | a stretch that may read text that is not at its position comes to rest if every WAIT on any line is passed wherever its list goes on |
| `ScriptRest.ComesToRestInNormalMode` | telephonyprotocols/csdagt/script/SCOMMAND.CPP:708-749 | a stretch that does not enter skip mode comes to rest with no condition on the WAITs if every SET names its variable and none with the empty name is defined |
| `ScriptLogin.LoginComesToRest` | telephonyutils/etel3rdpartyapi/Test/te_etelIsv/TE_EtelIsv.cfg:830 | this script, a LOOP around a WAIT over four lines, meets both conditions on the text, and every run of it comes to rest |
| `ScriptExamples.SkippedWaitNeverReturns` | telephonyprotocols/csdagt/script/SCOMMAND.CPP:751-778 | a script of two lines without labels whose third move never returns |
| `ScriptLoops.LoopStep` | telephonyprotocols/csdagt/script/SCOMMAND.CPP:904-929 | in a loop a closing brace counts down and ends it at zero, and nothing else touches counter or start |
| `ScriptLoops.LoopEndsAtItsCount` | telephonyprotocols/csdagt/script/SCOMMAND.CPP:870-929 | a loop with counter n ends with its n-th closing brace |
| `ScriptLoops.ClosingRestartsBody` | telephonyprotocols/csdagt/script/SCOMMAND.CPP:904-929 | behind a closing brace that repeats the loop, the next round finds its command where the first body started exactly if the brace stands left of the place behind the opening one |
| `ScriptLoops.BodyRunsItsCount` | telephonyprotocols/csdagt/script/SCOMMAND.CPP:870-929 | from right behind a LOOP that ends its line, with closing braces alone on their lines, the body is entered exactly as often as the number says if they stand left of the place behind the opening brace, and once otherwise |
| `ScriptLoops.FarBraceUsesUpCount` | telephonyprotocols/csdagt/script/SCOMMAND.CPP:904-929 | in the other case the remaining rounds of the loop are all closing braces, and behind the loop the body is met once more |
| `ScriptLoops.FarLoopRepeatsBodyOnce` | telephonyprotocols/csdagt/script/SCOMMAND.CPP:870-929 | from right behind the LOOP: if its first closing brace does not stand left, the rounds after it are closings only, one fewer than the count, and behind the loop the body starts once more |
| `ScriptLoops.LoopLeadsBehind` | telephonyprotocols/csdagt/script/SCOMMAND.CPP:870-902 | the command LOOP leads to the start of its body with its number as the counter |
| `ScriptPlays.BodyRunsItsCountInRuns` | telephonyprotocols/csdagt/script/SCOMMAND.CPP:870-929 | the same over runs with reads, writes and timeouts of the port: the body is entered exactly as often as the number says, or once |
| `ScriptPort.FoundIsWaitedFor` | telephonyprotocols/csdagt/script/SIO.CPP:256-316 | the index of a string found is in range, it is the highest string found at the earliest character, and consumed and excess are what was received |
| `ScriptPort.TakeSound` | telephonyprotocols/csdagt/script/SSCREXEC.CPP:271-380 | every round, read, write and timeout keeps positions, the strings being looked for, and the count of carriage returns |
| `ScriptPort.WaitsAreAnswered` | telephonyprotocols/csdagt/script/SSCREXEC.CPP:311-380 | over every run the automatic carriage return is sent at most once and not before a wait timed out, and a string found leads to the label written beside it |
| `ScriptRetries.PromptIsAskedForTwice` | telephonyprotocols/csdagt/script/SSCREXEC.CPP:271-380 | over every run: the first wait that times out writes one carriage return; when that has been written, or has timed out, the port is asked again for the period of the WAIT and its strings are still looked for; no round is run before this read ends; a further timeout sends nothing and the script goes on |
| `ScriptRetries.FirstWaitIsFirst` | telephonyprotocols/csdagt/script/SSCREXEC.CPP:483-499 | over every run: until the script has waited for something its next wait counts as the first one, and the round behind a WAIT starts with nothing pending, no strings and no labels left |
| `ScriptRetries.PortDecides` | telephonyprotocols/csdagt/script/SIO.CPP:199-342 | over every run: an ended script has nothing pending and stays as it is; errors of writes and reads end it with that error, but behind a failing line of a read it goes on; framing errors are ignored |
| `ScriptJumps.JumpLandsBehindLabelLine` | telephonyprotocols/csdagt/script/SCOMMAND.CPP:974-1020 | a GOTO back that ends its line goes on with the line behind that of the label |
| `ScriptJumps.CharmapIllegalInSkipMode` | telephonyprotocols/csdagt/script/SCOMMAND.CPP:1268-1285 | a bracketed character set is taken in normal mode and makes the next round fail in skip mode |
| `ScriptJumps.BracketIsIllegal` | telephonyprotocols/csdagt/script/SSCREXEC.CPP:254-267 | a bracket is no label, brace or command |
| `ScriptExecutor.SkipBlanks` | telephonyprotocols/csdagt/script/SCOMMAND.CPP:360-375 | the loop finds the next non-blank or the end |
| `ScriptExecutor.FindTokenEnd` | telephonyprotocols/csdagt/script/SCOMMAND.CPP:330-350 | the loop finds the end of the token |
| `ScriptExecutor.FindClosing` | telephonyprotocols/csdagt/script/SCOMMAND.CPP:404-426 | the loop finds the closing character or the end |
| `ScriptExecutor.Executor.constructor` | telephonyprotocols/csdagt/script/SSCREXEC.CPP:80-140 | the objects of a script at its start |
| `ScriptExecutor.Executor.ParseEnclosed` | telephonyprotocols/csdagt/script/SCOMMAND.CPP:404-426 | the text up to the closing character, or the error |
| `ScriptExecutor.Executor.ParseCharacter` | telephonyprotocols/csdagt/script/SCOMMAND.CPP:181-232 | the character of a code in four radixes, kept in a temporary variable |
| `ScriptExecutor.Executor.ParseVariable` | telephonyprotocols/csdagt/script/SCOMMAND.CPP:234-250 | the content of a variable; unknown ones are empty in skip mode and an error otherwise |
| `ScriptExecutor.Executor.ParseExpression` | telephonyprotocols/csdagt/script/SCOMMAND.CPP:150-171 | computes one term |
| `ScriptExecutor.Executor.ParseCompoundExpression` | telephonyprotocols/csdagt/script/SCOMMAND.CPP:110-148 | the loop with its chain of temporary variables computes the compound expression, and the value read back from the last one is the whole text |
| `ScriptExecutor.Executor.EatLines` | telephonyprotocols/csdagt/script/SCOMMAND.CPP:377-388 | the loop computes the next non-blank over lines |
| `ScriptExecutor.Executor.Eat` | telephonyprotocols/csdagt/script/SCOMMAND.CPP:390-402 | the loop computes the next place that is no comment |
| `ScriptExecutor.Executor.ParseCharacterType` | telephonyprotocols/csdagt/script/SCOMMAND.CPP:303-319 | the name in brackets, nothing, or the missing bracket |
| `ScriptExecutor.Executor.Convert` | telephonyprotocols/csdagt/script/SCOMMAND.CPP:321-328 | the text in the named or the default character set |
| `ScriptCommands.SetBinds` | telephonyprotocols/csdagt/script/SCOMMAND.CPP:469-500 | SET binds its name to the concatenation of its terms and leaves every other variable but temporaries as it was; in skip mode it binds nothing; a long name or the first term with an error ends the script |
| `ScriptCommands.SendWrites` | telephonyprotocols/csdagt/script/SCOMMAND.CPP:545-573 | SEND makes exactly one request: to write the concatenation of its terms, converted with the set named behind it or else that of CHARMAP, cut to what one write takes; in skip mode none, but text that cannot be converted ends the script there too |
| `ScriptExecutor.Executor.WaitItem` | telephonyprotocols/csdagt/script/SCOMMAND.CPP:780-800 | one string and the label beside it |
| `ScriptExecutor.Executor.WaitItems` | telephonyprotocols/csdagt/script/SCOMMAND.CPP:708-749 | the loop over the strings computes the whole list |
| `ScriptExecutor.Executor.StartRead` | telephonyprotocols/csdagt/script/SIO.CPP:344-370 | the strings are looked for in their order, and the first wait is at most thirty seconds |
| `ScriptExecutor.Executor.DoWait` | telephonyprotocols/csdagt/script/SCOMMAND.CPP:676-693 | computes WAIT; a failure makes no request |
| `ScriptExecutor.Executor.DoLoop` | telephonyprotocols/csdagt/script/SCOMMAND.CPP:870-902 | computes LOOP |
| `ScriptExecutor.Executor.GotoLabel` | telephonyprotocols/csdagt/script/SCOMMAND.CPP:1002-1020 | back to a known label, forward to an unknown one, nothing in skip mode |
| `ScriptExecutor.Executor.DoGoto` | telephonyprotocols/csdagt/script/SCOMMAND.CPP:974-1000 | computes GOTO |
| `ScriptExecutor.Executor.CancelIO` | telephonyprotocols/csdagt/script/SIO.CPP:479-498 | nothing is pending and nothing is looked for |
| `ScriptCommands.DtrDoesTheOpposite` | telephonyprotocols/csdagt/script/SCOMMAND.CPP:1102-1140 | in any case of letters, DTR RAISE drops the line and DTR DROP raises it, nothing is pending afterwards, and any other word is an error |
| `ScriptCommands.ReadTakesNoCharset` | telephonyprotocols/csdagt/script/SCOMMAND.CPP:1185-1204 | READ asks for the terminal and nothing else, and a character set in brackets behind it makes the round after the answer end the script |
| `ScriptExecutor.Executor.DoCharmap` | telephonyprotocols/csdagt/script/SCOMMAND.CPP:1268-1285 | computes CHARMAP |
| `ScriptCommands.ExitEnds` | telephonyprotocols/csdagt/script/SCOMMAND.CPP:1328-1370 | EXIT with an expression that is a number ends the script with it: zero is success, negative numbers are the code, positive ones an error; in skip mode the script goes on |
| `ScriptCommands.ExitAlone` | telephonyprotocols/csdagt/script/SCOMMAND.CPP:1328-1370 | EXIT alone ends the script with success |
| `ScriptCommands.NumeralReads` | telephonyprotocols/csdagt/script/SCOMMAND.CPP:1328-1370 | reading a number that has been written in decimal gives it back |
| `ScriptNumbers.CodeReads` | telephonyprotocols/csdagt/script/SCOMMAND.CPP:181-232 | a code written in any of the four radixes, with or without prefix, is the character with that number; zero is none, and a number too large is an error or a panic |
| `ScriptNumbers.IntegerReads` | telephonyprotocols/csdagt/script/SCOMMAND.CPP:252-276 | a count is read as it is written, up to half a million, behind any blanks |
| `ScriptNumbers.SecondsRead` | telephonyprotocols/csdagt/script/SCOMMAND.CPP:278-301 | seconds are read as they are written, with any number of decimals, up to half a million |
| `ScriptWords.CharactersAre` | telephonyprotocols/csdagt/script/SCOMMAND.CPP:352-375 | blanks and line ends separate tokens; letters, digits and three signs make them up |
| `ScriptWords.WordsMean` | telephonyprotocols/csdagt/script/SSCREXEC.CPP:256-264 | in any case of letters each of the nine words stands for its command, and no other word does |
| `ScriptWords.RoundRunsCommand` | telephonyprotocols/csdagt/script/SSCREXEC.CPP:246-268 | a round that finds neither a label nor the closing brace of its loop runs the command whose word stands there; another word ends the script |
| `ScriptWords.LoopCounts` | telephonyprotocols/csdagt/script/SCOMMAND.CPP:870-902 | LOOP with a number and an opening brace, with any blanks, lines and comments between, starts that many rounds behind the brace and changes nothing else; nested loops, zero and more than ten thousand rounds are errors |
| `ScriptWords.GotoGoes` | telephonyprotocols/csdagt/script/SCOMMAND.CPP:974-1020 | GOTO goes back to the place of a known label but for the offset, searches for an unknown one, panics if that is too long, and does nothing in skip mode |
| `ScriptWords.SetNeedsEquals` | telephonyprotocols/csdagt/script/SCOMMAND.CPP:469-500 | SET without an equals sign behind its name is an error, and at the end of its line a panic |
| `ScriptWaiting.WaitAsks` | telephonyprotocols/csdagt/script/SCOMMAND.CPP:676-693 | WAIT with its seconds and any list of strings asks the port for exactly that long, thirty seconds at most on the first wait, and looks for the strings in their order with their labels; nothing else changes but temporaries |
| `ScriptWaiting.EmptyStringPanics` | telephonyprotocols/csdagt/script/SCOMMAND.CPP:620-626 | a string of no bytes panics |
| `ScriptExecutor.Executor.CleanupLastCommand` | telephonyprotocols/csdagt/script/SSCREXEC.CPP:741-751 | a WAIT that was not skipped is cancelled |
| `ScriptExecutor.Executor.ServiceSkipReqs` | telephonyprotocols/csdagt/script/SCOMMAND.CPP:1047-1057 | the mode toggles exactly if asked |
| `ScriptExecutor.Executor.ParseLabel` | telephonyprotocols/csdagt/script/SCOMMAND.CPP:1022-1045 | computes the label, its place, and the end of skip mode |
| `ScriptExecutor.Executor.CheckLoop` | telephonyprotocols/csdagt/script/SCOMMAND.CPP:904-929 | computes the closing brace |
| `ScriptExecutor.Executor.FindCommand` | telephonyprotocols/csdagt/script/SSCREXEC.CPP:256-264 | the loop over the commands finds the one whose word stands there |
| `ScriptExecutor.Executor.ProcessNextLine` | telephonyprotocols/csdagt/script/SSCREXEC.CPP:246-268 | one round computes the step; a round that fails makes no request |
| `ScriptExecutor.Executor.ProcessScript` | telephonyprotocols/csdagt/script/SSCREXEC.CPP:228-269 | the loop ends, by jumps allowed and then the measure, and computes the run up to rest or the end of the script |
| `ScriptExecutor.Executor.CompletedScript` | telephonyprotocols/csdagt/script/SSCREXEC.CPP:382-414 | computes the end of the script |
| `ScriptExecutor.Executor.CompletedWrite` | telephonyprotocols/csdagt/script/SSCREXEC.CPP:271-309 | behind the automatic carriage return the prompt is waited for again; an error ends the script |
| `ScriptExecutor.Executor.CompletedRead` | telephonyprotocols/csdagt/script/SSCREXEC.CPP:311-380 | the first timeout sends the carriage return, later ones go on, other errors end the script |
| `ScriptExecutor.Executor.FoundString` | telephonyprotocols/csdagt/script/SSCREXEC.CPP:340-349 | on to the label at the index |
| `ScriptExecutor.Executor.CommReadComplete` | telephonyprotocols/csdagt/script/SIO.CPP:199-286 | computes the completion of a read, with the scan of what was received |
| `ScriptExecutor.Executor.CommWriteComplete` | telephonyprotocols/csdagt/script/SIO.CPP:288-307 | computes the completion of a write |
| `ScriptExecutor.Executor.ChatTimeout` | telephonyprotocols/csdagt/script/SIO.CPP:318-342 | a timeout belongs to the write if one is pending, else to the read |
| `MockSy.QueueOk` | hwpluginsimulation/mocksy/src/cmocksyengine.cpp:164-187 | queueing keeps the waiting queue empty or headed by an expected command |
| `MockSy.MatchedOk` | hwpluginsimulation/mocksy/src/cmocksyengine.cpp:122-158 | a match takes the first expected command and releases exactly the completions behind it |
| `MockSy.TickOk` | hwpluginsimulation/mocksy/src/cmocksyengine.cpp:208-234 | a callback delivers what is due and loses nothing |
| `MockSy.DiscardOk` | hwpluginsimulation/mocksy/src/cmocksyengine.cpp:250-272 | a reset discards exactly what was waiting or pending |
| `MockSy.EveryEventAccountedFor` | hwpluginsimulation/mocksy/src/cmocksyengine.cpp:92-272 | over every run the commands accepted since the last reset are the first ones expected, in order, and every event ever queued is waiting, pending, matched, delivered or discarded, one of these and once |
| `MockSy.CausalOrder` | hwpluginsimulation/mocksy/src/cmocksyengine.cpp:92-187 | over every run a completion has been released exactly when every expected command queued ahead of it since the last reset has been matched |
| `MockSyAnswers.CommandsAreAnswered` | hwpluginsimulation/mocksy/src/cmocksyengine.cpp:92-158 | a command is taken, and answered with the result of its expectation, exactly if the next expected command has its number and accepts its data where that is checked; any other is ignored, or answered as corrupt with the failure recorded and both queues empty |
| `MockSyAnswers.RunsAreRecorded` | hwpluginsimulation/mocksy/src/cmocksyengine.cpp:92-272 | over every run the commands matched since the last reset are the ones taken, number by number, the log is what was queued, the engine is paused exactly if it was last told so, and a failure is on record exactly if a command was refused since the session was closed |
| `MockSyAnswers.PausesHold` | hwpluginsimulation/mocksy/src/cmocksyengine.cpp:208-234 | over every run a paused engine delivers nothing, and pausing or resuming twice is an error |
| `MockSyAnswers.NoticesAre` | hwpluginsimulation/mocksy/src/cmocksyengine.cpp:122-234 | listeners hear of a failure with every refused command, and that all is handled with every command taken and callback that leaves both queues empty |
| `MockSy.CompletionsAreOnTime` | hwpluginsimulation/mocksy/src/cmocksyengine.cpp:208-234 | over every run a completion is delivered after as many callbacks as its delay says and those that zero delays held up in the meantime, in order of time and then of queueing; no pending one is overdue, and the timer runs while one is pending |
| `MockSy.HeldByZeroDelay` | hwpluginsimulation/mocksy/src/cmocksyengine.cpp:208-234 | a callback that counts nothing down has a completion with delay zero in front, and delivers it |
| `MockSy.DelaysAreKept` | hwpluginsimulation/mocksy/src/cmocksyengine.cpp:208-234 | over every run with positive delays a completion is delivered by exactly the callback its delay says |
| `MockSy.Engine.constructor` | hwpluginsimulation/mocksy/src/cmocksyengine.cpp:25-39 | a new engine is in the initial state |
| `MockSy.Engine.QueueEvent` | hwpluginsimulation/mocksy/src/cmocksyengine.cpp:164-187 | computes the queueing of an event and starts the timer if needed |
| `MockSy.Engine.ExecuteCommand` | hwpluginsimulation/mocksy/src/cmocksyengine.cpp:92-158 | a match returns or leaves with the result queued, an ignorable mismatch changes nothing, any other fails and resets |
| `MockSy.Engine.ReleaseFirst` | hwpluginsimulation/mocksy/src/cmocksyengine.cpp:132-141 | the loop releases the completions behind the first command, in order |
| `MockSy.Engine.TimerCallback` | hwpluginsimulation/mocksy/src/cmocksyengine.cpp:208-234 | computes the callback; a paused engine does nothing |
| `MockSy.Engine.Failure` | hwpluginsimulation/mocksy/src/cmocksyengine.cpp:240-245 | the failure is recorded and notified before the reset |
| `MockSy.Engine.Reset` | hwpluginsimulation/mocksy/src/cmocksyengine.cpp:250-272 | counting down until empty ends and computes the reset |
| `MockSy.Engine.PauseCompletion` | hwpluginsimulation/mocksy/src/cmocksyengine.cpp:323-328 | pausing twice is an error and changes nothing |
| `MockSy.Engine.ResumeCompletion` | hwpluginsimulation/mocksy/src/cmocksyengine.cpp:330-335 | resuming twice is an error and changes nothing |
| `MockSy.Engine.SessionClosed` | hwpluginsimulation/mocksy/inc/cmocksyengine.h:200-204 | the failure is forgotten and the queues are emptied |

## Left out

- Heap objects: contexts, flows and requests of GUQoS are records in map fields of `Nif`, named by numbers that are never reused, instead of objects with pointers; links are proved consistent (`Linked`, `NoDangling`), aliasing of pointers is not modelled.
- Upcalls that call back: `RequestComplete`, `BlockFlow` and the others are recorded and taken to return without calling into the module.
- `CFlowData::SetContext` with no context: nothing calls it, so no live flow is without a context.
- Contents of QoS parameters: of a negotiated QoS only the traffic class and the handling priority that rank contexts are kept; `parameters.cpp` is fieldwise copying.
- Extension data, SBLP tokens, PCO buffers and IMS flags: library byte formats; whether a request carries an SBLP token is a flag.
- Several interfaces: `CNifManager` and the search for a channel on other interfaces; one interface is modelled, its flows are those opened on it.
- `SetEvents`, `RegisterEventHandler`, `SetDefaultQoS`: `Control` calls whose result is ignored.
- `CDeleteRequest` is never created in the files of this component; it is modelled as a call of its own, `ScheduleDeletion`.
- Out-of-memory paths, logging and tracing, and the handles of timers.
- Identifiers of contexts repeated by the network are looked up in list order, as the code does; nothing is said about which of them an event means.
- The iterator of `TTFTInfo` after eight calls: `CopyFilters` stops at eight filters, the size of the table.
- GuqosTheorems.FilterIdentityIsUnique: assumes a network that reports for a context only filters it reported before or the one in flight, and calls that are made while `Load` is below 256; without the second the property can be false, and `GuqosIdentity.IdentitiesUniqueExactly` says exactly when. A network that reports filters never sent may repeat identities at will, and the code takes them over.
- MockSy.CompletionsAreOnTime: delays are not negative, which their use as counts of ticks takes for granted; TDeltaQue is system code that is not part of this model, and is read as a queue that counts down at its front and not below zero.
- ScriptRest.ComesToRest: assumes that every WAIT has a list that is passed when it is read on from where the WAIT stands, and that the rounds that go back leave nothing on their line; `ScriptRest.LaidOutComesToRest` takes the second from the text, and `ScriptExamples.SkippedWaitNeverReturns` is a script without the first. For runs that read text that is not at their position, `ScriptRest.ComesToRestOutOfStep` asks for more. What holds without any of this is `ScriptRest.RestsExactly`.
- ScriptLayout.LabelsKeepTheirPlacesByLayout: the layout is sufficient and not necessary, since a script may break it on lines that no run reaches; `ScriptLabels.LabelsKeepTheirPlaces` asks it of the lines that a run goes back from.
- Which context answers: a request takes the context from the reply, as the code does; nothing is said about runs in which another context than the one asked replies.
- Overrides in subclasses of `CMockSYEngine`: the base class is modelled; `CanIgnoreUnexpectedIpc` and the comparison of command data are arguments.
- `CheckAndUpdateTransId`, the rotating log and the sessions of MockSY.
- Case folding and letters of scripts: those of ASCII; folding in the chatter is any function. Character conversion (`SCHCONV`) is any function of text and character set.
- Exponents in the number of a WAIT, and code units that are not characters by themselves.
- Counters of 32 bits in the chatter and the reader (characters received, lines read); the wrap of the numbers of temporary variables is modelled.
- `ScanScriptL`, the dialog server and the answers of READ: after READ the machine waits for the terminal.
- The values of the error codes and their conversion at the end of a script; `Error` names them.
- ScriptExecutor.Executor.CompletedScript: leaves out the check that the request is still pending, which its callers meet here, and the cancelling of the terminal.
- ScriptExecutor.Executor.CompletedWrite: leaves out data waiting to be written for the terminal. The initialization flag is never set in the repository, so its branch is not taken and not modelled.
- ScriptExecutor.Executor.CompletedRead: leaves out the branch of the initialization flag, which is never set in the repository.
- ScriptExecutor.Executor.CommReadComplete: leaves out passing received characters on to the terminal.
- Time: the timers of the port are events that come when they like.
- ScriptExecutor.Executor.ProcessScript: states the result for scripts that come to rest after some number of jumps back to labels; one that jumps back for ever does not end, and a method here must. Each of its rounds is `ScriptExecutor.Executor.ProcessNextLine`, without that condition.
- An item of a WAIT that takes no character is reported as `Hung`; the code goes round until temporary variables use up memory or their numbers.
- The serial port itself: `CommReadOneOrMore`, pauses before sending, RTS and DTR signals beyond the requests made.
- Dial-up, dial-in and direct connection states, C32, BCA and the mesh-machine code of the packet data player.
