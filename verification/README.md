# Metering, protocol and settlement model

This project models the layer of the system that runs a provider's client, meters what it reports,
serves its tool calls and settles the attempt, together with the small stream and list algorithms around
it. Each component is a value state with a step function, a class or method that runs it the way the code
does and is proved equal to that function, and lemmas about every run. What an ordinary run comes to is
stated apart from those functions, by the fields of the frames, reports and events themselves.

| module | models |
|---|---|
| `ClaudeUsage`, `ClaudeReports` | the per-message token meter of a Claude attempt, and what its reports leave in it key by key |
| `CallKey`, `ClaudeCodec` | the key of a tool call and the stream-json control codec with its identity tables |
| `ClaudeQuota`, `ClaudeExchange`, `ClaudeEndings`, `ClaudeOutcome`, `ClaudeScenario` | quota evidence, the exchange with its tool handler, what each frame makes of it, the merging of exchange, evidence and settlement into one result, and two concrete attempts |
| `ClientStdout`, `ClientSettlement`, `ClientOutcomes` | the JSONL reader, the raced one-shot settlement of a supervised client, and the outcome each run is given |
| `UsagePublisher`, `UsageEmissions` | bounded delivery of usage observations to a faulty sink, and which are emitted |
| `AdkStream`, `AdkReadings`, `AdkBudget`, `AdkVerdicts` | metering an ADK event stream and the budget gate, one budget over two calls, and both told by fields, caps and answers |
| `RunEvents`, `RunProgress` | the resumable event stream: server log, wire frames, reconnecting client, and that it gets on |
| `ActivityGroups`, `ActivityMeaning`, `DiffParser`, `GitPatches`, `WorktreeStatus` | greedy grouping, unified-diff parsing with Git's own headers, Git status parsing and candidate bytes |
| `Prelude`, `Framing`, `Text`, `Decimals` | options and JSON values, cutting at a separator, lines and white space, numerals |

Races are modelled as interleavings: one event is the stretch between two suspension points, and a run is
any sequence of events. What the outside decides (chunks, faults, timeouts, clocks, broker replies, sink
outcomes, prices, decoders) is an argument of the step. JSON is a datatype, SHA-256 is a function assumed
injective where that matters, and strings hold Unicode scalar values.

Five places where the code and its intent, or its documentation, part are kept as the code has them. Each
is stated by a concrete input and an exact condition:

- a closing usage report can lower an earlier reading (`ClosingCanLowerInput`; `ClosingKeepsInputIff`,
  `ClosingKeepsOutputIff`);
- a role request can lose measured usage: when an answer reports more cached than input tokens, when two answers
  overflow the counters, when the accepted output or a request id reads as a credential, and when the repair call
  is cancelled (`ExcessCacheLosesUsage`, `OverflowLosesUsage`, `UndurableOutputLosesUsage`,
  `UndurableIdLosesUsage`, `CancelledRepairLosesUsage`; `UsageIsCarriedIff`);
- the server may send an event the browser can never take, because of its sequence or of its length, and a burst
  it could take but for its arriving in one read (`UnsafeSequenceStops`, `LongEventStops`, `BurstStops`;
  `UncutBodyDeliversIff`, `EveryCutDeliversIff`);
- joined lineage keys can collide (`BarsCanCollide`; `KeyNamesLineageIff`);
- a cancellation that arrives while a session is being closed loses the attempt's result and its quota
  evidence (`CancelledCloseLosesQuota`; `EscapesIff`, `QuotaDominates`).

## Model

| member | source | states |
|---|---|---|
| ClaudeUsage.UsageMeter.SumMessages | apps/orchestrator/src/forge/agents/claude_gateway.py:892-917 | the loop's total is the sum over all messages, and its two flags say whether every message, and whether any, measured the dimension |
| ClaudeUsage.UsageMeter.Aggregate | apps/orchestrator/src/forge/agents/claude_gateway.py:847-885 | adds up each of the seven dimensions: cache read and created over the messages that know them, the rest only when all do |
| ClaudeUsage.UsageMeter.ObserveAssistant | apps/orchestrator/src/forge/agents/claude_gateway.py:806-891 | one live report moves the meter as specified, and any report that is not merged leaves every field as it was |
| ClaudeUsage.UsageMeter.Observe | apps/orchestrator/src/forge/agents/claude_gateway.py:744-805 | the closing report moves the meter as specified, and a refused or silent one leaves every field as it was |
| ClaudeUsage.UsageIsConserved | apps/orchestrator/src/forge/agents/claude_gateway.py:744-945 | after any mixture of live and closing reports, accepted or refused, the counters of the meter and of each message balance |
| ClaudeUsage.KnownInputIsItsParts | apps/orchestrator/src/forge/agents/claude_gateway.py:744-945 | input is known exactly when uncached is, then equals uncached plus cache read plus cache created within 63 bits, and known cached is at most known input |
| ClaudeUsage.CachedChecksNeverFire | apps/orchestrator/src/forge/agents/claude_gateway.py:744-891 | no reachable meter refuses a report because cached exceeds input, in either entry point |
| ClaudeUsage.MergeIsConfluent | apps/orchestrator/src/forge/agents/claude_gateway.py:806-891 | two accepted interleavings that keep each message's own order end in the same meter |
| ClaudeUsage.LiveReadingsNeverFall | apps/orchestrator/src/forge/agents/claude_gateway.py:806-891 | two known live readings of input, output or cached never go down, even with unmeasured stretches between them |
| ClaudeUsage.ClosingKeepsCached | apps/orchestrator/src/forge/agents/claude_gateway.py:744-805 | the closing report never lowers any earlier known cached reading |
| ClaudeUsage.ClosingKeepsInputIff | apps/orchestrator/src/forge/agents/claude_gateway.py:744-805 | an earlier input reading survives every closing report exactly when input is known on arrival or the cache traffic alone reaches that reading |
| ClaudeUsage.ClosingKeepsOutputIff | apps/orchestrator/src/forge/agents/claude_gateway.py:744-805 | the same for output: known on arrival, or an earlier reading of zero |
| ClaudeUsage.ClosingCanLowerInput | apps/orchestrator/src/forge/agents/claude_gateway.py:744-805 | a run whose input reads 100 and, after the closing report, 0 |
| ClaudeUsage.ReplayKeepsCounters | apps/orchestrator/src/forge/agents/claude_gateway.py:806-891 | delivering an accepted report twice is never refused and changes neither input, output nor cached |
| ClaudeUsage.ReasoningCanReappear | apps/orchestrator/src/forge/agents/claude_gateway.py:806-891 | a regressing reasoning count is dropped and its repetition then stands, so reasoning is no part of the claims above |
| ClaudeReports.MessageIs | apps/orchestrator/src/forge/agents/claude_gateway.py:806-872 | read off the keys the provider writes, with their second spellings: a report is merged exactly when it lowers no counter of its message and stays in range, and the message then holds what it says and, for the rest, what was known |
| ClaudeReports.LiveReportIs | apps/orchestrator/src/forge/agents/claude_gateway.py:806-891 | in any balanced meter such a report puts its message into the table, and input, output and cached then read the sums over all messages |
| ClaudeReports.ReadingsAreSums | apps/orchestrator/src/forge/agents/claude_gateway.py:806-917 | after a run of first reports the meter reads the sums over the reports of input with its cache traffic, output and cached, each known when every report says its part |
| ClaudeReports.ClosingIs | apps/orchestrator/src/forge/agents/claude_gateway.py:744-805 | a closing report that says something, in either spelling, is taken exactly when it lowers nothing, and the meter then holds what it says |
| ClaudeReports.ClosingAlone | apps/orchestrator/src/forge/agents/claude_gateway.py:744-805 | on a fresh meter a full closing report reads as its own counts |
| CallKey.EscapeIsPrefixFree | apps/orchestrator/src/forge/agents/claude_protocol.py:238-238 | no character's ASCII JSON escape is a prefix of another's, surrogate pairs included |
| CallKey.DumpsIsInjective | apps/orchestrator/src/forge/agents/claude_protocol.py:238-238 | different string or integer ids are written differently, and a string never reads as a number |
| CallKey.KeyTextIsInjective | apps/orchestrator/src/forge/agents/claude_protocol.py:238-239 | the hashed text determines both the JSON-RPC id and the tool-use id |
| ClaudeCodec.ClaudeStreamCodec.ToolsCall | apps/orchestrator/src/forge/agents/claude_protocol.py:215-269 | a call is recorded in all four tables under its key, or rejected with every table untouched |
| ClaudeCodec.ClaudeStreamCodec.Message | apps/orchestrator/src/forge/agents/claude_protocol.py:174-287 | answers exactly the messages its method and the handshake order permit, and changes nothing for any other |
| ClaudeCodec.ClaudeStreamCodec.Control | apps/orchestrator/src/forge/agents/claude_protocol.py:143-172 | takes the request id before the later checks, so a rejected request has still spent it |
| ClaudeCodec.ClaudeStreamCodec.Take | apps/orchestrator/src/forge/agents/claude_protocol.py:51-67 | receives one line: nothing after a terminal, and the terminal only with its identity, outcome and origin checked |
| ClaudeCodec.AdmissibleIff | apps/orchestrator/src/forge/agents/claude_protocol.py:238-258 | the replay checks pass exactly when both ids are new or the call repeats a recorded one in name, arguments and tool-use id |
| ClaudeCodec.RunStaysSound | apps/orchestrator/src/forge/agents/claude_protocol.py:143-269 | in every reachable state tool-use ids and call keys are inverse, every key is the hash of a recorded MCP id and its tool-use id, the handshake flags are ordered, and calls plus handshake steps number at most the requests, themselves at most 1024 |
| ClaudeCodec.OneMcpId | apps/orchestrator/src/forge/agents/claude_protocol.py:238-258 | a recorded key belongs to exactly one MCP id and one tool-use id |
| ClaudeCodec.CallLimitIsUnreachable | apps/orchestrator/src/forge/agents/claude_protocol.py:253-254 | calls number at most requests minus three, so the check for 1024 calls never fires |
| ClaudeCodec.RejectionKeepsAllButRequests | apps/orchestrator/src/forge/agents/claude_protocol.py:51-269 | a rejected line changes nothing but at most one request id |
| ClaudeCodec.TerminalAbsorbs | apps/orchestrator/src/forge/agents/claude_protocol.py:51-53 | after the terminal frame no sequence of lines changes the codec |
| ClaudeCodec.ResultIsTakenIff | apps/orchestrator/src/forge/agents/claude_protocol.py:89-141 | before the terminal a result frame is taken, and recorded, exactly when it is of this session, for a human turn, holds no foreign key, and is an error or a finished success with an object output |
| ClaudeCodec.TerminalIsGenuine | apps/orchestrator/src/forge/agents/claude_protocol.py:51-141 | in every run the recorded terminal is such a frame, and one of those received |
| ClaudeCodec.OrdinaryResultsAreTaken | apps/orchestrator/src/forge/agents/claude_protocol.py:89-141 | the success frame with any object output and the error frame with any subtype are taken, whatever telemetry they carry |
| ClaudeCodec.ForeignResultIsRejected | apps/orchestrator/src/forge/agents/claude_protocol.py:89-141 | a result of another session is rejected in every state |
| ClaudeCodec.OtherFramesAreQuietOrForeign | apps/orchestrator/src/forge/agents/claude_protocol.py:51-87 | stream frames and well-formed quota notices pass in silence, and frames of no known kind are rejected |
| ClaudeCodec.HandshakeIsAnsweredIff | apps/orchestrator/src/forge/agents/claude_protocol.py:143-214 | each handshake message, written out, is answered exactly at its turn and once, and sets its own flag and no other |
| ClaudeCodec.SpentIdIsRejected | apps/orchestrator/src/forge/agents/claude_protocol.py:143-158 | a request that repeats an id, has none, or comes after 1024 others is rejected and changes nothing |
| ClaudeCodec.CallIsServedIff | apps/orchestrator/src/forge/agents/claude_protocol.py:143-269 | in any reachable state the frame of a call of a permitted tool is served, under the hash of its two ids and with its own name and arguments, exactly when the handshake is complete and it is new or the recorded call |
| ClaudeCodec.CallAcceptedIff | apps/orchestrator/src/forge/agents/claude_protocol.py:215-269 | in any reachable state a call of a permitted tool is accepted exactly when the handshake is complete and it is new or a full replay, and a replay changes no table |
| ClaudeCodec.KeyNamesOneCall | apps/orchestrator/src/forge/agents/claude_protocol.py:238-239 | two calls share a key exactly when they share JSON-RPC id and tool-use id |
| ClaudeCodec.CallsStand | apps/orchestrator/src/forge/agents/claude_protocol.py:240-269 | a recorded call is never overwritten, and what the handler is asked is what is recorded |
| ClaudeCodec.HandshakePrecedesCalls | apps/orchestrator/src/forge/agents/claude_protocol.py:180-221 | every served call is preceded by an answered initialize, then the notification, then the tool listing |
| ClaudeQuota.QuotaState.Keep | apps/orchestrator/src/forge/agents/claude_gateway.py:707-715 | keeps the first observation and the longest reset, and changes nothing when the extended evidence would be ill-formed |
| ClaudeQuota.QuotaState.Notify | apps/orchestrator/src/forge/agents/claude_gateway.py:668-681 | retains evidence only for a rejected window this installation is bound to |
| ClaudeQuota.QuotaState.End | apps/orchestrator/src/forge/agents/claude_gateway.py:683-705 | classifies an erroneous terminal at its first arrival, and refuses one that contradicts held evidence |
| ClaudeQuota.NotificationExtends | apps/orchestrator/src/forge/agents/claude_gateway.py:668-681 | a notice never clears evidence, never changes its first observation and never brings its reset forward |
| ClaudeQuota.TerminalExtends | apps/orchestrator/src/forge/agents/claude_gateway.py:683-715 | neither does a terminal, and with evidence the only failure it can yield is quota |
| ClaudeQuota.RetainSucceedsIff | apps/orchestrator/src/forge/agents/claude_gateway.py:707-715 | retaining fails exactly when a first reset arrives that is after the new observation and not after the first one, which takes a clock that ran backwards |
| ClaudeQuota.RetainKeepsLongest | apps/orchestrator/src/forge/agents/claude_gateway.py:707-715 | what is retained keeps the first observation and the later of the resets that lay ahead when observed |
| ClaudeExchange.Exchange.Call | apps/orchestrator/src/forge/agents/claude_gateway.py:1233-1262 | the handler: unadmitted and misfitting calls change nothing, a filed key is answered from the table, a new one is counted before it is sent and filed only with a receipt |
| ClaudeExchange.Exchange.Pass | apps/orchestrator/src/forge/agents/claude_gateway.py:1372-1383 | a frame the codec rejects, and a served call the handler refuses, both raise; every other frame is silent or has a reply |
| ClaudeExchange.Exchange.OnGreeting | apps/orchestrator/src/forge/agents/claude_gateway.py:1272-1297 | only exact handshake requests and the one successful initialize response pass, within 64 frames, each reply sent before the next receive |
| ClaudeExchange.Exchange.OnSettings | apps/orchestrator/src/forge/agents/claude_gateway.py:1305-1345 | at most one init frame, and that after the handshake; otherwise only handshake requests until the settings response, within 128 frames |
| ClaudeExchange.Exchange.CheckSettings | apps/orchestrator/src/forge/agents/claude_gateway.py:1338-1363 | settings, then a noted init frame, are checked before the user turn is sent |
| ClaudeExchange.Exchange.OnAwaiting | apps/orchestrator/src/forge/agents/claude_gateway.py:1364-1379 | before admission only handshake frames and one matching init frame pass |
| ClaudeExchange.Exchange.Gather | apps/orchestrator/src/forge/agents/claude_gateway.py:1384-1389 | evidence is gathered from the frame before the meter or the reply can fail |
| ClaudeExchange.Exchange.Finish | apps/orchestrator/src/forge/agents/claude_gateway.py:1407-1437 | the terminal closes the meter, refuses with the evidence, or decides |
| ClaudeExchange.Exchange.OnWork | apps/orchestrator/src/forge/agents/claude_gateway.py:1380-1437 | codec, evidence, meter, budget, reply and terminal, in that order |
| ClaudeExchange.Exchange.Converse | apps/orchestrator/src/forge/agents/claude_gateway.py:1218-1438 | the three loops over any script of receives compute the exchange's run |
| ClaudeExchange.EachCallIsDispatchedOnce | apps/orchestrator/src/forge/agents/claude_gateway.py:1233-1262 | over every run no key is sent to the broker twice, and the sent calls and the named checks among them are counted exactly and stay within their limits |
| ClaudeExchange.ReturnsAgree | apps/orchestrator/src/forge/agents/claude_gateway.py:1241-1262 | every receipt returned for a key is the receipt of the one dispatch of that call |
| ClaudeExchange.ReplayIsAnsweredFromTheTable | apps/orchestrator/src/forge/agents/claude_gateway.py:1241-1245 | a replay the codec accepts, a served call whose key was recorded before, is answered with the receipt of its first dispatch and sends nothing, so the handler's own conflict check is dead |
| ClaudeExchange.RecordedCallsHaveReceipts | apps/orchestrator/src/forge/agents/claude_gateway.py:1233-1262 | while the exchange has not ended, every call the codec has recorded has a receipt filed |
| ClaudeExchange.SpentQuotaStopsWork | apps/orchestrator/src/forge/agents/claude_gateway.py:1233-1240 | once evidence is held it stays through every continuation, nothing more is dispatched, and the exchange can only raise or refuse with quota and that evidence |
| ClaudeExchange.HandlerIsReachedOnlyAdmitted | apps/orchestrator/src/forge/agents/claude_gateway.py:1234-1382 | the handler runs only after a settings response that matched and an init frame that matched were received, the user turn was sent and the handshake completed, so its own guard for that never fires |
| ClaudeExchange.TurnFollowsSettings | apps/orchestrator/src/forge/agents/claude_gateway.py:1305-1363 | the user turn is sent only once a settings response that matched has been received |
| ClaudeExchange.AdmissionComesFirst | apps/orchestrator/src/forge/agents/claude_gateway.py:1264-1382 | in every run the settings match precedes the user turn and admission, and both precede every tool call |
| ClaudeExchange.SetupIsNoCall | apps/orchestrator/src/forge/agents/claude_gateway.py:498-532 | a frame the setup recognisers let through is never a tool call |
| ClaudeExchange.CodecStaysSound | apps/orchestrator/src/forge/agents/claude_gateway.py:1264-1438 | the codec's table and counting invariants hold throughout every exchange |
| ClaudeEndings.GreetingEnds | apps/orchestrator/src/forge/agents/claude_gateway.py:1272-1304 | the greeting ends with the successful response to the first request, and any other response raises |
| ClaudeEndings.HandshakeGoesOn | apps/orchestrator/src/forge/agents/claude_gateway.py:1272-1337 | a handshake message the codec answers is answered and the setup waits on, within 64 frames while greeting and 128 while configuring |
| ClaudeEndings.SettingsOpen | apps/orchestrator/src/forge/agents/claude_gateway.py:1305-1363 | the settings response opens the attempt exactly when its settings match and an init frame noted before came after the handshake and matches; a refused request reads as no settings under operator trust only |
| ClaudeEndings.InitAdmits | apps/orchestrator/src/forge/agents/claude_gateway.py:1312-1379 | an init frame is noted once, after the handshake, or admits an open attempt exactly when it matches |
| ClaudeEndings.DecidesIff | apps/orchestrator/src/forge/agents/claude_gateway.py:1380-1437 | from any run an input makes the exchange decide exactly when it is an accepted success result of an admitted attempt, its usage is not refused and within both caps, no evidence is held, and its one-key output decodes as that decision; a forbidden role and an undecodable output end it likewise |
| ClaudeEndings.DecisionHasResult | apps/orchestrator/src/forge/agents/claude_gateway.py:1380-1437 | every decided run holds the frame that decided it, with all of that true where it was received |
| ClaudeEndings.ErrorEnds | apps/orchestrator/src/forge/agents/claude_gateway.py:1384-1427 | an accepted error result is refused with its kind, or with quota and the evidence once the allowance is known to be spent, and raises when its kind contradicts that, its status is malformed or it is unaffordable |
| ClaudeEndings.StreamGoesOn | apps/orchestrator/src/forge/agents/claude_gateway.py:1380-1406 | stream frames change nothing, and an assistant report moves the meter, or raises when it is refused or leaves a cap |
| ClaudeEndings.NoticeGoesOn | apps/orchestrator/src/forge/agents/claude_gateway.py:668-681 | the first rejection of a bound window is kept with its time and its reset if that lies ahead, and any other notice changes nothing |
| ClaudeEndings.NewCallIsSentIff | apps/orchestrator/src/forge/agents/claude_gateway.py:1233-1262 | a served call not yet filed is sent to the broker exactly when no evidence is held, its tool and arguments are permitted and a call and a check are left; its receipt is filed and returned, and a fault of broker or reply raises |
| ClaudeOutcome.Merge | apps/orchestrator/src/forge/agents/claude_gateway.py:1014-1178 | the result as it is reassigned by handlers, settlement and telemetry policy is the specified merging |
| ClaudeOutcome.QuotaDominates | apps/orchestrator/src/forge/agents/claude_gateway.py:1014-1178 | with evidence held, the final result carries that evidence under quota, uncertain, interrupted or deadline, and never a decision, however the exchange ends and the session settles: exactly unless the settlement itself is cancelled |
| ClaudeOutcome.EscapesIff | apps/orchestrator/src/forge/agents/claude_gateway.py:1102-1140 | the result is lost exactly when the settlement is cancelled; building the role rejection never raises in turn, because a forbidden decision implies no evidence |
| ClaudeOutcome.SucceedsIff | apps/orchestrator/src/forge/agents/claude_gateway.py:1102-1178 | an attempt succeeds exactly when the exchange decided, the session stopped with a confirmed, complete settlement and the policy allows it |
| ClaudeOutcome.UnsureStopIsUncertain | apps/orchestrator/src/forge/agents/claude_gateway.py:1120-1140 | a failed close or an unconfirmed stop always reads as uncertain |
| ClaudeOutcome.RaisedAsIs | apps/orchestrator/src/forge/agents/claude_gateway.py:1014-1140 | with a confirmed stop and no evidence each fault is reported as its own kind of failure, and only an interruption is thrown |
| ClaudeOutcome.RefusedAsIs | apps/orchestrator/src/forge/agents/claude_gateway.py:1014-1140 | a refusal is returned with its kind, and a forbidden role as a broken protocol that names it |
| ClaudeOutcome.DecidedAsIs | apps/orchestrator/src/forge/agents/claude_gateway.py:1120-1178 | a decision is returned when the client stopped cleanly and the policy allows it, and otherwise the failure that says which of the two was missing |
| ClaudeOutcome.NeverRanAsIs | apps/orchestrator/src/forge/agents/claude_gateway.py:1014-1140 | an attempt without a session is reported as what kept it from one |
| ClaudeScenario.CancelledCloseLosesQuota | apps/orchestrator/src/forge/agents/claude_gateway.py:1014-1178 | a concrete script of nine receives, with one call dispatched and answered and a rejected window reported, ends holding evidence; cancelled while closing the attempt is lost, and closed it carries the evidence |
| ClaudeScenario.DispatchesOnce | apps/orchestrator/src/forge/agents/claude_gateway.py:1233-1262 | in that script the admitted call is recorded by the codec, dispatched to the broker once and answered |
| ClaudeScenario.ScriptDecides | apps/orchestrator/src/forge/agents/claude_gateway.py:1218-1438 | the same script with a success result in place of the notice ends decided, and settled by a clean report under an allowing policy it returns that decision |
| ClientStdout.StdoutReader.AdmitLines | apps/orchestrator/src/forge/agents/client_process.py:714-740 | cutting the buffer line by line admits the lines up to the first refused one and keeps the unfinished rest |
| ClientStdout.StdoutReader.Stdout | apps/orchestrator/src/forge/agents/client_process.py:714-740 | the read loop ends with the byte count, frames and failure of the specified reader |
| ClientStdout.FramingIgnoresChunks | apps/orchestrator/src/forge/agents/client_process.py:714-838 | for any splitting into reads the stream is accepted exactly when it is within the limit, newline-terminated and made of fitting, decodable lines; what is admitted is a leading part of the lines, all of them on acceptance |
| ClientStdout.SameStreamSameFrames | apps/orchestrator/src/forge/agents/client_process.py:714-838 | two splittings of one stream are both accepted with the same frames or both refused |
| ClientSettlement.ClientProcessSession.WatchExit | apps/orchestrator/src/forge/agents/client_process.py:698-712 | a client seen to exit starts the drain, a wait past the deadline settles as timed out and a broken wait as an uncertain stop, each only while the watch runs |
| ClientSettlement.ClientProcessSession.ReadStdout | apps/orchestrator/src/forge/agents/client_process.py:714-838 | one read: frames are queued and counted, a fault is recorded and settled |
| ClientSettlement.ClientProcessSession.ReadStderr | apps/orchestrator/src/forge/agents/client_process.py:840-848 | counts the bytes, ends the stream on an empty read, and a fault is recorded only while nothing has settled |
| ClientSettlement.ClientProcessSession.SendFrame | apps/orchestrator/src/forge/agents/client_process.py:850-867 | a timed-out, cancelled or broken send records and settles accordingly |
| ClientSettlement.ClientProcessSession.ReceiveFrame | apps/orchestrator/src/forge/agents/client_process.py:888-905 | takes the head of the queue and counts it; the owner gets it unless a failure is recorded, which settles and raises instead |
| ClientSettlement.ClientProcessSession.FinishStop | apps/orchestrator/src/forge/agents/client_process.py:938-975 | a stop that faults leaves the result unconfirmed, and a completed client that was already gone counts as exited |
| ClientSettlement.ClientProcessSession.FinishPublish | apps/orchestrator/src/forge/agents/client_process.py:976-1005 | builds the one report, ends the queue and informs the lifecycle |
| ClientSettlement.Drive | apps/orchestrator/src/forge/agents/client_process.py:613-1005 | any interleaving of events, applied to the session object by its own methods, leaves it in the state of the specified run |
| ClientSettlement.SettlesOnce | apps/orchestrator/src/forge/agents/client_process.py:673-679 | in every interleaving the finishing task starts once, on the first outcome, and the lifecycle learns at most one result, the reported one |
| ClientSettlement.DecisionsStand | apps/orchestrator/src/forge/agents/client_process.py:673-679 | neither the first outcome nor the report ever changes afterwards |
| ClientSettlement.ConfirmedIffNotUncertain | apps/orchestrator/src/forge/agents/client_process.py:907-1005 | a report's stop is confirmed exactly when its outcome is not an uncertain stop |
| ClientSettlement.FramesAreDeliveredInOrder | apps/orchestrator/src/forge/agents/client_process.py:829-905 | taken and queued frames together are the admitted frames in order, the unread counter counts the queued ones, and what the owner got leads what was taken and is all of it while no failure is recorded |
| ClientSettlement.DeliveryStops | apps/orchestrator/src/forge/agents/client_process.py:888-905 | what was delivered stays delivered, and once a failure is recorded the owner gets no further frame |
| ClientSettlement.ExposedFramesAreTheWholeStream | apps/orchestrator/src/forge/agents/client_process.py:907-1005 | a report shows frames only for a confirmed exit, and then the bytes read were one accepted stream whose decoded lines the frames are |
| ClientSettlement.SettlementCompletes | apps/orchestrator/src/forge/agents/client_process.py:907-1005 | once something has settled, any run that holds the finishing task's five stretches in order, whatever lies between them, ends closed with a report |
| ClientSettlement.ConfirmedIffNothingUnsure | apps/orchestrator/src/forge/agents/client_process.py:907-1005 | in every interleaving a reported stop is confirmed exactly unless revocation failed, the outcome was uncertain before, the stop failed, or a reader was still open at collection |
| ClientOutcomes.FirstOutcomeIs | apps/orchestrator/src/forge/agents/client_process.py:673-905 | in every run the first outcome is the one a table of events gives for the event that settled it |
| ClientOutcomes.SettlesIff | apps/orchestrator/src/forge/agents/client_process.py:673-905 | the next event of an unsettled run settles it exactly when it is one of those named, where it applies, and as the table says |
| ClientOutcomes.FinishReports | apps/orchestrator/src/forge/agents/client_process.py:907-1005 | a finishing task that nothing makes unsure reports the first outcome, except that a completed client found gone counts as exited and one with a recorded failure as a protocol error, with the exit code, byte counts and intentional stop |
| ClientOutcomes.UneventfulRunReports | apps/orchestrator/src/forge/agents/client_process.py:673-1005 | for every accepted stream, every chunking of it and every interleaving of the reads with stderr, sends, receives and the exit, the report is confirmed, has the outcome of the event that ends it and, where that is an exit, exactly the decoded lines |
| ClientOutcomes.ReceiveHandsNext | apps/orchestrator/src/forge/agents/client_process.py:888-905 | while no failure is recorded and frames are left, a receive hands the owner exactly the next admitted frame |
| UsagePublisher.ObservationPublisher.EmitLiveUsage | apps/orchestrator/src/forge/agents/antigravity_runtime.py:132-178 | numbers and queues a live observation, filters a duplicate, flags one that does not fit |
| UsagePublisher.ObservationPublisher.BeginFinal | apps/orchestrator/src/forge/agents/antigravity_runtime.py:180-205 | numbers the single final observation and names the last live one |
| UsagePublisher.ObservationPublisher.EndJoin | apps/orchestrator/src/forge/agents/antigravity_runtime.py:206-214 | leaves the join drained, timed out or interrupted, and closes the worker |
| UsagePublisher.ObservationPublisher.EndDelivery | apps/orchestrator/src/forge/agents/antigravity_runtime.py:88-100 | one delivery accepted, refused or cancelled |
| UsagePublisher.Drive | apps/orchestrator/src/forge/agents/antigravity_runtime.py:70-223 | any interleaving of owner and worker, applied to the publisher by its own methods, leaves it in the state of the specified run |
| UsagePublisher.SinkCallsAscend | apps/orchestrator/src/forge/agents/antigravity_runtime.py:70-223 | in every interleaving the sink is called with strictly increasing sequence numbers |
| UsagePublisher.UnflaggedMeansDelivered | apps/orchestrator/src/forge/agents/antigravity_runtime.py:180-223 | an unflagged finish means the sink accepted every emission 1..n in order, the single final one last |
| UsagePublisher.FlagHasACause | apps/orchestrator/src/forge/agents/antigravity_runtime.py:70-223 | the flag is raised exactly when some event of the run overflowed the queue, failed, timed out or cancelled a delivery |
| UsagePublisher.FlaggedMeansLostIff | apps/orchestrator/src/forge/agents/antigravity_runtime.py:180-223 | at the finish the flag is up exactly when some emission was not accepted, or the wait for the queue was cut short with nothing left in it |
| UsagePublisher.DuplicatesAreFiltered | apps/orchestrator/src/forge/agents/antigravity_runtime.py:132-178 | neighbouring live observations never show the same counters and context, and the final one names the last live one |
| UsageEmissions.EmissionsAre | apps/orchestrator/src/forge/agents/antigravity_runtime.py:132-205 | in every run a live report that shows something new is emitted under the next number, the first final report is emitted with its counters, its own or the newest context, its status and the last live id, and nothing else is |
| UsageEmissions.UndisturbedRunDelivers | apps/orchestrator/src/forge/agents/antigravity_runtime.py:70-223 | reports each delivered before the next, and then the final one, leave everything emitted accepted by the sink and no flag |
| UsageEmissions.BurstFitsIff | apps/orchestrator/src/forge/agents/antigravity_runtime.py:132-178 | of a burst of changing reports the queue holds the first 64, and the flag is up exactly when there are more |
| UsagePublisher.NormalisedTokensAreValid | apps/orchestrator/src/forge/agents/antigravity_runtime.py:289-328 | whatever was reported, normalised counters are in range, cached is within input and reasoning within output |
| UsagePublisher.NormalisedTokensAreReported | apps/orchestrator/src/forge/agents/antigravity_runtime.py:289-328 | each counter is known exactly when it was reported in range and not above the one that bounds it, and then is what was reported; input reported without its cache is the sum of both, or unknown |
| AdkStream.ObservedStream.ObserveEvent | apps/orchestrator/src/forge/agents/adk_runtime.py:545-581 | meters one event, closing the turn after a non-partial one |
| AdkStream.ObservedStream.CommitActiveTurn | apps/orchestrator/src/forge/agents/adk_runtime.py:583-609 | adds the turn's maxima to the committed totals or fails on overflow |
| AdkStream.InvokeStream | apps/orchestrator/src/forge/agents/adk_runtime.py:855-899 | the loop meters and judges each event before asking for the next |
| AdkStream.TurnsPartitionTheStream | apps/orchestrator/src/forge/agents/adk_runtime.py:545-609 | turns are maximal partial runs, each closed by one non-partial event, and together are the stream |
| AdkStream.UsageIsSumOfPeaks | apps/orchestrator/src/forge/agents/adk_runtime.py:545-637 | each reported dimension is the sum over turns of the turn's maximum, complete exactly when some model turn occurred and every one reported it |
| AdkStream.CommitKeepsUsage | apps/orchestrator/src/forge/agents/adk_runtime.py:583-637 | closing the active turn never changes the reported usage |
| AdkStream.AdvancesOnlyWithinCaps | apps/orchestrator/src/forge/agents/adk_runtime.py:864-897 | the stream is asked for an event only when the totals after every earlier event were within all caps |
| AdkStream.UsageNeverFalls | apps/orchestrator/src/forge/agents/adk_runtime.py:545-637 | observed totals never fall along the stream |
| AdkStream.SomePrefixOverIffFinalOver | apps/orchestrator/src/forge/agents/adk_runtime.py:669-684 | for token and tool caps some total so far exceeds them exactly when the final totals do |
| AdkStream.GateAcceptsByFinalTotals | apps/orchestrator/src/forge/agents/adk_runtime.py:864-897 | where cost stays within its cap, a stream is taken whole and completed when its final token and tool totals are within the caps, and otherwise stopped at the first event whose totals exceed one of them, with those totals |
| AdkReadings.SnapshotIs | apps/orchestrator/src/forge/agents/adk_runtime.py:180-203 | an event is readable exactly when its counts are 32-bit, and then shows prompt with tool prompt, or at least the cached tokens where the prompt is missing, candidates with thoughts, and cached, each said when its own field is there |
| AdkReadings.MeteredIff | apps/orchestrator/src/forge/agents/adk_runtime.py:545-637 | a stream is metered without fault exactly when its events are readable and its calls and its sums over turns fit 32 bits |
| AdkReadings.InvocationIs | apps/orchestrator/src/forge/agents/adk_runtime.py:647-899 | any invocation asks on exactly while events are new, in number and meterable and the totals within the caps at a known cost within its own; the first that is not raises or stops it with the totals there, and otherwise it ends with all totals as its last step says |
| AdkBudget.AggregateUsage.AddAnswer | apps/orchestrator/src/forge/agents/adk_gateway.py:126-145 | adds a result counter by counter, failing exactly when a sum leaves 32 bits |
| AdkBudget.ExecuteRequest | apps/orchestrator/src/forge/agents/adk_gateway.py:513-668 | one request, from its admission and preparation through both calls, with the aggregate as the object its calls are added to |
| AdkBudget.AtMostTwoCalls | apps/orchestrator/src/forge/agents/adk_gateway.py:513-668 | at most two runtime calls: the first under the whole budget, the second under exactly what the first left |
| AdkBudget.SuccessIsWithinBudget | apps/orchestrator/src/forge/agents/adk_gateway.py:428-668 | a success spends over all its calls together no more than any original limit |
| AdkBudget.ReturnedCountersAreTheSum | apps/orchestrator/src/forge/agents/adk_gateway.py:513-668 | a returned result's counters are the sums over its attempts, which are its answered calls |
| AdkBudget.UsageIsCarriedIff | apps/orchestrator/src/forge/agents/adk_gateway.py:513-668 | every outcome carries the usage of all answered calls exactly when no answer reports more cached than input tokens or a request id that reads as a credential, two answers add up within 32 bits, no accepted output holds a credential, and the repair call is not cancelled |
| AdkBudget.OverflowLosesUsage | apps/orchestrator/src/forge/agents/adk_gateway.py:126-145 | two answers whose input sum leaves 32 bits end in a budget error that carries neither |
| AdkBudget.ExcessCacheLosesUsage | apps/orchestrator/src/forge/agents/adk_gateway.py:281-308 | an answer with more cached than input tokens ends in a budget error that carries no usage |
| AdkBudget.UndurableOutputLosesUsage | apps/orchestrator/src/forge/agents/adk_gateway.py:811-844 | a complete, valid, affordable answer whose output holds a credential ends in a gateway error that carries no usage |
| AdkBudget.UndurableIdLosesUsage | apps/orchestrator/src/forge/agents/errors.py:25-46 | a request id that reads as a credential turns a result into a gateway error and an error with usage into a bare value error |
| AdkBudget.CancelledRepairLosesUsage | apps/orchestrator/src/forge/agents/adk_gateway.py:600-614 | an invalid first answer and a cancelled repair call end in the cancellation, which carries no usage |
| AdkVerdicts.LimitsAre | apps/orchestrator/src/forge/agents/adk_gateway.py:174-203 | a budget is usable exactly when its caps are in range, and its limits are those caps, the duration in milliseconds |
| AdkVerdicts.SucceedsIff | apps/orchestrator/src/forge/agents/adk_gateway.py:513-668 | a request succeeds exactly when its last answer is complete with a valid and durable output, all answers can be counted and charged and have durable ids, and together they stay within every original limit; any other result has the status its limits or its last finish reason give it |
| AdkVerdicts.RepairIsTriedIff | apps/orchestrator/src/forge/agents/adk_gateway.py:577-615 | a repair is tried exactly when only the output of the first answer is wrong and a token of every cap is left, and it runs under what is left of each limit |
| RunEvents.ReadBody | apps/web/src/hooks/use-run-events.ts:58-82 | the nested loops over chunks and frames compute the specified reading of a body |
| RunEvents.Listen | apps/web/src/hooks/use-run-events.ts:33-101 | the reconnect loop computes the specified run of requests |
| RunEvents.CursorRoundTrip | apps/orchestrator/src/forge/api/sse.py:21-26 | a cursor survives being written into the resume header and parsed |
| RunEvents.EventIsRead | apps/orchestrator/src/forge/api/sse.py:29-46 | the client reads an encoded event as an advance to its sequence, or as invalid exactly when a double cannot hold it |
| RunEvents.StreamIsItsFrames | apps/orchestrator/src/forge/api/sse.py:49-96 | cutting the served bytes at blank lines gives back exactly the events and heartbeats |
| RunEvents.ChunksAreFrames | apps/web/src/hooks/use-run-events.ts:61-81 | reading in chunks is reading the frames of the whole body up to a chunk that finds the buffer too full, which stops the client; no frame read is longer than the buffer |
| RunEvents.BodyAddsNext | apps/web/src/hooks/use-run-events.ts:58-82 | one body, cut at any byte, adds a prefix of what the log holds after the cursor, and never an event the client cannot take |
| RunEvents.UncutBodyDeliversIff | apps/web/src/hooks/use-run-events.ts:61-81 | some way of cutting an uncut body into chunks delivers everything exactly when every sequence is a safe integer and every frame with its blank line fits the buffer |
| RunEvents.RoomyBodyDeliversIff | apps/web/src/hooks/use-run-events.ts:61-81 | where from every frame on the frame leaves room for one more chunk, or the rest of the body fits, any cutting into such chunks delivers everything exactly when all sequences are safe integers, and otherwise the client stops at the first that is not |
| RunEvents.EveryCutDeliversIff | apps/web/src/hooks/use-run-events.ts:61-81 | every way of cutting an uncut body into chunks of at most a given size is read to its end and delivers everything exactly when all sequences are safe integers and the body has that room |
| RunEvents.LongFrameStops | apps/web/src/hooks/use-run-events.ts:61-68 | an event whose frame does not fit the buffer stops the client under every chunking of its body |
| RunEvents.UnsafeSequenceStops | apps/web/src/hooks/use-run-events.ts:74-78 | an encoded event with sequence 9007199254740992 may be sent and leaves the client stopped with nothing accepted |
| RunEvents.LongEventStops | apps/web/src/hooks/use-run-events.ts:66-66 | an encoded event with sequence 1 and a payload of 66 strings of 4000 characters may be sent and leaves the client stopped with nothing accepted |
| RunEvents.BurstStops | apps/web/src/hooks/use-run-events.ts:66-66 | two events, each of which the client can take, stop it with nothing accepted when one read brings both |
| RunEvents.ResumeNeitherLosesNorRepeats | apps/web/src/hooks/use-run-events.ts:33-101 | over any number of cut connections the accepted sequences are a prefix of the log after the starting cursor, strictly increasing, none of them past an event the client cannot take, and the cursor is the last of them |
| RunProgress.BodilessStopsIff | apps/web/src/hooks/use-run-events.ts:43-99 | of the attempts without a body exactly a client error and a foreign content type stop the client, and any other is followed by a request from the same cursor |
| RunProgress.CutBodyBrings | apps/web/src/hooks/use-run-events.ts:58-82 | a body cut anywhere brings exactly the events whose frames it holds in full, up to the first with an unsafe sequence |
| RunProgress.DeliveredAfterLosses | apps/web/src/hooks/use-run-events.ts:33-101 | any number of lost or refused connections and then an uncut body deliver everything after the cursor |
| RunProgress.ReconnectingCompletes | apps/web/src/hooks/use-run-events.ts:33-101 | over any run that has not stopped the client, cut bodies included, one more body that is not cut completes the log |
| RunProgress.RefreshesAre | apps/web/src/hooks/use-run-events.ts:52-80 | every body that is read and every accepted event asks for one authoritative read, and nothing else does |
| ActivityGroups.BuildLineageKey | apps/web/src/lib/activity-presentation.ts:386-398 | the loop over the four keys computes the lineage key, or none |
| ActivityGroups.GroupRecentActivity | apps/web/src/lib/activity-presentation.ts:407-473 | the loop and its flushes build the specified groups with their keys, counts and summaries |
| ActivityGroups.ChainedIffPairwise | apps/web/src/lib/activity-presentation.ts:446-460 | testing against the predecessor and the head is testing every pair: read-only, same lineage key and safe version, falling times, gap |
| ActivityGroups.GroupingIsOptimal | apps/web/src/lib/activity-presentation.ts:407-473 | the groups concatenate to the list, every pair inside one keeps the rules, and no division into such groups uses fewer |
| ActivityGroups.KeysAreDistinct | apps/web/src/lib/activity-presentation.ts:429-437 | groups whose latest events have different sequences have different keys |
| ActivityGroups.BarFreeKeysNameLineage | apps/web/src/lib/activity-presentation.ts:386-398 | between two events none of whose identities contains the joining bar, equal lineage keys mean equal identities |
| ActivityGroups.KeyNamesLineageIff | apps/web/src/lib/activity-presentation.ts:386-398 | no other lineage shares an event's key exactly when a single identity is present and its value does not read as a value, a bar, the name of a later identity, a colon and another value |
| ActivityGroups.BarsCanCollide | apps/web/src/lib/activity-presentation.ts:386-398 | two different lineages, one with a bar in its value, share a key |
| ActivityMeaning.SuccessfulReadIff | apps/web/src/lib/activity-presentation.ts:133-147 | the events that may be grouped are exactly the completed calls of the nine reading tools that report success and carry no denial, cancellation, time-out or error code |
| ActivityMeaning.LineageIs | apps/web/src/lib/activity-presentation.ts:386-398 | an event has a lineage key exactly when its identities are proper and an execution or an attempt is among them, and the key is those present in their order |
| ActivityMeaning.TogetherIff | apps/web/src/lib/activity-presentation.ts:378-460 | two events may share a group exactly when both are successful reads of one known lineage at one safe version, in the order shown and within the gap |
| ActivityMeaning.GroupShows | apps/web/src/lib/activity-presentation.ts:414-440 | what each group shows: its items, their number, its first and latest event, its key, and its own title or a count of file reads or read actions |
| DiffParser.Consume | apps/web/src/lib/diff.ts:28-49 | one line of a file: hunk header, numbered body line, or metadata |
| DiffParser.ParseDiff | apps/web/src/lib/diff.ts:5-52 | the loop over the bounded lines computes the specified parse |
| DiffParser.SupportedMeansExact | apps/web/src/lib/diff.ts:5-52 | in any text reported as supported each hunk is followed by exactly the old and new lines it declares, numbered consecutively |
| DiffParser.KindsAlwaysFit | apps/web/src/lib/diff.ts:28-49 | in any text a line's kind, its numbers and its first character agree |
| DiffParser.HunkIsRead | apps/web/src/lib/diff.ts:29-32 | a written hunk header, counts of one left out or not, reads back as its four numbers |
| DiffParser.ParseUndoesPrint | apps/web/src/lib/diff.ts:5-52 | printing any well-formed diff within the limits and parsing it gives the same files, kinds, numbers, status and binary marks |
| GitPatches.GitDiffIsRead | apps/web/src/lib/diff.ts:5-52 | a diff with the header lines Git writes for created, deleted, renamed, copied and binary files is read back with that status and mark, and with its hunks numbered as they declare |
| GitPatches.TruncatedIff | apps/web/src/lib/diff.ts:5-18 | a text is marked as truncated exactly when it, its number of lines, one of its lines or its number of files exceeds the limit |
| WorktreeStatus.ParseWorktreeStatus | scripts/verify.py:593-614 | the index loop computes the specified entries or the error |
| WorktreeStatus.ParseUndoesPrint | scripts/verify.py:593-614 | any list of NUL-free entries survives printing and parsing, rename and copy sources included |
| WorktreeStatus.ParsedIsClean | scripts/verify.py:593-614 | every parsed field is free of NUL |
| WorktreeStatus.ComputeWorktreeDigest | scripts/verify.py:616-640 | the loop feeds the hash the specified bytes, or fails on a mangled or unreadable path |
| WorktreeStatus.SortSorts | scripts/verify.py:621-621 | sorting by path gives a sorted rearrangement of the entries |
| WorktreeStatus.OrderIsIrrelevant | scripts/verify.py:616-640 | entries with distinct paths feed the same bytes in whatever order they were reported |
| WorktreeStatus.FeedSucceedsIff | scripts/verify.py:616-640 | a tree can be digested exactly when no path or source holds the trace of an undecodable byte and every file can be read |
| WorktreeStatus.FeedOfOne | scripts/verify.py:630-640 | one entry feeds its status, path, source and content digest, a NUL behind each |
| WorktreeStatus.BytesIdentifyEntries | scripts/verify.py:616-640 | two trees feed the same bytes exactly when, sorted by path, they agree on status, path, source and content, an absent and an empty source counting alike |

## Left out

- ClaudeUsage.ReplayKeepsCounters: says nothing of reasoning, because a regressing reasoning count is forgotten and can stand again when repeated.
- ClaudeUsage.LiveReadingsNeverFall: says nothing of reasoning, for the same reason.
- ClaudeCodec.ClaudeStreamCodec.Message: names the reply and echoes its id; the JSON text of reply envelopes and tool descriptions is not modelled.
- ClaudeExchange.Exchange.Converse: starts after the first request has been sent (a fault of that send is a first faulty receive), and does not publish usage observations while it works.
- ClaudeExchange.Exchange.CheckSettings: takes the comparison of settings with the managed policy as a function.
- ClaudeOutcome.Merge: takes the telemetry policy's answer and the session's report as given.
- ClientStdout.StdoutReader.Stdout: covers the line protocol; the single-document JSON and text protocols are simpler loops over the same limits.
- RunEvents.Listen: treats decoding of bytes to text as the identity, which it is for the server's ASCII output, counts lengths in characters, and leaves out delays, idle timers and the owner's abort.
- RunEvents.ResumeNeitherLosesNorRepeats: leaves authentication and session expiry to the attempts, which may end in any way.
- RunEvents.LongEventStops: writes a payload with the item and string bounds of `redact_value` but does not model redaction itself.
- AdkBudget.ExecuteRequest: takes the durable-content check of an output and of a request id, the price table and what the runtime answers as given.
- ActivityGroups.GroupRecentActivity: takes `String`, `toLowerCase`, `Date.parse` and the single-event title as functions.
- DiffParser.ParseDiff: keeps the file being read apart from the finished ones instead of aliasing the last of them, and counts lengths in characters rather than UTF-16 units.
- WorktreeStatus.ComputeWorktreeDigest: takes reading a path and hashing its content as one function that may fail, and the final hash of the bytes as injective.
- CallKey.KeyTextIsInjective: lone surrogates are not modelled.
- The handler of the codec is run by the exchange after the codec's step, since a served call changes no codec state afterwards.
- Tool input schemas, decoding of decisions, classification of provider errors, reset-time parsing and prices are functions given to the model.
- Launching, pinning and killing processes, platform isolation, capability verification and configuration: effects of the operating system and comparisons of identities.
- Deadlines as real time: a timer is an event that may happen.
- The initial-prompt, role-schema and repair-prompt texts of the ADK gateway.
- The scheduler, the run state machine, the database migrations and the user interface around the modelled hooks.
