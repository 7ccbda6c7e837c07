# Verified model of the coding agent's durable core

This project models, in Dafny, the parts of the agent where several independently written pieces must agree, and proves that they do.

- **The durable turn protocol.** `src/cli_conversation.c` drives a turn: model rounds, tool calls, permission waits, steering, cancelling, failures. `src/cli.c` turns its events into log records. `src/cli_history_replay.c` is a strict acceptor that rebuilds the model context from the log, `src/cli_history_repair.c` closes a turn a crash left open, `src/cli_history_store.c` appends by replaying, and `src/cli_compact.c` picks the prefix a checkpoint replaces. The main result is a simulation: over every run of callbacks the live message list is the replayed context, every turn that ends leaves a closed log with every call answered, and the records replay refuses are exactly characterised (`TurnClosure.RunKeepsInv`, `TurnClosure.TurnOver`). The records a run writes are an accepted history behind the one it started from; a crash behind any of them, in the middle of a callback too, is recovered into a session for which the same holds again, and the byte log reloads to exactly the live messages, model and directory (`LiveLog.RunRecords`, `LiveLog.CrashThenContinue`, `LiveLog.LogReloadsLive`). What a callback decides is stated beside it, record by record: when a process runs, when the user is asked, when the model is asked again, and what a result says (`TurnLaws.NextToolLaw`, `TurnLaws.ToolDoneLaw`); and so is what the acceptor accepts, on the records alone (`ReplayStrict.AcceptedIff`).
- **The record codec.** A frame-stack JSON writer and an incremental byte-step parser undo each other on every tree, in any chunking; the parser accepts exactly the texts of the JSON grammar and reads each as the tree it denotes (`JsonLanguage.ParseIff`). On top stand canonical base64, decimal 64-bit numbers and the typed record codec, whose one asymmetry is stated exactly. The store's log reloads to the store.
- **The untrusted-text pipeline.** The UTF-8 fixer, the escape stripper, the emphasis matcher and the line editor, each with what it promises for any bytes in any chunking and over any run of operations.

## How it is laid out

Each source file that updates state step by step has two forms: functions on values that say what one step does, and a class or a method with loops that does it in place and whose contract equates its new state with those functions. The properties are lemmas about the functions, so they hold of the objects.

| files | what they hold |
|---|---|
| `Basics`, `Messages`, `History` | bytes, status codes, messages, records and when they are valid |
| `Replay`, `ReplayBuilder` | the acceptor: specification and object |
| `ReplayStrict` | which histories are accepted and what is published of them, said of the records alone |
| `ReplayInvariants`, `ReplayLog`, `ReplayShape`, `ContextShape`, `QueueDelivery`, `Compact` | what every accepted history keeps |
| `Conversation`, `ConversationObject`, `EventLoop` | the turn machine with its persistence: specification, objects, and the objects driven through a run |
| `Simulation`, `TurnSteps`, `TurnClosure`, `TurnProgress`, `TurnBounds`, `Steering` | the simulation between turn machine and log, how far a turn can go, and what a steer stops |
| `TurnEffects`, `TurnDecisions`, `TurnOutcomes`, `TurnLaws`, `Streaming` | what each callback comes to: its exact records and messages, who decides what runs next, and that replies and results are what was streamed |
| `Recovery`, `Restart` | crash recovery, and the session that goes on behind it |
| `LiveRecords`, `LiveLog` | the records of a live run, every crash point among them, and the run as lines on disk |
| `JsonText`, `JsonWriter`, `JsonParser`, `JsonRoundTrip`, `JsonNumber`, `JsonGrammar`, `JsonLanguage`, `JsonArena` | JSON both ways, the language the parser accepts and what it denotes, and which trees an arena can hold |
| `Base64`, `Decimal`, `Codec`, `CodecMethods`, `CodecRoundTrip`, `LineFormat`, `Store` | records as lines, the lines spelled out, and the store of them |
| `Utf8`, `Utf8Stream`, `Sanitize`, `SanitizeUnits`, `Emphasis`, `MarkdownInline`, `MarkdownOutput`, `MarkdownLaws`, `MarkdownFlanking`, `MarkdownSingle`, `MarkdownCode`, `Editor` | the text pipeline and the editor |

`dafny verify dfyconfig.toml` checks the whole project.

## What the simulation assumes of the environment

`TurnClosure.Enabled` and `TurnSteps.Roomy` hold these assumptions. Where the code needs one, a lemma says what happens without it.

- Events reach the conversation only while the request or the tool they belong to is under way, never from inside the call that starts it.
- No cancel and no display failure happens inside TOOL_STARTING once its record is written. `TurnProgress.DisturbedStartLeavesTurnOpen` proves that this is exactly what an allowed call needs: either one makes the repair write NOT_EXECUTED for a started call, which replay refuses (src/cli_conversation.c:738-761).
- The first model request of a turn succeeds. `TurnClosure.StartRuns` proves that a start leaves a running turn exactly then; otherwise the turn ends unrepaired (src/cli_conversation.c:1135-1140).
- Input is queued only while a turn is busy and nothing is queued, and is consumed before the turn that delivers it starts, in the order queue, steer, resolve, start of the REPL.
- A checkpoint is written only between turns with nothing queued, for a prefix that ends at a turn boundary, as `Compact.SelectPrefix` picks it.
- The display of a message or a partial reply cannot fail; only its record can be refused (src/cli_present.c:193-197).
- A failed response has a status other than OK. MODEL_ERROR may fail and replace it (`Conversation.OnFailed`).
- /model and /cwd may come at any time: `TurnClosure.SettingTaken` says when they are accepted. That /cwd names a directory that can be entered, and startup's choice between cached and configured model and between recorded and default directory, are the environment's (`LiveLog.Startup`).
- The model name is not empty, holds no NUL and is at most 1 MiB long (`Simulation.ModelOk`).
- Allocation never fails, the encoded line of each record is within 8 MiB, the log takes every line (`Store.AppendIsOneStep` states both as conditions of append), and the 64-bit ids have room for the records one callback can write; recovery needs room for what startup writes (`LiveLog.RoomToRecover`).

Display failures of streamed text, tool output, MODEL_ERROR, RESPONSE_DONE and AWAITING_PERMISSION are part of the model and need no assumption, and so are a cancel from inside AWAITING_PERMISSION, failures of the process start, its timeout and its closed stdin, and every exit kind and code.

## Findings about the code

Statements one might expect of this code that do not hold, each with its exact condition proved.

- After a compaction that kept a turn, the next compaction is refused: the summary takes the newest id (src/cli_history_replay.c:420), so the range built for the next one runs backwards. `ReplayInvariants.CheckpointAccepted` gives the condition, `ReplayInvariants.SecondCompactionRefused` the general run, `ReplayInvariants.SecondCutRefused` one history of two turns.
- A repaired assistant message with tool calls is a valid record that the codec writes and then refuses to read (src/cli_history_codec.c:702); replay would accept it, and a log holding one cannot be loaded. `CodecRoundTrip.RecordRoundTrip` and `Store.AppendReloads` state it both ways. No run of the model writes such a record (`LiveLog.RunRecords`).
- Decoding a transition does not ask whether the record is valid (src/cli_history.c:248-263), so a transition whose id does not follow its count decodes and is refused only when appended. `CodecRoundTrip.DecodedShape` states on the members of the line exactly when the decoded record is valid; `CodecRoundTrip.TransitionDecodes` shows that every transition, valid or not, is read from its text, and `CodecRoundTrip.InvalidDecodes` names one.
- A failing RESPONSE_DONE on a reply without calls makes the repair write a second assistant message, which replay refuses (src/cli_conversation.c:997-1003). The turn is closed all the same; the conversation reports a parse error and the persistence remembers a failure. `TurnClosure.ShutRepairRefused` proves both.
- Sanitized text need not be well-formed UTF-8: the 4096-byte cap can resume inside a character. `Sanitize.WellFormedIffUnsplit` says exactly when, `Sanitize.CapSplitsCharacter` gives an input.
- Two passes of the sanitizer may differ from one on ill-formed input: `Sanitize.IllFormedLetsC1Through`. `Sanitize.SecondPassIff` gives the condition on the input: wherever a held 0xC2 is let out by a byte that is not shown itself, a later byte is shown and does not make a C1 control of the two.
- A tool argument object with a string of 64 KiB or more is accepted by replay, which parses it in an arena of a little over 1 MiB (src/cli_history_replay.c:43), but the turn parses it into the session's arena of 64 KiB blocks and ends with an out-of-memory status (src/cli_conversation.c:390-412). `JsonArena.LongArgument` proves both; `JsonArena.ArgumentsStatus` states for any arena exactly which arguments are good.
- After /model a partial reply is still attributed to the model the session was opened with: the persistence context writes its own name (src/cli.c:515), which only opening and switching sessions set (src/cli.c:370, 432, 1136), while complete replies carry the conversation's (src/cli_conversation.c:177). `LiveRecords.StalePartial` gives the case, `LiveRecords.PartialModelIff` the exact condition over every run.
- "Nothing new starts after a steer" does not hold: a call whose permission is waited for may still start (src/cli_conversation.c:1322-1343). `Steering.SteeredRun` proves that over any run of the turn this is all that can start, and `Steering.PendingStarts` exactly when it does.

## Model

| member | source | states |
|---|---|---|
| `TurnClosure.RunKeepsInv` | src/cli_conversation.c:837-1264 | over every run of callbacks the live turn and the replayed log stay in step, and a record is refused in the run exactly when some callback meets `Refused` |
| `TurnClosure.StepKeepsInv` | src/cli_conversation.c:634-1343 | each callback, in any state it can fire in, keeps the joint invariant and refuses a record exactly for a reply with unacceptable calls, a closing reply whose display fails, or a checkpoint behind a newer head |
| `TurnClosure.TurnOver` | src/cli_conversation.c:148-160 | whenever a turn is over replay is back at EXPECT_USER with no tool under way, the live messages are the replayed ones, nothing is in flight, and a context in shape is a closed conversation |
| `TurnClosure.OneInFlight` | src/cli_conversation.c:66-76 | a busy conversation has exactly one of request, tool and pending permission, and has not passed its step limit |
| `TurnClosure.CompletedKeeps` | src/cli_conversation.c:941-1009 | a completed response keeps the invariant; the log refuses it exactly when its calls are bad, duplicate, not objects or too large for the checking arena, or when showing a reply without calls fails |
| `TurnClosure.ReplyRefused` | src/cli_history_replay.c:140-173 | an assistant message whose calls replay cannot take is refused with the status of the first bad call, out of memory included, and leaves the log unchanged |
| `TurnClosure.ShutRepairRefused` | src/cli_conversation.c:997-1003 | when RESPONSE_DONE fails on a reply without calls, the repair's second assistant message is refused and the turn ends with a parse error, its log closed |
| `TurnClosure.StartRuns` | src/cli_conversation.c:1105-1142 | a start leaves a running turn exactly when its first request succeeds; otherwise the turn ends with the log left open |
| `TurnClosure.UserTaken` | src/cli_history_replay.c:175-207 | between turns the user message is always accepted, and delivers the queued input if one was consumed |
| `TurnClosure.QueueTaken` | src/cli.c:579-604 | an input typed during a turn is queued durably for the next turn and steers the running one, changing nothing else |
| `TurnClosure.ResolutionTaken` | src/cli.c:606-631 | resolving the queued input between turns is accepted and moves only the queue |
| `TurnClosure.CompactKeeps` | src/cli_conversation.c:1385-1412 | the live splice and the durable checkpoint drop the same prefix, or neither happens because the head is newer than what follows |
| `TurnClosure.CheckpointWritten` | src/cli.c:641-673 | the record built for a prefix is accepted exactly when the head is not newer than its successor, and then replaces that prefix by the summary |
| `TurnClosure.SettingTaken` | src/cli_sessions.c:1903-1918 | /model and /cwd are accepted if and only if no turn is under way, nothing is queued and the value is one to 4096 bytes without NUL; then the recorded value is the live one, otherwise nothing changes |
| `TurnClosure.CallReplyKeeps` | src/cli_conversation.c:979-1008 | a reply with acceptable calls opens its tool round and keeps log and conversation in step |
| `TurnSteps.CancelKeeps` | src/cli_conversation.c:1221-1264 | cancelling at any point of a turn, with or without a partial reply to write, leaves the log closed with every call answered and nothing refused, and ends as cancelled |
| `TurnSteps.CancelCloses` | src/cli_conversation.c:1229-1264 | a cancel with nothing to keep as partial text closes every open call and ends the turn |
| `TurnSteps.StartedTaken` | src/cli_history_replay.c:295-310 | TOOL_STARTED is accepted for the call in turn and marks exactly that call |
| `TurnSteps.PartialTaken` | src/cli_history_replay.c:312-322 | one partial reply is accepted while the reply is due |
| `TurnSteps.DenialKeeps` | src/cli_conversation.c:716-736 | a denial leaves the turn closed in step, its own call and every call behind it answered |
| `TurnSteps.AllowKeeps` | src/cli_conversation.c:738-784 | an allowed call keeps the invariant, whether its process runs or cannot be launched |
| `TurnSteps.LaunchKeeps` | src/cli_conversation.c:762-783 | a process that runs leaves the round waiting for it, and one that cannot be started, timed or fed leaves the turn closed |
| `TurnSteps.RequestKeeps` | src/cli_conversation.c:795-835 | allow, deny and ask each keep the invariant, also when asking fails or is cancelled at once; which of them leads where is `TurnLaws.NextToolLaw`'s |
| `TurnSteps.NewRoundKeeps` | src/cli_conversation.c:1011-1035 | the next model request runs, or the step limit or the client ends the turn closed |
| `TurnSteps.NextToolKeeps` | src/cli_conversation.c:837-895 | the tool loop keeps the invariant from the next call or the end of the round, steered or not; what it decides is `TurnLaws.NextToolLaw`'s |
| `TurnSteps.TextKeeps` | src/cli_conversation.c:897-911 | streamed text keeps the invariant, also when too much of it or a failing display ends the turn |
| `TurnSteps.CallDeltaKeeps` | src/cli_conversation.c:912-939 | streamed call fragments keep the invariant, also when an oversized one ends the turn |
| `TurnSteps.FailedKeeps` | src/cli_conversation.c:941-972 | a failed response, with or without an error to show or a partial reply to write, closes the turn durably and ends with its own status, or with that of the failed MODEL_ERROR |
| `TurnSteps.ToolOutputKeeps` | src/cli_conversation.c:634-652 | tool output keeps the invariant, also when too much of it or a failing display ends the turn |
| `TurnSteps.ToolDoneKeeps` | src/cli_conversation.c:654-697 | every tool exit keeps the invariant, also when the made-well-formed output is too long to store; what the result says is `TurnLaws.ResultIsNext`'s |
| `TurnSteps.AnswerMoves` | src/cli_conversation.c:470-485 | a finished tool's result is accepted and the loop stands before the next call or the end of the round |
| `TurnSteps.PermissionKeeps` | src/cli_conversation.c:1322-1343 | resolving a permission keeps the invariant, steering or not |
| `Simulation.CommitTaken` | src/cli_conversation.c:189-200 | a message whose record replay accepts joins the live list and the log together |
| `Simulation.BookendCloses` | src/cli_conversation.c:1161-1173 | the placeholder reply that closes a turn is accepted whenever a reply is due |
| `Simulation.ResultTaken` | src/cli_history_replay.c:241-278 | a result whose outcome fits the call in turn is accepted and moves the round on by one call |
| `Simulation.RepairFromAnswers` | src/cli_conversation.c:508-549 | every dangling call gets an accepted placeholder, after which only the reply is due |
| `Simulation.SkipSteeredAnswers` | src/cli_conversation.c:568-587 | every call skipped by a steer gets an accepted placeholder |
| `Simulation.CloseOutShuts` | src/cli_conversation.c:1191-1207 | closing out succeeds from any state it is called in and leaves the log closed with every call answered |
| `Simulation.RepairCloses` | src/cli_conversation.c:1212-1219 | finishing with repair leaves an idle conversation in step with a closed log and nothing refused |
| `Simulation.SteeredCloses` | src/cli_conversation.c:609-623 | a steered turn closes the same way and counts as a success |
| `TurnProgress.CompletedProgress` | src/cli_conversation.c:941-1009 | a completed response ends the turn or decreases the measure (model steps left, reply outstanding, calls left) |
| `TurnProgress.ToolDoneProgress` | src/cli_conversation.c:654-697 | a tool exit ends the turn or decreases the same measure |
| `TurnProgress.PermissionProgress` | src/cli_conversation.c:1322-1343 | a permission decision ends the turn or decreases the same measure |
| `TurnBounds.TurnIsBounded` | src/cli_conversation.c:1011-1035 | over one turn, from its start on: no more requests and no more replies than model steps, no more tool results and no more permission answers than calls its replies asked for |
| `TurnBounds.RunPays` | src/cli_conversation.c:837-1035 | over any run within a turn the replies, results and permission answers counted and those left stay within what was left and what the replies asked for |
| `Steering.SteeredStarts` | src/cli_conversation.c:837-855 | behind a steer no callback of the turn starts a request, a process or a permission wait, also none in place of one that just ended, except one that allows the call already waited for |
| `Steering.SteeredRun` | src/cli_conversation.c:837-895 | over any run of the turn behind a steer at most one thing starts, and only if a permission was waited for |
| `Steering.PendingStarts` | src/cli_conversation.c:1322-1343 | a decision starts the call waited for if and only if it is allowed, nothing disturbs TOOL_STARTING and its process can be launched, steered or not |
| `TurnLaws.NextToolLaw` | src/cli_conversation.c:795-895 | the tool loop with nothing disturbing TOOL_STARTING: the process runs if and only if nobody steers, the arguments are good, the registry knows the tool, the policy allows it and its process can be set up; the user is asked if and only if the policy leaves it to him, the question is shown and not cancelled; the model is asked again if and only if every call has its result, nobody steers, steps are left and the client takes the request, and then one step more is spent; in every other case the turn is over, with OK exactly when steered, DENIED for a denial, an invalid-argument status at the step limit and the client's own status when it fails; the records written and the messages added are named: TOOL_STARTED for a process that runs, for a denial the call's own text, a placeholder per call behind it and the interruption marker, for a steer the skipped calls and its marker |
| `TurnLaws.ToolDoneLaw` | src/cli_conversation.c:654-697 | a finished tool whose text fits: its completed result with the raw output is on record, and then the same law holds of the next call or the next round |
| `TurnLaws.ResultIsNext` | src/cli_conversation.c:470-485 | whatever happens next, the first message behind the old ones is the result of the call in turn with exactly the text of its output and exit |
| `TurnLaws.ToolTextSays` | src/cli_conversation.c:658-689 | that text is always well-formed, and is the output itself if the tool ended well and its output was well-formed; any other exit adds exactly the line with its kind and code |
| `TurnLaws.CompletedLaw` | src/cli_conversation.c:979-1008 | a completed response with good calls that is shown is recorded and the law of the tool loop holds of its first call; otherwise the turn is over, with OK if and only if the reply was complete, without calls and shown |
| `TurnLaws.PermissionLaw` | src/cli_conversation.c:1322-1343 | an answered permission: the process runs if and only if the answer is yes and it can be set up; a no ends the turn as denied with nothing recorded as started |
| `TurnLaws.SteerLaw` | src/cli_conversation.c:837-862 | a steer lets the running tool finish: its result is recorded, every call behind it is skipped in order, the turn ends with OK and the steered marker |
| `TurnOutcomes.FailedDoes` | src/cli_conversation.c:941-972 | a failed response leaves the partial text, if any, and the interruption marker on record, and nothing else |
| `TurnOutcomes.CancelledDoes` | src/cli_conversation.c:1221-1264 | a cancel leaves the partial text, a placeholder for each call still owed, the running one marked unknown with its output kept, and the interruption marker |
| `Streaming.RunHeard` | src/cli_conversation.c:634-652 | over every run of callbacks the reply text, the tool output and each field of each streamed call are the deltas since they began, joined in order |
| `Streaming.ReplyIsHeard` | src/cli_conversation.c:979-1008 | at the end of any run, the reply a completed response commits is exactly the text and the calls heard since its request went out, in index order |
| `Streaming.ResultIsHeard` | src/cli_conversation.c:654-697 | at the end of any run, the result a finished tool gets is made of exactly what it put out since it started, and that output is kept raw beside it |
| `TurnProgress.NextToolOutcome` | src/cli_conversation.c:837-895 | no more than this comes out of the tool loop: an ended turn, one new request within the limit, or the call in turn running or waited for; when each does is `TurnLaws.NextToolLaw`'s |
| `TurnProgress.UnstartedRefused` | src/cli_conversation.c:738-761 | NOT_EXECUTED for a call already recorded as started is refused and leaves the log open |
| `TurnProgress.DisturbedStartLeavesTurnOpen` | src/cli_conversation.c:738-761 | an allowed call keeps the turn in step if and only if neither a display failure nor a cancel happens inside TOOL_STARTING |
| `ConversationObject.Persistence.Persisted` | src/cli.c:474-531 | a record is appended with the next id or the failure is remembered and its own status returned; the new persistence state is exactly that of the specification |
| `ConversationObject.Session.CommitMessage` | src/cli_conversation.c:189-200 | the message joins the list only once its record is written |
| `ConversationObject.Session.RepairDangling` | src/cli_conversation.c:508-549 | the loop over dangling calls moves both objects as `RepairDanglingCalls` says and reports the first failure |
| `ConversationObject.Session.CloseOut` | src/cli_conversation.c:1191-1207 | both objects end as `CloseOutIncompleteTurn` says |
| `ConversationObject.Session.EndSteered` | src/cli_conversation.c:568-623 | both objects end as `FinishSteered` says |
| `ConversationObject.Session.CancelTurn` | src/cli_conversation.c:1221-1264 | both objects end as `Cancel` says, for which closure is proved |
| `ConversationObject.Session.StartTurn` | src/cli_conversation.c:1105-1142 | both objects end as `Start` says |
| `ConversationObject.Session.NextTool` | src/cli_conversation.c:837-895 | both objects end as `StartNextTool` says, of which `TurnLaws.NextToolLaw` holds |
| `ConversationObject.Session.Decide` | src/cli_conversation.c:711-784 | both objects end as `ResolvePermissionBody` says |
| `ConversationObject.Session.RequestCall` | src/cli_conversation.c:795-835 | both objects end as `RequestToolCall` says, the part of `StartNextTool` that asks the policy |
| `ConversationObject.Session.HandleText` | src/cli_conversation.c:897-911 | both objects end as `OnText` says |
| `ConversationObject.Session.HandleCallDelta` | src/cli_conversation.c:912-939 | both objects end as `OnCallDelta` says: fragments are kept per index, each field up to its limit |
| `ConversationObject.Session.BuildReply` | src/cli_conversation.c:362-388 | the reply is built from the calls in index order, only if none is missing or empty |
| `ConversationObject.Session.HandleCompleted` | src/cli_conversation.c:941-1009 | both objects end as `OnCompleted` says |
| `ConversationObject.Session.HandleFailed` | src/cli_conversation.c:941-972 | both objects end as `OnFailed` says |
| `ConversationObject.Session.HandleToolOutput` | src/cli_conversation.c:634-652 | both objects end as `OnToolOutput` says |
| `ConversationObject.Session.HandleToolDone` | src/cli_conversation.c:654-697 | both objects end as `OnToolDone` says, of which `TurnLaws.ToolDoneLaw` holds |
| `ConversationObject.Session.HandlePermission` | src/cli_conversation.c:1322-1343 | both objects end as `ResolvePermission` says; without a pending decision the call is refused |
| `ConversationObject.Session.CompactPrefix` | src/cli_conversation.c:1385-1412 | both objects end as `Compact` says: the splice happens only after the durable record |
| `ConversationObject.Session.Queue` | src/cli.c:579-604 | both objects end as `QueueInput` says |
| `ConversationObject.Session.Resolve` | src/cli.c:606-631 | both objects end as `ResolveQueue` says |
| `ConversationObject.Session.Change` | src/cli_repl.c:864-940 | both objects end as `ChangeSetting` says: the model is set only behind its record, the directory left again if its record is refused |
| `EventLoop.Handle` | src/cli_conversation.c:634-1343 | any callback on the session object in a state that satisfies the invariant leaves it where `Step` says, with the invariant holding and a refusal remembered exactly where `Refused` says |
| `EventLoop.Drive` | src/cli_loop.c:44-49 | the loop that delivers callbacks drives the objects through any run to the state of the specification, with the invariant holding |
| `ReplayInvariants.FoldCoherent` | src/cli_history_replay.c:175-376 | after every accepted history: EXPECT_USER if and only if no turn is open, a partial reply only while a reply is due, a consumed queue only between turns with something queued, tools under way if and only if results are due |
| `ReplayInvariants.FoldPrefix` | src/cli_history_replay.c:578-648 | every prefix of an accepted history is accepted |
| `ReplayInvariants.RecordIdsRunOn` | src/cli_history.c:596-618 | record ids run on from the legacy count without a gap |
| `ReplayInvariants.TurnsAreUserMessages` | src/cli_history_replay.c:481-509 | the turn counter is the number of user messages ever accepted, legacy ones included |
| `ReplayInvariants.FoldIdsOrdered` | src/cli_history_replay.c:92-111 | behind the head, context ids strictly increase and differ from the head's, in every reachable state |
| `ReplayInvariants.CheckpointAccepted` | src/cli_history_replay.c:378-430 | the record for a prefix is accepted if and only if the context has one item or its head is older than the next, and then removes exactly that prefix |
| `ReplayInvariants.SecondCompactionRefused` | src/cli_history_replay.c:378-430 | after a compaction that kept a turn, the very next one is refused, whatever prefix it takes |
| `ReplayInvariants.SecondCutRefused` | src/cli_history_replay.c:378-430 | a concrete accepted history, two turns with the first compacted, behind which every further checkpoint is refused |
| `ReplayInvariants.SettingsAreLast` | src/cli_history_replay.c:432-446 | the published model and directory are the last ones recorded |
| `ReplayStrict.AcceptedIff` | src/cli_history_replay.c:578-648 | a history is accepted if and only if it is in order, said of its records alone: old messages alternate, the transition counts them, ids run on, and each record may follow those before it: a user message between turns, a reply once every call of the last message is answered, behind a partial reply only a repair, a completed or unknown result only for a call started and not yet answered, NOT_EXECUTED only for one not started, one start and one result per call, one partial per reply, one queued input at a time, taken at most once and followed by its own text or its discard, checkpoints and settings only between turns with nothing queued |
| `ReplayStrict.PublishedSays` | src/cli_history_replay.c:511-550 | everything published of an accepted history is read off its records: the context shown, the calls still open and whether each was started, the next ids, whether a repair or a transition is due, a partial reply seen, the input that waits, the last settings and the last checkpoint's range |
| `ReplayLog.ReplayOneMore` | src/cli_history_replay.c:617-639 | replaying one record more is one step of the state already reached |
| `ReplayLog.ReplayMore` | src/cli_history_replay.c:617-639 | the same for any number of records |
| `ReplayLog.ReplayedSound` | src/cli_history_replay.c:578-648 | every accepted history leaves a state from which the next ids, turn and queue are usable |
| `ReplayShape.FoldShape` | src/cli_history_replay.c:140-278 | if every checkpoint cuts at a turn, the context is always an optional summary, whole turns, and at most one turn under way whose missing results are exactly the unresolved calls |
| `ReplayShape.UnansweredResolve` | src/cli_history_replay.c:262-277 | resolving a call takes exactly its id off the ids still unanswered |
| `ContextShape.CallsAnswered` | src/cli_history_replay.c:241-278 | in a closed context an assistant message with n calls is followed at once by exactly n results whose ids are a permutation of the call ids |
| `ContextShape.ClosedContext` | src/cli_history_replay.c:280-293 | a closed context is at most one summary followed by whole turns |
| `ContextShape.SummaryKeepsClosed` | src/cli_history_replay.c:404-424 | replacing a prefix that ends at a turn boundary by a summary keeps a closed context closed |
| `Compact.SelectPrefix` | src/cli_compact.c:49-90 | the prefix keeps exactly the wanted number of turns and ends at a turn boundary, or is empty when there are not more turns |
| `QueueDelivery.AfterConsumed` | src/cli_history_replay.c:448-458 | after CONSUMED exactly the same text as the next turn's user message, or a discard, is accepted, and either empties the slot |
| `QueueDelivery.OneSlot` | src/cli_history_replay.c:324-342 | while something is queued nothing else can be |
| `QueueDelivery.DeliveredAtMostOnce` | src/cli_history_replay.c:184-197 | every delivery is the unchanged text of an earlier queued record, and no record is delivered twice |
| `ReplayBuilder.Replayer.ApplyAssistantMessage` | src/cli_history_replay.c:209-239 | the builder object moves as the specification step for assistant messages and returns its status |
| `ReplayBuilder.Replayer.ApplyToolMessage` | src/cli_history_replay.c:241-278 | the builder object moves as the specification step for tool results |
| `ReplayBuilder.Replayer.ApplyCheckpointRecord` | src/cli_history_replay.c:378-430 | the in-place splice moves the builder as the specification step for checkpoints |
| `ReplayBuilder.Replayer.CountRemoved` | src/cli_history_replay.c:393-402 | the counting loop finds exactly the items the range removes, or refuses a range that starts too late |
| `ReplayBuilder.Replayer.ApplyTypedRecord` | src/cli_history_replay.c:448-479 | one record moves the builder as `Step`, with the status of a refused one |
| `ReplayBuilder.Replayer.ApplyLegacyMessages` | src/cli_history_replay.c:481-509 | untyped messages are taken exactly when they alternate user and assistant |
| `ReplayBuilder.PublishUnresolved` | src/cli_history_replay.c:511-550 | the published list is exactly the unresolved calls, in order, with whether each may have started |
| `ReplayBuilder.ToolsOf` | src/cli_history_replay.c:140-173 | the double loop accepts exactly good calls with distinct ids and returns the first bad one's status, in order |
| `ReplayBuilder.ReplayAll` | src/cli_history_replay.c:578-648 | the whole replay publishes exactly the fold of the history, or refuses it with the status of the first record refused |
| `Recovery.AppendTake` | src/cli_history.c:596-618 | a record joins the list if and only if it is valid and continues the ids |
| `Recovery.BuildRepairs` | src/cli_history_repair.c:66-97 | repairs are built if and only if a repair is due and every id is usable: one result per unresolved call in order, then the closing marker |
| `Recovery.PublishedRepairs` | src/cli_history_replay.c:511-550 | the published state calls for repairs if and only if a turn is open, and holds everything they are built from |
| `Recovery.RepairsClose` | src/cli_history_repair.c:66-97 | for every sound log the repairs are all accepted, close the turn and leave the queue alone |
| `Recovery.RepairsResume` | src/cli_history_repair.c:66-97 | after a crash behind k of the repairs, rebuilding gives exactly the others |
| `Recovery.StartupQuiets` | src/cli.c:1059-1105 | repairs and the discard of an undelivered input are accepted and leave a closed log with nothing queued |
| `Recovery.CrashRecovery` | src/cli.c:688-719 | for every accepted history, missing transition included, startup's records are accepted and leave the session quiet |
| `LiveLog.CrashThenContinue` | src/cli.c:1059-1143 | a crash behind any record of any live run, between two records of one callback too, is recovered into a fresh session that satisfies the joint invariant, runs with the model the flag or the history says and has it recorded, its context in shape if it was |
| `Restart.RecoveredContinues` | src/cli.c:1059-1143 | the same of every accepted history, whatever its checkpoints; the context is in shape if they cut at turns |
| `Restart.RecoverySays` | src/cli_history_repair.c:66-97 | a recovered turn gets one placeholder per open call in order, the unknown text exactly for those that may have run, and then the interruption marker |
| `Restart.RepairsSay` | src/cli_history_repair.c:14-64 | the repairs are messages marked as repairs with the outcome unknown exactly for calls that may have run and not executed for the others |
| `Restart.SettingsAccepted` | src/cli_sessions.c:1858-1891 | the setting records startup writes, each only where it differs from the last one recorded, are accepted and leave both settings recorded |
| `LiveRecords.RunGrows` | src/cli.c:474-531 | over every run the log moves only by records accepted one after another, each checkpoint cut at a turn, none of the kind decode refuses |
| `LiveLog.RunRecords` | src/cli.c:474-531 | behind the history a session opened with, the records of a run are an accepted history whose state is the live log; checkpoints go on cutting at turns and no record is of the kind decode refuses |
| `LiveLog.RunKeepsShape` | src/cli_history_replay.c:140-293 | over every run the context stays an optional summary, whole turns and at most the turn under way |
| `LiveLog.LogReloadsLive` | src/cli_history_store.c:42-194 | if every line of a run fits, the store holds exactly the run's records, its bytes reload to itself, and what they reload to are exactly the live messages, model and directory |
| `LiveRecords.RunKeepsSettings` | src/cli_repl.c:864-940 | over every run the live model and directory stay the ones last recorded, while the model partial replies carry never changes |
| `LiveLog.LiveSettings` | src/cli_history_replay.c:432-446 | at the end of every run they are the values of the last setting records of old history and run together |
| `LiveRecords.PartialModelIff` | src/cli.c:509-516 | over every run, partial replies carry the live model if and only if the model last recorded is the one the session was opened with |
| `LiveRecords.StalePartial` | src/cli.c:509-516 | one accepted /model is enough for the next partial reply to carry the old name |
| `LiveLog.StoreFollows` | src/cli_history_store.c:143-194 | appending the records a run writes succeeds for each and keeps the store what reloading gives |
| `Store.AppendIsOneStep` | src/cli_history_store.c:143-194 | append succeeds exactly when one replay step accepts the record, or the transition for a store without one, the line fits and the log takes it, and publishes the state after that step |
| `Store.AppendReports` | src/cli_history_store.c:143-194 | the status of an append is that of the one step, or out of memory for a line that does not fit |
| `Store.FailureChangesNothing` | src/cli_history_store.c:143-194 | a failed append leaves history and log as they were and publishes nothing |
| `Store.AppendReloads` | src/cli_history_store.c:42-133 | after an append the log reloads to the same history and state, if and only if the record is not a repaired assistant message with calls |
| `Store.RunReloads` | src/cli_history_store.c:42-194 | over any run of appends, failing ones included, the store stays what reloading its log would give |
| `Store.LineIsTyped` | src/cli_history_store.c:15-19 | no line the codec writes is ever taken for an old untyped message |
| `Store.HistoryStore.Append` | src/cli_history_store.c:143-194 | append in memory, replay, encode and log, with the record taken back on any failure, as the specification says |
| `Store.HistoryStore.Load` | src/cli_history_store.c:99-133 | loading rebuilds exactly the specified history and state, or publishes nothing and returns the status of the first line or record refused |
| `Store.HistoryStore.LoadRecord` | src/cli_history_store.c:42-79 | one line is taken as old message, transition or typed record, or refused, out of memory included, as the specification says |
| `CodecRoundTrip.RecordRoundTrip` | src/cli_history_codec.c:410-485 | for every valid record within 8 MiB, decode of encode gives the record back, in an arena of 8 MiB blocks, except a repaired assistant message with calls, which is always refused |
| `CodecRoundTrip.RefusedRecord` | src/cli_history_codec.c:700-704 | a concrete valid record that is written and then refused |
| `CodecRoundTrip.DecodedShape` | src/cli_history_codec.c:780-890 | what a line decodes to is valid if and only if the line's type is not `transition` or its record id is one more than its legacy count, and is never one of the refused kind |
| `CodecRoundTrip.TransitionDecodes` | src/cli_history.c:248-263 | every transition with a positive id is read back from its text, whether its id follows its count or not |
| `CodecRoundTrip.InvalidDecodes` | src/cli_history.c:248-263 | a concrete line that decodes to an invalid record |
| `CodecRoundTrip.DecodedRoundTrip` | src/cli_history_codec.c:892-948 | whatever text a record was read from, writing it and reading that gives the same record |
| `CodecRoundTrip.MessageRead` | src/cli_history_codec.c:663-778 | the fields of every valid message read back as that message, with the one exception |
| `CodecRoundTrip.CallsRead` | src/cli_history_codec.c:629-661 | the tool calls written read back as the same calls in the same order |
| `CodecRoundTrip.TreeFits` | src/cli_history_codec.c:174-211 | a record nests at most three deep and its only number is the version |
| `LineFormat.LineIs` | src/cli_history_codec.c:11-408 | the text of every record is its line spelled out byte for byte: member order, each kind's, role's, outcome's, source's, resolution's and field's own name, numbers as decimal strings, raw output in base64 |
| `CodecMethods.EncodeRecord` | src/cli_history_codec.c:410-485 | the writer calls produce exactly the text of the record's tree; invalid and oversized records are refused |
| `CodecMethods.WriteMessage` | src/cli_history_codec.c:213-284 | the conditional fields are written exactly as the message's members |
| `CodecMethods.WriteToolCalls` | src/cli_history_codec.c:174-211 | the loop writes one object per call, in order |
| `CodecMethods.WritePayload` | src/cli_history_codec.c:286-408 | each kind's payload is written exactly as its members |
| `CodecMethods.ParseToolCalls` | src/cli_history_codec.c:629-661 | the loop reads every call or refuses them all; an empty array is refused |
| `CodecMethods.DecodeRecord` | src/cli_history_codec.c:892-948 | the parser fed the whole line yields exactly the decoded record, with the status for empty, oversized, too large and unreadable lines |
| `Base64.CanonicalBothWays` | src/cli_history_codec.c:547-609 | a text decodes to some bytes if and only if it is their canonical encoding: full padding, zero pad bits |
| `Base64.Encode` | src/cli_history_codec.c:127-172 | the group loop and the padded rest produce the canonical encoding |
| `Base64.Decode` | src/cli_history_codec.c:547-609 | the quad loop accepts exactly canonical text of at most 1 MiB of content |
| `Base64.QuadChecked` | src/cli_history_codec.c:570-592 | the loop's checks refuse exactly the quads that are not canonical where they stand |
| `Base64.DecodedLength` | src/cli_history_codec.c:549-562 | the length fixed in advance from the last two bytes is the length of the result |
| `Base64.QuadDenotes` | src/cli_history_codec.c:127-172 | the four symbols written for three octets stand, by their places in the alphabet of section 4 of RFC 4648, for the same 24 bits |
| `Decimal.DecimalRoundTrip` | src/cli_history_codec.c:505-526 | a text is read as a 64-bit number if and only if it is that number's decimal text |
| `Decimal.ParseU64` | src/cli_history_codec.c:505-526 | the digit loop refuses overflow before it happens and accepts exactly canonical numbers |
| `JsonRoundTrip.ParseUndoesWrite` | src/json_write.c:128-391 | parsing what the writer produced for any tree gives that tree back if it nests at most 1000 deep, and fails if deeper |
| `JsonRoundTrip.ParseUndoesWriteInChunks` | src/json_parse.c:688-729 | the same for any split of the written bytes over feeds |
| `JsonRoundTrip.TextIsInjective` | src/json_write.c:128-391 | two trees with the same text are the same tree, duplicate keys and their order included |
| `JsonRoundTrip.FeedValue` | src/json_parse.c:324-423 | in any open context the machine reads a tree's text and attaches exactly that tree |
| `JsonRoundTrip.DeepValueFails` | src/json_parse.c:230-264 | a tree that would pass 1000 open containers fails wherever it stands |
| `JsonLanguage.ParseIff` | src/json_parse.c:324-729 | for every byte string and tree: the parser reads the one as the other if and only if the string is a JSON text of RFC 8259, white space, every escape, surrogate pairs and all, that denotes the tree, nests at most 1000 deep and has no number of 512 bytes or more |
| `JsonGrammar.ScalarRead` | src/json_parse.c:202-228 | a numbered escape of any scalar value below 0x10000, in either hex case, is read as the one UTF-8 character that encodes it |
| `JsonGrammar.PairRead` | src/json_parse.c:509-553 | a high and a low half are read as the character of the value they make up |
| `JsonGrammar.LoneHalfFails` | src/json_parse.c:509-553 | a low half alone fails, and so does a high half with anything but a low half right behind it |
| `JsonGrammar.ScalarUnique` | src/json_parse.c:202-228 | a character encodes exactly one scalar value and is what the parser writes for it |
| `JsonWriter.ValueFills` | src/json_write.c:128-168 | writing any tree into a free slot succeeds and appends exactly its text, commas included |
| `JsonWriter.MembersExtend` | src/json_write.c:357-391 | keys and values written in turn append exactly the members' text |
| `JsonWriter.DocumentText` | src/json_write.c:393-404 | a fresh writer ends with the whole document and no open container |
| `JsonWriter.JsonWriter.Begin` | src/json_write.c:302-313 | opening a container moves the writer as the specification, misuse included |
| `JsonWriter.JsonWriter.End` | src/json_write.c:315-339 | closing one fails on a mismatch or an awaited value, and fails for good |
| `JsonWriter.JsonWriter.Key` | src/json_write.c:357-391 | a key is written only where one is due |
| `JsonWriter.JsonWriter.AppendEscapedString` | src/json_write.c:218-284 | the byte loop appends the quoted, escaped string |
| `JsonParser.ChunksDoNotMatter` | src/json_parse.c:688-707 | feeding chunk after chunk is feeding their concatenation |
| `JsonParser.FeedEscape` | src/json_parse.c:439-553 | reading an escaped string gives back every byte of the original |
| `JsonParser.Parser.StepByte` | src/json_parse.c:659-686 | the parser object moves as the machine on every byte, given-back bytes included |
| `JsonParser.Parser.FeedChunk` | src/json_parse.c:688-707 | a chunk moves the object as feeding it to the machine; the first failure stops it |
| `JsonParser.Parser.FinishDocument` | src/json_parse.c:709-729 | finishing accepts exactly a completed document, a pending number included |
| `JsonParser.Parser.HandleUnicodeByte` | src/json_parse.c:509-553 | hex digits and surrogate pairs move the object as the machine, of which `JsonGrammar.ScalarRead`, `PairRead` and `LoneHalfFails` hold |
| `JsonParser.ValidateNumber` | src/json_parse.c:557-596 | the index scan accepts exactly the literals of the specification |
| `JsonNumber.LiteralIffGrammar` | src/json_parse.c:557-596 | those literals are exactly the numbers of section 6 of RFC 8259 |
| `JsonNumber.IntegerLiteral` | src/json_parse.c:598-613 | a literal without sign, point and exponent denotes its digits, so of these only `1` reads as the schema version |
| `JsonNumber.VersionLiterals` | src/cli_history_codec.c:923-927 | `1.0` and `10e-1` read as the schema version too, `1.1` does not |
| `JsonArena.PushGrows` | src/json_value.c:84-113 | pushing one item at a time doubles an array exactly when it is full |
| `JsonArena.OutgrowsIff` | src/arena.c:93-96 | a text that parses meets a refused allocation somewhere on the way if and only if its tree has a string, key or array larger than a block |
| `JsonArena.TextAllocates` | src/json_value.c:84-113 | a tree whose array items are at least sixteen bytes of text each fits any arena whose blocks hold its text |
| `JsonArena.ArgumentsStatus` | src/cli_conversation.c:390-412 | arguments are good if and only if they parse to an object and no string, key or array needs more than a block; what is refused first, allocation or text, decides the status |
| `JsonArena.LongArgument` | src/arena.c:93-96 | an argument object with a string between two block sizes is good for the larger arena and out of memory for the smaller one |
| `Utf8.SequenceIsChar` | src/cli_utf8.c:30-81 | the scanner accepts exactly the characters of section 4 of RFC 3629 |
| `Utf8.Validate` | src/cli_utf8.c:83-99 | a text is accepted if and only if it is a sequence of such characters |
| `Utf8.PreviousUndoesNext` | src/cli_utf8.c:101-151 | stepping back from the end of a character returns to its start |
| `Utf8.PreviousExists` | src/cli_utf8.c:122-151 | at the end of a non-empty well-formed prefix there is a character to step back over |
| `Utf8.WellFormedConcat` | src/cli_utf8.c:83-99 | behind a well-formed prefix the whole is well-formed exactly when the rest is |
| `Utf8Stream.FixedIsWellFormed` | src/cli_utf8_stream.c:20-130 | for any bytes the fixed text is well-formed; a text is left alone if and only if it is well-formed |
| `Utf8Stream.FixedBounded` | src/cli_utf8_stream.c:7-33 | the fixed text is at most three times as long as the input |
| `Utf8Stream.FixedChar` | src/cli_utf8_stream.c:40-79 | a character in front of anything is kept |
| `Utf8Stream.FixedBroken` | src/cli_utf8_stream.c:40-130 | where no character starts, a lead byte with the tails it can take, or any other byte alone, becomes one replacement character and the rest is read afresh |
| `Utf8Stream.ChunksDoNotMatter` | src/cli_utf8_stream.c:81-118 | any chunking gives the one-chunk result |
| `Utf8Stream.ScannersAgree` | src/cli_conversation.c:414-436 | the conversation's own scanner accepts the same sequences as the other one |
| `Utf8Stream.NormalizedWellFormed` | src/cli_conversation.c:438-459 | tool output is made well-formed, and left alone if it already is |
| `Utf8Stream.NormalizedPieces` | src/cli_conversation.c:438-459 | the conversation's own fixer keeps a character in front and makes one replacement of one byte where none starts |
| `Utf8Stream.NormalizeUtf8` | src/cli_conversation.c:438-459 | the loop produces that text, or fails as soon as it would pass the limit |
| `Utf8Stream.Stream.FeedOne` | src/cli_utf8_stream.c:40-79 | one byte moves the stream as the specification; a byte that breaks a held sequence is given back |
| `Utf8Stream.Stream.FeedBytes` | src/cli_utf8_stream.c:81-118 | the loop with its ASCII fast path moves the stream as the specification |
| `Sanitize.OutputControlFree` | src/cli_render_sanitize.c:20-31 | for any input in any state the output has no ESC, no DEL and no C0 control but newline and tab |
| `Sanitize.ChunksDoNotMatter` | src/cli_render_sanitize.c:141-179 | chunking changes neither output nor state |
| `Sanitize.LeftAloneIffClean` | src/cli_render_sanitize.c:38-139 | a text is left alone if and only if it is clean, C1 controls and dangling leads included |
| `Sanitize.WellFormedIsCleaned` | src/cli_render_sanitize.c:61-79 | for well-formed input no C1 pair survives and a second pass changes nothing |
| `Sanitize.PipelineIsClean` | src/cli_render_sanitize.c:38-179 | behind the UTF-8 fixer the same holds for any bytes |
| `Sanitize.IllFormedLetsC1Through` | src/cli_render_sanitize.c:61-79 | a concrete ill-formed input whose output is a C1 control that a second pass removes |
| `Sanitize.CleanIffLeadsKept` | src/cli_render_sanitize.c:61-79 | from any state the output carries no C1 control and no dangling lead if and only if every 0xC2 let out by a byte not shown is followed by a shown byte that is no C1 second half |
| `Sanitize.SecondPassIff` | src/cli_render_sanitize.c:38-139 | a second pass changes nothing if and only if that holds of the input |
| `Sanitize.WellFormedIffUnsplit` | src/cli_render_sanitize.c:3-8 | for well-formed input the output is well-formed if and only if the 4096-byte cap splits no character |
| `Sanitize.CapSplitsCharacter` | src/cli_render_sanitize.c:3-8 | a concrete well-formed input whose output is not |
| `Sanitize.ControlSequenceVanishes` | src/cli_render_sanitize.c:105-113 | a whole control sequence under the cap leaves no trace (section 5.4 of ECMA-48) |
| `Sanitize.ControlStringVanishes` | src/cli_render_sanitize.c:115-136 | so does a whole control string, ended by BEL or ESC and a backslash (section 5.6 of ECMA-48) |
| `SanitizeUnits.PiecesShown` | src/cli_render_sanitize.c:38-139 | a text of plain bytes, C1 controls, escape sequences, control sequences and control strings under the cap is shown without its control functions and otherwise byte for byte |
| `SanitizeUnits.LoneEscape` | src/cli_render_sanitize.c:81-103 | an ESC before a byte no sequence starts with is dropped by itself; that byte is read afresh |
| `Sanitize.SwallowingEnds` | src/cli_render_sanitize.c:3-8 | inside a sequence scanning is back to normal text after at most 4096 bytes |
| `Sanitize.Sanitizer.StepByte` | src/cli_render_sanitize.c:38-139 | one byte moves the object as the specification, the request to see it again included |
| `Sanitize.Sanitizer.FeedChunk` | src/cli_render_sanitize.c:141-179 | the loop that copies plain runs whole moves the object as the specification |
| `Emphasis.MatchedGood` | src/cli_markdown_inline.c:253-360 | for any runs, matched pairs never cross; per run, what it gave as opener, what it gave as closer and what remains add up to its length, or to nothing above three; openers and closers give the same in all |
| `Emphasis.FindOpener` | src/cli_markdown_inline.c:290-310 | the nearest suiting opener on the stack is found, or none suits |
| `Emphasis.CloseKeepsGood` | src/cli_markdown_inline.c:284-338 | a closer goes on until it is used up or no opener suits, and keeps the invariant |
| `Emphasis.NothingMissed` | src/cli_markdown_inline.c:290-338 | no closer passes over an opener that suits it: both have delimiters left only if a pair was closed around the opener |
| `Emphasis.PaintedIff` | src/cli_markdown_inline.c:317-323 | a byte is bold or italic exactly when it lies inside a pair of two or of one delimiter; code is untouched |
| `Emphasis.MarkedWhere` | src/cli_markdown_inline.c:342-351 | exactly the first delimiters of closers and the last of openers are stripped |
| `Emphasis.StrippedTotal` | src/cli_markdown_inline.c:342-351 | no delimiter is stripped twice: in all, two per delimiter a pair used |
| `Emphasis.Search` | src/cli_markdown_inline.c:290-310 | the stack loop finds the same opener |
| `Emphasis.Matcher.CloseWith` | src/cli_markdown_inline.c:284-338 | the inner loop over the arrays does what the specification's closing does, styling as it goes |
| `Emphasis.MatchEmphasis` | src/cli_markdown_inline.c:253-360 | style and stripped arrays end exactly as the matching says |
| `MarkdownInline.TokensMaximal` | src/cli_markdown_inline.c:82-141 | the runs are maximal, of one delimiter byte each, and in order |
| `MarkdownInline.TokensCover` | src/cli_markdown_inline.c:82-141 | every delimiter byte is in some run |
| `MarkdownInline.Tokenize` | src/cli_markdown_inline.c:82-141 | the scan produces those runs with their flanking flags, of which `MarkdownFlanking.StyledBetween` and `InertText` say on the bytes what they allow |
| `MarkdownInline.CodeSpansGood` | src/cli_markdown_inline.c:151-209 | code spans are in order and apart, each closed by a run as long as the one that opened it |
| `MarkdownInline.ResolveCodeSpans` | src/cli_markdown_inline.c:151-209 | the three arrays end exactly as the spans say |
| `MarkdownLaws.EmphasisRunsGood` | src/cli_markdown_inline.c:430-440 | the runs emphasis works on lie wholly outside every code span |
| `MarkdownLaws.OnlyDelimitersStripped` | src/cli_markdown_inline.c:397-459 | only `*`, `_` and backtick bytes are ever taken away |
| `MarkdownLaws.CodeInteriorKept` | src/cli_markdown_inline.c:189-197 | no byte inside a code span is taken away |
| `MarkdownLaws.LengthConserved` | src/cli_markdown_inline.c:397-459 | the output is shorter by exactly two backtick runs per code span and two delimiters per delimiter used in a pair |
| `MarkdownFlanking.ShownIff` | src/cli_markdown_inline.c:253-360 | a byte of the text is bold or italic if and only if a pair of two or one delimiters lies around it, and code if and only if it is inside a code span |
| `MarkdownFlanking.StyledBetween` | src/cli_markdown_inline.c:98-131 | a styled byte lies between two whole runs of one delimiter byte of which, by the bytes next to them, the first may open, the second may close and the two may pair |
| `MarkdownFlanking.StrippedBy` | src/cli_markdown_inline.c:98-131 | a delimiter goes only with a run that, by the bytes next to it, may open or close |
| `MarkdownFlanking.InertRuns` | src/cli_markdown_inline.c:98-131 | runs over three and underscores between word bytes may do neither; no run opens before white space or the end, none closes behind white space or the start |
| `MarkdownFlanking.WordKept` | src/cli_markdown_inline.c:127-128 | underscores inside a word stay |
| `MarkdownFlanking.InertText` | src/cli_markdown_inline.c:397-459 | a text without backticks whose runs may neither open nor close is shown plain and unchanged |
| `MarkdownFlanking.RunsComplete` | src/cli_markdown_inline.c:430-440 | every whole run that does not start inside a code span takes part in the matching |
| `MarkdownFlanking.NothingPassedOver` | src/cli_markdown_inline.c:284-338 | two runs that suit each other by their neighbours and lengths and both still show a delimiter are kept apart by a pair around the first |
| `MarkdownSingle.PhraseShown` | src/cli_markdown_inline.c:397-459 | in any text whose only delimiters are two equal runs of one to three, white space or the ends outside them and a phrase between them that neither starts nor ends with white space, exactly the delimiters go and exactly the phrase is styled: italic, bold or both |
| `MarkdownCode.SpansNearest` | src/cli_markdown_inline.c:151-209 | a code span ends at the nearest later run of backticks as long as its first |
| `MarkdownCode.LoneTicks` | src/cli_markdown_inline.c:151-209 | a run of backticks outside every span has no later run of its length |
| `MarkdownOutput.Compact` | src/cli_markdown_inline.c:362-395 | the output is what was not stripped, and the spans give each output byte its own style and cover the output |
| `MarkdownOutput.SpanListCovers` | src/cli_markdown.c:45-63 | the accumulating loop accepts exactly spans that follow one another from 0 to the end, none empty |
| `MarkdownOutput.InlineParse` | src/cli_markdown_inline.c:397-459 | text, styles and spans of the whole parse are those of the specification, of which the rows of `MarkdownFlanking`, `MarkdownSingle` and `MarkdownCode` hold |
| `Editor.RunKeepsGood` | src/cli_editor.c:74-236 | over every run of operations the text stays well-formed, NUL-free and within 1 MiB with the cursor between characters |
| `Editor.ApplyKeeps` | src/cli_editor.c:74-236 | each operation keeps that, moves and deletions are never refused, and a refused one changes nothing |
| `Editor.InsertKeeps` | src/cli_editor.c:109-138 | an insert is accepted if and only if its text is good and fits |
| `Editor.InsertSays` | src/cli_editor.c:109-138 | an accepted insert keeps what was on either side of the cursor, puts its own text between and stands behind it |
| `Editor.SetIsInsert` | src/cli_editor.c:85-107 | setting good text is inserting it into an empty buffer |
| `Editor.MovesStep` | src/cli_editor.c:140-174 | left and right step over exactly one whole character, do nothing at the ends and leave the text alone |
| `Editor.CutsSay` | src/cli_editor.c:195-236 | backspace takes exactly the character before the cursor and delete exactly the one behind it |
| `Editor.LineMovesKeep` | src/cli_editor.c:176-193 | the bytewise line moves end between characters |
| `Editor.LineStartAt` | src/cli_editor.c:176-183 | line start is the nearest place behind a newline or the beginning |
| `Editor.LineEndAt` | src/cli_editor.c:185-193 | line end is the nearest newline or the end |
| `Editor.BackspaceUndoesInsert` | src/cli_editor.c:195-215 | backspace after inserting one character restores text and cursor |
| `Editor.MovesUndo` | src/cli_editor.c:140-174 | left undoes right and right undoes left |
| `Editor.DeleteIsRightBackspace` | src/cli_editor.c:217-236 | delete is a step right and a backspace |
| `Editor.MoveWithin` | src/cli_editor.c:128-130 | overlapping bytes are moved as if copied first, all others unchanged |
| `Editor.FindPrevious` | src/cli_utf8.c:122-151 | the backward scan finds the specified boundary or refuses |
| `Editor.LineEditor.Reserve` | src/cli_editor.c:8-41 | capacity grows to hold the text and its NUL, or the limit refuses; the text is unchanged |
| `Editor.LineEditor.Replace` | src/cli_editor.c:85-107 | setting the text moves the buffer as the specification |
| `Editor.LineEditor.InsertText` | src/cli_editor.c:109-138 | the in-place splice moves the buffer as the specification |
| `Editor.LineEditor.Erase` | src/cli_editor.c:195-215 | the in-place cut moves the buffer as the specification |
| `Editor.LineEditor.DeleteNext` | src/cli_editor.c:217-236 | the in-place cut moves the buffer as the specification |
| `Editor.LineEditor.Left` | src/cli_editor.c:140-156 | moving left moves the cursor as the specification |
| `Editor.LineEditor.Right` | src/cli_editor.c:158-174 | moving right moves the cursor as the specification |
| `Editor.LineEditor.ToLineStart` | src/cli_editor.c:176-183 | the loop stops at the specified place |
| `Editor.LineEditor.ToLineEnd` | src/cli_editor.c:185-193 | the loop stops at the specified place |

## Left out

- Sockets, TLS, HTTP and event streams, the reactor and process spawning: they appear as the events of `Conversation.Event` and the answers of `Conversation.Env`.
- The session log's file format and its truncation of a torn last line: the log is a sequence of byte strings, and a crash leaves any prefix of it.
- The REPL, composer, terminal, renderer, status line and presentation code: only the order queue, steer, resolve, start is taken from the REPL.
- Session listing and locking, the metadata store, configuration, command tables, input history and selectors: file-system calls and simple field mapping.
- Building the model request body and the tool definitions: output of the JSON writer nothing reads back.
- The compaction request and its run loop in `src/cli_compact.c`: only the choice of the prefix is modelled.
- Allocation failure and pointer ownership: the failures of `malloc` are not branches of the model. The size limits that return the same status are, and so are the blocks of the arenas that tool arguments and log lines are parsed in.
- Integer counters other than the 64-bit record and turn ids: `size_t` lengths and model step counts are natural numbers, since the limits around them are far below overflow.
- JSON numbers as doubles: a number is its literal. Its exact value and whether `strtod` rounds that to 1 are modelled, for the schema version; `%.17g` writes only that 1.
- `src/cli_history.c`'s growth of the record array and `src/cli_bytebuf.c`: sequences stand for them.
- The pending draft that startup hands back to the composer is not part of this model; the discard of the queued input it comes from is.
- `src/cli_session_switch.c` prepares a history without that discard; it is not part of this model.
- Display width of code points (`src/cli_utf8.c:187-218`) and block-level Markdown: table lookups and layout.
- The growth of the delimiter, span and stack arrays in the Markdown code: sequences stand for them.
