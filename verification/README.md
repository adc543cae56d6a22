# voujr: a verified model of its runtime

This project models the parts of voujr, a terminal copilot for Kubernetes operations, whose correctness no
single call shows: parsers and logs whose meaning depends on a whole history, and goroutines that may
interleave in any way. JSON, SQL, HTTP, the clock, randomness, the language model and the user
appear as parameters that may take any value; SHA-256, AES-GCM and the square root appear as functions of
which only the stated property is assumed.

| file | what it models |
|---|---|
| `Streaming.dfy` | the gateway's event stream: fragment map, flush queue, usage, and the consumer that drains it |
| `Crypto.dfy`, `AuditChain.dfy`, `AuditStore.dfy`, `Recorders.dfy` | field encryption, the hash-chained audit log, its store, and concurrent recording |
| `Dispatch.dfy` | the safety chain of a tool call: allow-list, validation, mode, policy, dry-run, approval, execution, audit |
| `ApprovalBridge.dfy` | the approval modal as a protocol between agent, listener, update loop and answering goroutines |
| `Router.dfy`, `MessageStore.dfy`, `AgentLoop.dfy` | routing, stored conversations, and the bounded reason-act-observe loop with resume |
| `SessionWindow.dfy` | the rolling window and the summary of what it evicts |
| `Recall.dfy` | embeddings as bytes, cosine similarity over exact reals, and ranked recall |
| `Findings.dfy`, `AuditScan.dfy`, `Controller.dfy` | finding keys, concurrent scans, the findings table and the audit loop |
| `Migrations.dfy` | splitting a migration into statements |
| `Text.dfy`, `Seqs.dfy`, `StableSort.dfy`, `Provider.dfy`, `Wrappers.dfy` | Go's string helpers, sequences, stable sorting, shared types |

Code that changes state is modelled by classes and loops whose contracts tie the new state to functions of
the old one; concurrent code is modelled by steps, and its theorems hold for every legal sequence of steps.

## Where the code and its promises part

Each of these is a theorem here, with the condition under which the promise holds.

- A chunk that carries text hides its tool-call fragments, and fragments after the last `tool_calls` finish are
  never delivered. Every argument byte arrives exactly when neither happens (`Streaming.EverythingDelivered`).
- The comment at internal/agent/loop.go:128 says that a real read error aborts a turn. Every failing read of the
  stream also says done, so such a turn ends normally, and loses its usage (`Streaming.StreamTurn`).
- Verification answers with the id of the broken row, and with 0 for an intact log, but checks no id: a log is reported
  as intact exactly if it is, or if its first broken row has id 0 (`AuditChain.ZeroVerdict`). One edited row with id 0
  hides any change of all rows behind it (`AuditChain.ZeroIdHidesTampering`).
- The audit log binds its payloads only because they cannot start with a hexadecimal digit. Verification does not check
  that: every intact log of two or more rows has a one-row twin with the same last hash
  (`AuditChain.HexPayloadIsAmbiguous`). Cutting off the newest rows is invisible, too (`AuditChain.SuffixDropVerifies`).
  Entries that cannot be encoded are logged with an empty payload; the theorems cover those.
- A call that gives up after the screen has its request leaves an answer behind that the next call takes for its own
  (`ApprovalBridge.AttendanceIsNeeded`); giving up earlier is harmless.
- A message with a name but neither tool calls nor a call id loses the name on the way through the store
  (`MessageStore.RowRoundTrip`), so a session resumes exactly only if every named tool call has an id
  (`AgentLoop.ObservationsSurvive`).
- Saving is best effort, message by message. The stored conversation, which is what a resumed session starts from, stays
  well formed exactly as long as every step is stored as a whole or not at all (`AgentLoop.StoredTurnIsClosed`).
- Token counts of a stream are not checked. A negative count can lower the spending, and below the threshold the
  reasoning tier comes back (`Router.RefundReopensReasoning`); without a negative cost it does not (`AgentLoop.Agent.ChoicesStay`).
- A summary built by evicting messages one at a time differs from one built at once whenever a line other than the
  last ends in white space (`SessionWindow.RollingIsBatch`).
- A dedup key identifies its finding exactly when none of its five parts contains a bar (`Findings.KeyIdentifies`).
- A report may list findings of equal severity and category in a different order from run to run
  (`AuditScan.ScheduleCanShow`). It is the same for all schedules exactly if any two rules' findings of each severity
  rank and category read the same in either order (`AuditScan.FixedReport`), for instance if no two rules share one
  (`AuditScan.SoleEmittersFixTheReport`).

## Model

| member | source | states |
|---|---|---|
| Streaming.SseStream.QueuePending | internal/ai/portkey.go:424-434 | all pending calls move to the flush queue, in index order, and none stays behind |
| Streaming.SseStream.Absorb | internal/ai/portkey.go:395-408 | one fragment extends exactly its own index's entry, so the map stays the gathering of all open fragments |
| Streaming.SseStream.Recv | internal/ai/portkey.go:333-420 | hands out calls and texts without losing or repeating any; each call consumes a line, shrinks the flush queue or is done; which lines are consumed and when it reports failure |
| Streaming.SseStream.Conserved | internal/ai/portkey.go:338-434 | at any time every accepted argument byte is in exactly one of returned calls, flush queue and pending map |
| Streaming.StreamTurn | internal/agent/loop.go:116-150 | terminates on every finite body and yields the text, the calls and the usage that the lines before the end mark mean; usage only when the end is marked |
| Streaming.LineTells | internal/ai/portkey.go:380-417 | field by field what a chunk says: its text, or else its fragments and whether it finishes the calls, and its tokens |
| Streaming.UsageTells | internal/ai/portkey.go:380-387 | the last chunk that reports tokens counts, prompt tokens as input and completion tokens as output |
| Streaming.TextTells | internal/agent/loop.go:136-138 | the text of a stream is the texts of its lines, one after the other |
| Streaming.GatherAt | internal/ai/portkey.go:395-408 | what is pending for an index depends on that index's own fragments alone |
| Streaming.Reassembly | internal/ai/portkey.go:395-434 | fragments of any calls, split anywhere and interleaved across indices in any way, come back as exactly those calls in index order |
| Streaming.InterleavingIsIrrelevant | internal/ai/portkey.go:395-434 | two streams that agree index by index yield the same calls |
| Streaming.EverythingDelivered | internal/ai/portkey.go:391-420 | all argument bytes sent are delivered if and only if none is masked by text and none is left open |
| Crypto.DecUndoesEnc | internal/store/sqlite.go:47-59 | what is written comes back, with or without a cipher |
| Crypto.UntaggedPassesThrough | internal/security/crypto.go:60-63 | text without the tag is read as it is |
| Crypto.EncryptionTells | internal/security/crypto.go:49-78 | with a cipher every text is tagged and sealed, without one none is; only tagged text is opened, and text that does not open is an error |
| AuditChain.VerdictIsFirstBreak | internal/store/sqlite.go:506-525 | verification reports 0 for an intact log, and otherwise the id of the first row whose links fail |
| AuditChain.ZeroVerdict | internal/store/sqlite.go:496-525 | 0 is reported if and only if the log is intact or its first broken row has id 0 |
| AuditChain.ZeroIdHidesTampering | internal/store/sqlite.go:507-525 | from every intact log, editing the first row's payload and setting its id to 0 makes verification report 0, whatever follows, and can keep the last hash |
| AuditChain.LastHashDetermines | internal/store/sqlite.go:449-465 | two intact logs that end in the same hash hold the same payloads in the same order, or two of their rows are a hash collision |
| AuditChain.TamperingIsReported | internal/store/sqlite.go:498-526 | any change of the payload sequence that keeps the last hash is reported, unless it shows a collision, writes a payload that starts with a hexadecimal digit, or gives the first broken row id 0 |
| AuditChain.HashesAreDistinct | internal/store/sqlite.go:464-465 | no two rows of an intact log share a hash, or two rows collide |
| AuditChain.SuffixDropVerifies | internal/store/sqlite.go:498-526 | a log cut off at the end still verifies |
| AuditChain.HexPayloadIsAmbiguous | internal/store/sqlite.go:464-465 | every intact log of two or more rows shares its last hash with a log of one row, with no collision; that row's payload starts with a hexadecimal digit |
| AuditChain.EncryptionIsTransparent | internal/store/sqlite.go:513-522 | with any subset of rows encrypted the verdict is that of the same log in clear |
| AuditChain.ObjectsAreUntagged | internal/store/sqlite.go:458-470 | a JSON object neither carries the encryption tag nor starts with a hexadecimal digit |
| AuditChain.TaggedClearPayloadIsMisread | internal/store/sqlite.go:514-517 | a clear payload that does carry the tag makes verification fail once a cipher is set |
| AuditStore.AuditStore.Record | internal/store/sqlite.go:402-483 | a failure of any statement changes nothing; success adds one execution row and extends the chain by the entry's payload |
| AuditStore.AuditStore.NewExecution | internal/store/sqlite.go:412-447 | the execution row column by column, unless encrypting the arguments or a diff fails |
| AuditStore.AuditStore.Commit | internal/store/sqlite.go:448-482 | the next link: the hash covers the previous hash and the JSON of the entry, with an empty object for absent arguments |
| AuditStore.AuditStore.VerifyAuditChain | internal/store/sqlite.go:498-526 | computes the verdict on whatever the table holds |
| AuditStore.AuditStore.RecordedVerifies | internal/store/sqlite.go:402-526 | a log that only recording has written verifies, encrypted or not |
| AuditStore.ReadsAlike | internal/store/sqlite.go:513-518 | the verdict depends on stored payloads only through what they decrypt to |
| Recorders.StepInv | internal/store/sqlite.go:402-483 | each statement of any writer keeps the mutex, the snapshot and the chain invariant |
| Recorders.EveryCommittedStateIsIntact | internal/store/sqlite.go:402-483 | for any number of writers, any interleaving and any failures, every committed state verifies, has as many log rows as executions, and lists the committed payloads in commit order |
| Dispatch.Registry.Register | internal/tools/registry.go:132-139 | adds the tool under its own name, keeping the run invariant |
| Dispatch.Registry.Dispatch | internal/tools/registry.go:176-269 | one call's reply and everything it does to the world, in order; the whole trace stays gated and accounted for |
| Dispatch.Registry.ApproveAndExecute | internal/tools/registry.go:227-268 | approval when needed, then at most one execution and its audit entry |
| Dispatch.Registry.Record | internal/tools/registry.go:271-280 | one audit attempt when a sink is set, none otherwise |
| Dispatch.Registry.Declarations | internal/tools/registry.go:143-159 | lists exactly the tools on offer, each once, in name order |
| Dispatch.OfferedIffAdmitted | internal/tools/registry.go:143-200 | a tool is advertised exactly when a valid call of it passes the gates before the policy; a call of another has no effect |
| Dispatch.ReplyTellsTheOutcome | internal/tools/registry.go:251-268 | one dispatch executes at most once, with the given tool and arguments, and replies without error exactly when it executed and the tool succeeded |
| Dispatch.RefusalTells | internal/tools/registry.go:179-200 | unknown tool, allow-list, arguments and read-only mode refuse in this order, with their own errors, and nothing happens |
| Dispatch.ReplyTells | internal/tools/registry.go:202-268 | for every call that passes these gates, which error or which redacted result comes back, stage by stage, and the request that an approver is shown |
| Dispatch.AuditTells | internal/tools/registry.go:211-279 | every audit entry column by column: session, tool, cluster, risk, arguments, diff, approver, status and summary |
| Dispatch.EpisodeIsGated | internal/tools/registry.go:176-269 | a mutating tool is executed only if enabled, outside read-only mode, allowed by policy, and either free of approval in apply mode or with the event right before it a yes to the same tool and arguments and to the diff of the dry-run just made |
| Dispatch.EachExecutionHasItsYes | internal/tools/registry.go:227-252 | in every gated trace the executions that need approval never outnumber the yes decisions, so no yes serves twice |
| Dispatch.EpisodeIsAccounted | internal/tools/registry.go:203-265 | the audit entries of a dispatch are exactly its denials, rejections and executions, with matching status |
| Dispatch.EveryRunIsGatedAndAccounted | internal/tools/registry.go:176-280 | gate, one yes per execution, and accounting hold over every sequence of calls, sessions and world answers |
| Dispatch.AutoNeverApprovesRisky | internal/tools/approval.go:19-27 | however approvers are nested, a destructive or wider-than-namespace request is approved only by a person's own yes |
| Dispatch.ApproverTells | internal/tools/approval.go:19-45 | a rule-based approver says yes by itself if and only if nothing is destroyed, the request stays in a namespace, and a class of its operator occurs in the tool's name; otherwise its fallback decides, or it refuses |
| Dispatch.UnaskedOnlyIfOptedIn | internal/tools/approval.go:18-36 | however approvers are nested, an execution that needed approval has a person's yes to that request in its dispatch, or its tool matches a class that some operator opted into |
| Dispatch.PolicyTells | internal/security/policy.go:32-67 | what the shipped policy allows, denies with which reason, sends to approval, and calls cluster-wide |
| Dispatch.RiskyNeedsAPerson | internal/security/policy.go:32-67 | under the shipped policy a destructive or cluster-wide mutation that ran had a person's yes to that very request, and never touched a protected namespace |
| ApprovalBridge.Model.ResolveApproval | internal/tui/app.go:231-239 | the modal closes and one answer to its request is on its way |
| ApprovalBridge.Model.UpdateKey | internal/tui/app.go:148-160 | on a shown request y sends a yes and n or esc a no, closes the modal and arms one listener; every other key, and every key without a modal, changes nothing |
| ApprovalBridge.Model.UpdateApproval | internal/tui/app.go:193-199 | an arriving request is shown |
| ApprovalBridge.InitialInv | internal/tui/app.go:121-124 | the state after start-up satisfies the invariant |
| ApprovalBridge.StepKeepsInv | internal/tui/app.go:148-239 | every step of every party keeps it, unless a waiting call is cancelled |
| ApprovalBridge.EveryRunIsPaired | internal/tui/app.go:148-239 | in every interleaving exactly one of listener, message in flight and shown request exists, and each call returns the decision on its own request |
| ApprovalBridge.NothingIsOverwritten | internal/tui/app.go:193-199 | a request that reaches the screen never replaces an undecided one |
| ApprovalBridge.NeverStuck | internal/tui/app.go:217-239 | from every reachable state the open request can still be answered, and gets the user's answer |
| ApprovalBridge.AnswersAreKeys | internal/tui/app.go:148-239 | in every attended run each yes that a call returns is a y, and each no an n or esc, pressed while that very request was shown, and different returns go back to different key presses |
| ApprovalBridge.AnswerStrays | internal/tui/app.go:217-239 | the answer to an abandoned request can always reach the next call, whatever it asks |
| ApprovalBridge.AttendanceIsNeeded | internal/tui/app.go:229-234 | from every state with a waiting call, cancelling it can break the pairing |
| Router.Classify | internal/ai/router.go:49-68 | investigation exactly for tool loops and prompts with a keyword |
| Router.Route | internal/ai/router.go:72-108 | the decision for a classification |
| Router.ClassTells | internal/ai/router.go:49-68 | investigation if and only if in a tool loop or one of the eleven words occurs in the prompt |
| Router.RouteTells | internal/ai/router.go:72-108 | long from 150000 tokens, else reasoning for an investigation within 80% of a positive budget, else fast; with the model and token limit of each |
| Router.FallbacksTell | internal/ai/router.go:111-124 | the two fallbacks of each tier, in order, without empty ones and the primary |
| Router.FallbacksFor | internal/ai/router.go:111-124 | the other tiers' models in order, without empty ones and without the primary |
| Router.DecisionCoversTheTiers | internal/ai/router.go:89-124 | primary and fallbacks are exactly the configured models, the primary is no fallback, and it is empty only if no tier is configured |
| Router.ChoicesAreFinal | internal/ai/router.go:76-87 | with a growing prompt and rising spending the long tier is final and the reasoning tier does not come back |
| Router.RefundReopensReasoning | internal/ai/router.go:83-87 | rising spending is needed: once it falls below the threshold, an investigation is routed to the reasoning tier again |
| MessageStore.MessageStore.AppendMessage | internal/store/sqlite.go:272-287 | one row more, or nothing on failure |
| MessageStore.MessageStore.LoadMessages | internal/store/sqlite.go:290-321 | the session's rows, decoded in time and row order, or the first decryption failure |
| MessageStore.RowRoundTrip | internal/store/sqlite.go:273-318 | a message comes back unchanged if and only if it has no name, or tool calls, or a call id |
| MessageStore.LoadOrder | internal/store/sqlite.go:291-293 | loading keeps insertion order if and only if creation times never fall |
| MessageStore.AppendHolds | internal/store/sqlite.go:272-321 | appending a message adds exactly it, as it reads back, to what its session reads as |
| MessageStore.HoldsOneMore | internal/store/sqlite.go:291-319 | and leaves all other sessions as they were |
| AgentLoop.Agent.constructor | internal/agent/agent.go:101-120 | a fresh agent has the preamble only, and the default step budget for 0 |
| AgentLoop.Agent.Restore | internal/agent/agent.go:146-149 | the history becomes the preamble and the given messages, whatever it was |
| AgentLoop.Agent.Say | internal/agent/agent.go:124-129 | the message joins the history, and unless the save fails it joins the stored conversation as it reads back |
| AgentLoop.Agent.Assemble | internal/agent/prompt.go:57-86 | card, note of the recalled facts if there are any, and user message in this order, word by word; only the user message is recorded |
| AgentLoop.EstTokens | internal/agent/prompt.go:89-95 | a quarter of all characters, rounded down |
| AgentLoop.ObservationTells | internal/agent/loop.go:99-112 | what the model is told of one call, from the dispatch's events and the tool's result |
| AgentLoop.CostTells | internal/agent/loop.go:51-55 | a step costs the price of its reported input and output tokens, or nothing |
| AgentLoop.Agent.Ask | internal/agent/loop.go:31-33 | each request is routed on the history and spending so far; estimates never fall from one request to the next, nor does spending unless a negative cost was booked |
| AgentLoop.Agent.Reason | internal/agent/loop.go:46-58 | the streamed reply joins the history; its cost, taken from the price list when the stream has none, joins the spending |
| AgentLoop.Agent.Act | internal/agent/loop.go:67-79 | at each call's place one tool message: the redacted view or summary, cut at 6000 characters, if the dispatch executed the tool and it succeeded, and otherwise the tool's name and the dispatch's error |
| AgentLoop.Agent.RunSteps | internal/agent/loop.go:23-85 | the steps of a turn, from any assembled history: every streamed answer and every tool result or error at its place, requests, dispatches, text, spending, and how they end |
| AgentLoop.Agent.RunLoop | internal/agent/loop.go:14-86 | however the turn ends: every message of the history at its place, what a tool message tells of its call, the exact messages stored under any failing saves, the exact requests, dispatches, text and spending, and which way it ended after how many steps; well-formed histories stay well formed, the gate and the audit hold, and when all saves succeed and all messages survive the store loses nothing |
| AgentLoop.RunIsClosed | internal/agent/loop.go:57-80 | the messages of any number of steps answer every call by exactly one tool message with its id and name, in order, with no orphans |
| AgentLoop.TurnIsClosed | internal/agent/loop.go:14-86 | a turn keeps the history, and the part of it that is to be stored, well formed |
| AgentLoop.StoredStepIsClosed | internal/agent/loop.go:57-79 | what is stored of a step is well formed if and only if it is all of the step, with every named call identified, or nothing of it |
| AgentLoop.StoredTurnIsClosed | internal/agent/loop.go:57-79 | whatever saves fail, the stored conversation is well formed after every step if and only if each step was stored as a whole or not at all |
| AgentLoop.ObservationsSurvive | internal/agent/loop.go:71-78 | a step's tool messages survive storage if and only if every named call has an id |
| AgentLoop.Agent.RecordedIsLoaded | internal/agent/agent.go:122-149 | loading returns what was stored; if every save succeeded and every message survives, that is the history without preamble, cards and notes |
| AgentLoop.Agent.ChoicesStay | internal/agent/loop.go:30-57 | over a whole session the long tier is final, and unless a negative cost was booked no reasoning tier follows once spending has passed 80% of the budget |
| AgentLoop.CostIsNotNegative | internal/agent/loop.go:52-55 | no negative cost is booked when reported token counts and the prices of such counts are not negative |
| AgentLoop.Resume | cmd/voujr/main.go:325-430 | a resumed agent has the preamble and exactly the stored conversation; a load error stops the start |
| SessionWindow.FoldSummary | internal/session/summarize.go:14-37 | the previous summary and one line per question, call list and conclusion, trimmed |
| SessionWindow.OneLine | internal/session/summarize.go:39-45 | a single line of bounded length |
| SessionWindow.OneLineTells | internal/session/summarize.go:39-45 | character by character the text with spaces for line breaks, cut with a mark |
| SessionWindow.LineTells | internal/session/summarize.go:20-35 | which messages have a summary line, under which label, and what it says |
| SessionWindow.Manager.constructor | internal/session/memory.go:47-52 | starts empty, with 40 messages for 0; other sizes are taken as they are |
| SessionWindow.Manager.Append | internal/session/memory.go:57-65 | the window is the last min(n, max) messages and the summary stands for all older ones, whether or not storing succeeds |
| SessionWindow.RollingTrimsLines | internal/session/summarize.go:14-37 | one-at-a-time eviction yields every line, trimmed on the right, joined by line breaks |
| SessionWindow.RollingIsBatch | internal/session/memory.go:59-63 | it equals folding all evicted messages at once if and only if no line but the last ends in white space |
| SessionWindow.SummaryKeepsTheThread | internal/session/memory.go:54-56 | splitting the summary gives back one line per evicted turn, in order, when tool names hold no line break |
| Recall.EncodeVector | internal/store/store.go:31-40 | the little-endian bytes of the embedding |
| Recall.DecodeVector | internal/store/store.go:42-52 | the words of a blob; a ragged end is dropped |
| Recall.DecodeEncode | internal/store/store.go:31-52 | every embedding comes back from its bytes |
| Recall.EncodeDecode | internal/store/store.go:31-52 | every blob of whole words comes back from its embedding |
| Recall.EncodedTells | internal/store/store.go:36-38 | four bytes for each word, least significant first |
| Recall.Cosine | internal/store/store.go:56-70 | computes cosine similarity, 0 for empty, unequally long or zero vectors |
| Recall.CosineTells | internal/store/store.go:57-69 | similarity times both norms is the inner product; it is 0 for empty, unequally long or zero vectors |
| Recall.CauchySchwarz | internal/store/store.go:60-69 | the inner product is bounded by the norms, with equality exactly for proportional vectors |
| Recall.CosineIsBounded | internal/store/store.go:54-69 | similarity lies in [-1, 1] for all vectors |
| Recall.CosineIsSymmetric | internal/store/store.go:56-70 | the order of the two vectors is irrelevant |
| Recall.CosineIgnoresScale | internal/store/store.go:56-70 | positive scaling is irrelevant |
| Recall.CosineOfItself | internal/store/store.go:56-70 | a non-zero vector has similarity 1 with itself |
| Recall.CosineIsOne | internal/store/store.go:56-70 | similarity is 1 if and only if one vector is a positive multiple of the other, non-zero one |
| Recall.MemoryStore.SaveMemory | internal/store/sqlite.go:332-345 | one row more that stands for the memory, or nothing on failure |
| Recall.MemoryStore.RecallMemories | internal/store/sqlite.go:351-395 | of what the retrieved rows read as, the first k in falling cosine with the query, equal ones in row order; without a query the first k as retrieved; all for k not positive; an unreadable row fails the recall |
| Recall.RankingIsBySimilarity | internal/store/sqlite.go:375-386 | the ranking is an arrangement of the memories by falling cosine of their embeddings with the query, in which equal cosines keep row order |
| Recall.RecallSeesWhatWasSaved | internal/store/sqlite.go:332-380 | what is ranked is an arrangement of exactly the saved memories of the session, embeddings and texts as they were saved |
| Recall.RankingIsBest | internal/store/sqlite.go:384-389 | the ranking is a stable descending permutation, so nothing left out scores above anything returned and ties keep row order |
| Findings.KeyIdentifies | internal/audit/finding.go:66-69 | no other issue shares the finding's key if and only if its five parts hold no bar |
| Findings.Impostor | internal/audit/finding.go:66-69 | otherwise a concrete other issue with the same key |
| AuditScan.FinishingOrder | internal/audit/engine.go:56-71 | under every legal schedule each task finishes exactly once |
| AuditScan.StepKeepsPool | internal/k8s/multicluster.go:100-109 | at most eight tasks are active, and a task that left has delivered |
| AuditScan.Collect | internal/audit/engine.go:52-71 | the shared slice is the tasks' findings in finishing order; the group fails exactly if a task does |
| AuditScan.Scan | internal/audit/engine.go:44-75 | a failed snapshot fails the scan; otherwise all findings of all rules, P0 and unknown severities first, then P1, P2, P3, each by category, and equals in the order of delivery |
| AuditScan.ScanFleet | internal/audit/engine.go:79-100 | succeeds exactly if every name is known and every snapshot succeeds; then all findings of the clusters' reports, in the same order of urgency and category, and equals in the order of delivery |
| AuditScan.RankTells | internal/audit/engine.go:104 | P0 before P1 before P2 before P3, and anything else with P0 |
| AuditScan.ReportPermutes | internal/audit/engine.go:103-111 | a report holds every finding of every task once, sorted by severity and category |
| AuditScan.ScheduleIndependence | internal/audit/engine.go:42-75 | two schedules give the same findings and the same sequence of severities and categories |
| AuditScan.FleetScheduleIndependence | internal/audit/engine.go:77-100 | the same for a fleet, under any schedules within and across clusters |
| AuditScan.BlocksFollowTheTasks | internal/audit/engine.go:103-111 | findings of equal rank and category stand task by task in finishing order, each task's in its own order |
| AuditScan.SameReport | internal/audit/engine.go:103-111 | two finishing orders give identical reports if and only if they give identical blocks |
| AuditScan.FixedReport | internal/audit/engine.go:42-111 | all schedules give one and the same report if and only if any two tasks' findings of equal rank and category read the same in either order |
| AuditScan.LastTwo | internal/audit/engine.go:56-71 | any two tasks can finish last, in either order, under a legal schedule |
| AuditScan.ScheduleCanShow | internal/audit/engine.go:42-111 | two rules with one different finding each, of equal rank and category, make the report depend on the schedule |
| StableSort.SortUnique | internal/audit/engine.go:103-111 | a sorted arrangement in which equal elements keep their order is the model's sort, which therefore is Go's stable sort |
| AuditScan.SoleEmittersFixTheReport | internal/audit/engine.go:42-111 | when no two tasks share a key the report is independent of the schedule |
| Controller.FindingStore.UpsertCluster | internal/store/sqlite.go:164-178 | the known id, or a new one that is stored |
| Controller.FindingStore.SaveFinding | internal/store/sqlite.go:532-551 | keeps the table the fold of all successful saves |
| Controller.UpsertReflects | internal/store/sqlite.go:536-546 | insert-or-update on the key is that fold, one save at a time |
| Controller.TableIsFoldOfSaves | internal/store/sqlite.go:530-551 | a bar-free issue has a row exactly if it was ever saved: column by column, first values and first-seen from its first save, moving columns and last-seen from its latest |
| Controller.Controller.ClusterId | internal/controller/controller.go:156-166 | the id agrees with the store, and the cache never contradicts it |
| Controller.Controller.SaveOne | internal/controller/controller.go:112-121 | an unresolved cluster or failed save adds nothing; otherwise one save at the cluster's id |
| Controller.Controller.UpdateGauges | internal/controller/controller.go:141-154 | each of the four categories and severities has a gauge that shows how many findings of the scan have both, zero included |
| Controller.Controller.Tick | internal/controller/controller.go:104-131 | a failed scan changes nothing; otherwise exactly the resolvable and savable findings are saved, in report order |
| Controller.KeptTells | internal/controller/controller.go:112-121 | a finding is saved if and only if its save succeeds and its cluster was cached before or resolved by then |
| Migrations.SplitSql | internal/store/postgres.go:122-139 | the non-blank pieces between semicolons of the kept lines |
| Migrations.DroppedLinesAreInvisible | internal/store/postgres.go:119-128 | adding blank or comment lines anywhere, with semicolons in them or not, changes nothing |
| Migrations.DroppedTells | internal/store/postgres.go:125-128 | a line is dropped if and only if it is white space, or two dashes come first behind white space |
| Migrations.StatementsTell | internal/store/postgres.go:122-139 | the statements are the pieces between semicolons that are not white space, unchanged, of the kept lines each with its line break |
| Migrations.RenderThenSplit | internal/store/postgres.go:122-139 | plain statements written one after the other come back, up to surrounding white space |

## Left out

- The network, SQL engines, Kubernetes calls, metrics, incident alerts, commands and configuration: their answers are parameters.
- Lexing of JSON and of the event stream: a line arrives decoded; a last line without a line break counts as a failed read.
- SHA-256 and AES-GCM: any function with 64 lower-case hexadecimal digits as output, and any sealing function whose opening undoes it.
- Floating point: rounding, infinities and not-a-number; scores, costs and the budget threshold are exact reals.
- Strings are sequences of characters, not bytes: cutting a text at a byte inside a character is not modelled, nor is Unicode case folding (prompts and keys arrive in lower case).
- The rest of the system preamble's text; the model keeps its first sentence.
- `Failover` between providers, `EstimateCost`, redaction rules, severity thresholds, individual audit rules and the choice of enabled rules: they would only add easy members.
- Screen rendering, slash commands and the event channel of a turn; a turn's goroutine is taken to end before the next turn starts, so one call at a time asks for approval.
- Several processes on one Postgres log (the mutex is per process), and message order in Postgres, which has timestamps only.
- Columns of the audit log outside the hashed payload, execution durations, ids of rows where nothing depends on them.
- A lookup of the cluster's id that fails inside a recording: the code then records without it, as for an unknown cluster.
- The order of rows with equal creation time in recall: any order is allowed.
- Sorting is by a verified stable sort on sequences; in-place sorting of slices is not modelled.
- Scan tasks that see a cancelled context after another task failed: the failed scan's report is discarded anyway.
- AgentLoop.Agent.RunLoop: usage records, latency and events for the screen are not modelled.
- Controller.Controller.Tick: does not model the alerter and the log lines, which change neither table nor gauges.
- SessionWindow.Manager.Append: negative window sizes are excluded, because the code then panics on the first message.
- Dispatch.Registry.Register: a duplicate name is excluded, because the code then panics.
