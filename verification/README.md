# A model of teamD's event pipeline, redaction and naming

teamD routes chat messages to agent sessions and sends back what the agents say. This project
models the parts of it whose guarantees depend on order, on guards spread over several files, or
on byte arithmetic, and proves those guarantees in Dafny. `dafny verify dfyconfig.toml` checks it.

**The event pipeline.** `Machine.dfy` is one state machine. Its state is the store (inbound events,
routed events, outbox rows, tasks, output routes, followers, delivery records, and the tables that
operators keep), the bus, the calls the five workers are in the middle of, and a log of what
happened. Its steps are single store writes, publications, hand-overs to a chat turn or a job, and
the start, failure or death of a call, in any interleaving. A message on the bus never goes away: any
consumer may be given any message it hears any number of times, which covers redelivery and
duplicates. A step whose worker is not ready for it changes nothing. An `Execution` is a run from an
empty store; the theorems speak of the machine at every point of every run.
`Shape`, `Inbounds`, `Turns`, `Provenance`, `Outputs`, `Posts`, `Jobs`, `Watermarks`, `Notices`, `Rows` and `Traces`
hold the invariants and the theorems, `Attained` and `Unsent` the runs that show bounds and conditions to be exact,
`Frames` what each step leaves alone. `Routing`, `OutputRoutes`,
`Binding`, `Delivery` and `Followers` are the decisions inside the calls; `Admission`, `BindingWritten`,
`TurnTasks`, `JobTasks`, `Stands` and `Renderings` say, apart from those definitions and over runs, which rule takes an
event, what binding writes, what tasks tell, where watermarks stand, and what the texts sent read. `EventStore` is the store as
an object that is updated in place, and `SessionCall`, `TaskCall`, `RouterCall`, `PublisherCall` and
`DeliveryCall` are the workers' calls as they are written, each proved to do what the machine's
steps do when no one comes between them, for every number of writes that succeed before one fails.

**Redaction.** `Scan`, `Redaction*` and `Utf8` model the four scanning passes byte by byte, alone
(`RedactionUtf8`, `RedactionSpans`, `RedactionStable`) and one behind the other (`RedactionCost`,
`RedactionClean`, `RedactionFree`, `RedactionRounds`). `RedactionSecrets` says which secrets are hidden.

**Names, paths and values.** `EventBus` (subjects and streams), `Ids` (composed identifiers),
`Slugs`, `Paths`, `McpNames`, `McpRegistry` and `Otlp`.

What the model takes for granted:

- The store behaves as `crates/agent-persistence/src/repository.rs:221-264` and the SQL in
  `crates/agent-persistence/src/store/event_repos.rs:62-331` say: a put is an upsert by id, a first
  insert of an inbound event wins, and a claim takes due pending rows. A write the store refuses
  (an identifier it finds malformed, say) is a write that fails.
- Each consumer handles one message at a time, and acknowledges it also after an error.
- What a router call does to the output routes, and a delivery call as a whole, are atomic with
  respect to each other; each may still be cut short between any two of its writes.
- Webhook requests run side by side, each in three steps: it looks its event up, records it if it did not
  find it, and then posts it; a request may stop between any two. The creation of a task, whose token
  no other has, writes its record and then its row, and may be cut short in between.
- An envelope is its event, type, reference, session, subject and creation time; trace ids and metadata
  are left out, so that two payloads are alike means alike in these.
- Rules, targets, bindings, pairings, sessions, transcripts and runs may be changed by anyone at any
  time in any way. Followers may be added, enabled and disabled.
- Clocks are arbitrary numbers. JSON texts are values, or malformed. Identifiers that name an update,
  a job or a row are structured keys; `Ids` spells them and shows the spelling to be one to one.
- A byte is written as the character with that code; text that is not bytes is a sequence of
  Unicode scalar values.

## Model

| member | source | states |
|---|---|---|
| Turns.TurnsBounded | cmd/agentd/src/event_runtime_runner.rs:99-132 | over every run, the successful turns of an event number at most one, plus the router calls on it cut short behind the write of the routed event, plus the session calls on it cut short between turn and completion |
| Attained.BoundAttained | cmd/agentd/src/event_runtime_runner.rs:99-132 | the bound is exact: for any event and any two numbers of such losses there is a run with these losses and one turn more than their sum |
| Turns.OneTurn | cmd/agentd/src/event_runtime_runner.rs:371-441 | when no call is cut short, an event gets at most one turn under any duplicates and interleaving, and once completed is never pending again |
| Turns.CompletedStays | cmd/agentd/src/session_worker.rs:82-96 | a completed routed event stays completed as long as no router call on that event was cut short |
| Turns.OnlyLossReopens | cmd/agentd/src/router_worker.rs:125-141 | a step that makes a completed event pending again happens only after a router call on it was cut short |
| Turns.StepCounted | cmd/agentd/src/session_worker.rs:142-148 | every step keeps the books: turns are committed, lost or under way; a pending event was reset more often than committed; resets are covered by one processing and the router's losses |
| Turns.LosslessRun | cmd/agentd/src/event_runtime_runner.rs:113-131 | losses are recorded only by failed writes and crashes |
| Outputs.CompletedHasOutput | cmd/agentd/src/session_worker.rs:142-168 | at every point of every run, a completed event or task of an event has its output row, that row names a run that succeeded for this event, and no event's task waits for a dependency |
| Traces.SendsTraceBack | cmd/agentd/src/delivery_worker.rs:80-209 | every text sent for a session traces back to four earlier steps of the run, in this order: the choice of the first rule in the bound rule table to take the stored inbound event, which is no command; the reading of the routed event that this rule makes of it; the successful turn for that routed event; and the delivery, which read the output row naming this turn's run, that run's record and latest assistant transcript, and found the route enabled, the transcript due and the target admitting; the text is the rendering of these |
| Traces.SendMade | cmd/agentd/src/delivery_worker.rs:413-489 | every send in the log was made at a delivery step, from the row, run, transcript, route and target as they were stored then |
| Renderings.TextSent | cmd/agentd/src/delivery_worker.rs:491-529 | over every run, a sent text is that of its route's format, or the target's where the route's is white space: a fixed sentence for status_only whatever the transcript, for summary the heading and the words of the content on one line cut at 700 characters, for errors_only the error of a run that failed or was cancelled, and for any other format the content; and the transcript was neither the last delivered nor created at or before the watermark |
| Renderings.SentIff | cmd/agentd/src/delivery_worker.rs:142-183 | a transcript that is due on an open route goes out in every format, but for errors only exactly when its run failed or was cancelled |
| Renderings.OutputTextIs | cmd/agentd/src/delivery_worker.rs:502-529 | an output has a text but for errors only where there is none, and the text is the one its format says |
| Renderings.NoticeReads | cmd/agentd/src/delivery_worker.rs:616-665 | over every run, the text of a result handed to a follower is that of the target's format, from the stored task: sentence, line, error or the listed lines |
| Renderings.ResultTextIs | cmd/agentd/src/delivery_worker.rs:616-665 | a result has a text but for errors only where the task did not fail, block or get cancelled, and the text is the one the target's format says |
| Traces.ChoiceMade | cmd/agentd/src/router_worker.rs:81-138 | every choice was made at the start of a router call: the rule is in the rule table, enabled, admits the stored event and gives the decision, and every rule ordered strictly before it passes the event over |
| Admission.RoutedByRule | cmd/agentd/src/router_worker.rs:81-141 | over every run, each routed event was routed at some step by an enabled rule of the table that admits its inbound event, every rule ordered before it passing the event over, and it has that rule's session, agent, queue policy (fifo when there is none), priority and id and the event's payload |
| Traces.TurnMade | cmd/agentd/src/session_worker.rs:98-141 | every turn in the log was taken by a call on a routed event with a text, for that event's session |
| TurnTasks.TaskOverRun | cmd/agentd/src/session_worker.rs:61-177 | over every run, from its first write to its last a session call's task is running for the session and agent of the event it read; and when no session call dies, the task of every completed event is completed with a run and a time of its end, or about to be |
| TurnTasks.TaskWritten | cmd/agentd/src/session_worker.rs:98-168 | what each write of a session call makes of the task: waiting exactly when the event has dependencies, else running; completed with the turn's run and the time by the last write |
| TurnTasks.TurnTakenIff | cmd/agentd/src/session_worker.rs:120-141 | a turn is taken exactly when the call has come to it, it yields a run, and the payload holds a string under text that is not white space |
| TurnTasks.PlainTextIff | cmd/agentd/src/session_worker.rs:229-245 | a message has a text exactly when its payload parses to an object whose first text field is a string that is not white space |
| TurnTasks.TurnTaskSays | cmd/agentd/src/session_worker.rs:269-300 | the three records of a turn's task, field by field |
| Traces.CallBegun | cmd/agentd/src/event_runtime_runner.rs:134-153 | the routed event that a call works on is the one that was stored, and not completed, when the call began |
| Outputs.StepServed | cmd/agentd/src/session_worker.rs:179-227 | every step keeps completed events and tasks backed by output rows, and output rows by turns |
| Outputs.OutgoingBacked | cmd/agentd/src/delivery_worker.rs:413-462 | the output that a heard message leads to is of an event whose turn produced the run it names, and the transcript found is that run's assistant's |
| Inbounds.FirstRequestStays | cmd/agentd/src/telegram/webhook.rs:153-225 | over every run, an inbound event has for good the source, operator and payload of the request that recorded it first, whatever requests come side by side |
| Provenance.MoreChoices | cmd/agentd/src/router_worker.rs:81-110 | choices already made go on backing routed events, calls and turns when more are made |
| Provenance.StepChosen | cmd/agentd/src/router_worker.rs:111-138 | every step keeps each routed event what a chosen rule makes of its stored inbound event, with the decision's session, agent, queue policy and priority, and each turn one of a decided session |
| Jobs.SettledForever | cmd/agentd/src/task_worker.rs:102-104 | the record of a job's task that is terminal at one point of a run is the same ever after |
| Jobs.ResultsTrue | cmd/agentd/src/task_worker.rs:251-308 | a result row was only ever posted for a terminal task, and its event type announces the status that task keeps; agent_task.updated is never posted |
| Jobs.TaskMessages | cmd/agentd/src/event_runtime_runner.rs:611-644 | what the task consumer hears is a creation of a stored task, or a result whose row and task delivery finds and which starts no job |
| Jobs.JobAnnounces | cmd/agentd/src/task_worker.rs:221-249 | a job with an end time settles its task in a terminal status, and the event type is the one for that status |
| JobTasks.JobOverRun | cmd/agentd/src/task_worker.rs:106-157 | over every run, however its calls are cut short, a job's task names its job and the agents: queued exactly while untried, with no end and no error while it runs, and with the job's lines, or an error and an end, when it is over |
| JobTasks.StepReads | cmd/agentd/src/execution/interagent.rs:199-240 | every step, the creation of a task among them, keeps job tasks and the records of calls on them so |
| Jobs.StepSettled | cmd/agentd/src/task_worker.rs:102-175 | every step keeps results true and terminal tasks unchanged |
| Watermarks.WatermarksRise | cmd/agentd/src/delivery_worker.rs:184-192 | over every run of router and delivery calls, however cut short, a route is never dropped and its watermark never falls |
| Stands.WatermarkStands | cmd/agentd/src/router_worker.rs:305-324 | over every run, each watermark stands at the time and id of a transcript whose recorded send was on that route, or where its route began at some router call: behind the latest transcript its session had there, at nothing when it had none or when the route is that of a bound chat |
| Stands.StepStands | cmd/agentd/src/delivery_worker.rs:184-192 | one step: router calls let routes begin and keep all other watermarks, a delivery moves watermarks only to transcripts it records as sent, and no other step touches one |
| Watermarks.SendsBounded | cmd/agentd/src/delivery_worker.rs:141-193 | over every run, one transcript is sent on one route at most once, plus once for each send whose call was cut short before the watermark write |
| Watermarks.SendsRise | cmd/agentd/src/delivery_worker.rs:491-500 | when no delivery call is cut short, the transcripts sent on a route have strictly rising creation times |
| Watermarks.OneCommitted | cmd/agentd/src/delivery_worker.rs:141-193 | of the sends of a transcript on a route exactly those not followed by the watermark write are lost, and at most one is not lost |
| Watermarks.StepAdvances | cmd/agentd/src/router_worker.rs:315-324 | every step keeps watermarks from falling, their two fields set together, and later sends on a route strictly later than committed ones |
| Notices.NoticesBounded | cmd/agentd/src/delivery_worker.rs:260-357 | over every run a follower is handed a result at most once, plus once for each hand-over not then recorded; a recorded one marks the follower for good |
| Notices.StepNoticed | cmd/agentd/src/delivery_worker.rs:260-264 | every step keeps recorded followers marked, and nothing is handed to a follower after a recorded hand-over |
| Rows.BusIsPosted | cmd/agentd/src/event_runtime_runner.rs:271-305 | everything on the bus was posted to the outbox under its row; a row marked published is on the bus, with its very payload down to its creation time whenever the row was written once, and so, for a routed event, when no router call on it was cut short behind its write; for an output, when besides no session call was behind its turn; for an input, when at most one request did not find the event; for a dead letter, when the event was dead-lettered once; for a job's rows, always |
| Posts.StepBooked | cmd/agentd/src/router_worker.rs:125-172 | every step keeps the books: a routed event's row is written at most as often as the event, an output's as often as there are turns, an input's as often as a request missed the event, a result's only for a settled task and once |
| Posts.WritesBounded | cmd/agentd/src/session_worker.rs:190-226 | over every run the row of a routed event is written at most once and once more for each router call cut short, that of an output once and once more for each call on its event cut short, those of a job once each, and that of an input as often as a request did not find the event |
| Unsent.OutputUnsent | cmd/agentd/src/session_worker.rs:142-148 | the conditions are needed: a run with one session call and no router call cut short leaves an output row marked published with a payload that never reached the bus |
| Unsent.OutputUnsentByRouter | cmd/agentd/src/router_worker.rs:125-141 | the same for an output row with one router call and no session call cut short |
| Unsent.RoutedUnsent | cmd/agentd/src/router_worker.rs:125-172 | the same for the row of a routed event, with one router call cut short |
| Unsent.DeadLetterUnsent | cmd/agentd/src/router_worker.rs:453-503 | the same for a dead letter with no call cut short: an event that no rule takes stays unprocessed, so a duplicate of its message writes the dead letter again at a later time |
| Unsent.InputUnsent | cmd/agentd/src/telegram/webhook.rs:153-225 | the same for an input with no call cut short: two requests for one update that both look it up before either records it both post it |
| Rows.ConsumersFind | cmd/agentd/src/event_runtime_runner.rs:163-199 | a consumer finds the record its message is about, and delivery finds, under outbox- and the event's name, the row that was published, with a well-formed output envelope |
| Shape.MessagesSay | cmd/agentd/src/event_runtime_runner.rs:201-257 | over every run, a row and a message published from it name the event, the type, the record and the subject of their kind |
| Rows.RowsBounded | cmd/agentd/src/router_worker.rs:158-159 | under unbounded redelivery every row is one of the four of a stored event or of the two of a stored job, so there are at most so many |
| Rows.StepSeen | cmd/agentd/src/event_runtime_runner.rs:281-303 | a row becomes published only behind a publication that reached the bus |
| Shape.RunShaped | cmd/agentd/src/event_runtime_runner.rs:201-257 | in every reachable machine each row, message and call in progress belongs to a stored record, and rows and messages have the envelope of their producer |
| Shape.Heard | cmd/agentd/src/event_runtime_runner.rs:336-343 | the filters of the four consumers let through exactly the messages published from input, routed, output and task rows |
| Shape.ClaimPayloads | crates/agent-persistence/src/store/event_repos.rs:264-292 | a claim changes no payload and adds no row |
| Machine.RetryDelayDoubles | cmd/agentd/src/event_runtime_runner.rs:307-310 | the delay of a retry doubles from one second to thirty-two with the attempts and stays there; the cap of sixty is never reached |
| PublisherCall.RowMarked | cmd/agentd/src/event_runtime_runner.rs:282-303 | a row that was sent is published; any other is pending again and due 1, 2, 4, 8, 16 or 32 seconds from now by its attempts; nothing else of it and no other row changes |
| PublisherCall.RowsClaimed | crates/agent-persistence/src/store/event_repos.rs:264-292 | a claim takes at most 64 pending rows whose time has come, the earliest first, and raises their attempts by one |
| PublisherCall.WaitIs | cmd/agentd/src/event_runtime_runner.rs:307-310 | the delay by the number of attempts, written out |
| Machine.Queue | cmd/agentd/src/event_runtime_runner.rs:276-281 | the queue of a pass is the claimed rows in their order, with the payload and the raised attempt count they had at the claim |
| Machine.AppendIsExecution | cmd/agentd/src/event_runtime_runner.rs:201-257 | any step may follow any run, so runs go on without end |
| Frames.BeginRouterFrame | cmd/agentd/src/event_runtime_runner.rs:371-441 | starting a router call touches operators' tables, output routes and the router only, and goes on only for a stored event not yet processed |
| Frames.StepRouterFrame | cmd/agentd/src/router_worker.rs:111-172 | only the write of the routed event makes it pending, and only the last write of a call marks the inbound event |
| Frames.StepTurnFrame | cmd/agentd/src/session_worker.rs:98-168 | a session call touches the routed event in one write only, the one that completes it |
| Frames.DeliveryPartsKept | cmd/agentd/src/delivery_worker.rs:80-357 | only router calls and output delivery touch routes, only result delivery and operators followers |
| Routing.FirstRuleDecides | cmd/agentd/src/router_worker.rs:185-203 | the first rule that does not pass the event over decides, by taking it or by being ill-formed; when all pass it over there is no match |
| Admission.AdmittedIff | cmd/agentd/src/router_worker.rs:364-444 | a rule admits an event exactly when its three parts are objects, the texts under source_id, source_kind and operator_id are the event's, the text under text_contains occurs in the payload's text, every field of the expected payload is there, and a condition that is not empty has no other key; and when exactly a part cannot be judged |
| Admission.DecidesIff | cmd/agentd/src/router_worker.rs:205-256 | a policy gives a decision exactly when session and agent are there and not white space and the format is a known name, spaces around it aside; and that decision |
| Admission.FormatIff | cmd/agentd/src/router_worker.rs:228-241 | the format that a name stands for |
| Admission.CommandIff | cmd/agentd/src/event_runtime_runner.rs:665-675 | a message is a control command exactly when its text, or its caption where there is nothing under text, begins with a slash behind white space |
| Admission.GetIntegerIs | cmd/agentd/src/event_runtime_runner.rs:684-686 | a chat's number is read exactly when the first field of its key is a whole number of 64 bits with a sign |
| Routing.MatchedRule | cmd/agentd/src/router_worker.rs:185-226 | a match is an enabled rule whose filters admit the event and whose policy gives the decision, and every rule ordered strictly before it passes the event over |
| Routing.UnmatchedIff | cmd/agentd/src/router_worker.rs:91-97 | an event is unmatched exactly when every enabled rule passes it over |
| Routing.Resolve | cmd/agentd/src/router_worker.rs:185-203 | the loop over the listing resolves as the rules say |
| Routing.SourceIdFilter | cmd/agentd/src/router_worker.rs:364-399 | a filter on the source alone, with empty operator filter and condition, admits exactly what comes from that source, whatever the payload |
| OutputRoutes.MaterializeAdvances | cmd/agentd/src/router_worker.rs:278-334 | however many of its writes succeed, refreshing output routes drops no route, lowers no watermark and splits none |
| OutputRoutes.EveryTargetReached | cmd/agentd/src/router_worker.rs:258-336 | refreshing ends well exactly when every target is known and every write succeeds, and the session then has an enabled route to each target, refreshed at that time in the decision's format, unless a route had another's canonical name |
| OutputRoutes.FindExistingOutputRoute | cmd/agentd/src/router_worker.rs:338-356 | the search finds the canonical route, else the first enabled route of the session to the target in the store's order |
| OutputRoutes.FirstRouteUnique | crates/agent-persistence/src/store/delivery_repos.rs:148-162 | the store's order singles out one first route |
| Binding.BoundChatIsReached | cmd/agentd/src/event_runtime_runner.rs:706-807 | when the binding rule is the first to take an event of a bound chat, routing leaves the canonical route enabled from the session to the chat's target, and the target admits the session exactly when its list was not malformed before |
| Binding.BindAgain | cmd/agentd/src/event_runtime_runner.rs:706-807 | binding a bound chat again changes nothing but the rule's time of update |
| Binding.BoundIsBound | cmd/agentd/src/event_runtime_runner.rs:706-807 | binding that ends well leaves a target that names the session or is open, the canonical route, and an enabled rule for this source and session |
| BindingWritten.BindWrites | cmd/agentd/src/event_runtime_runner.rs:677-877 | binding that ends well is of the payload's chat; a new target is of kind telegram, its address is the chat's number as a signed decimal, scope and owner are the binding's and it admits the session; one that was there keeps all but its list of sessions; a new route starts at nothing; the rule takes exactly the source's events for the binding's session, agent and queue mode; and a chat without session is given one only when it is private, of an activated user, and the program may |
| BindingWritten.BindToWrites | cmd/agentd/src/event_runtime_runner.rs:703-809 | the same for a chat whose binding names a session |
| BindingWritten.NewTargetSends | cmd/agentd/src/event_runtime_runner.rs:728-743 | where a new target sends, read from its address |
| BindingWritten.BindingRuleRoutes | cmd/agentd/src/event_runtime_runner.rs:769-807 | what the rule of a binding takes and decides, and that it keeps the place of one that was there |
| BindingWritten.GivenWrites | cmd/agentd/src/event_runtime_runner.rs:815-877 | what a private chat that is given a session has written |
| Binding.BoundDecision | cmd/agentd/src/event_runtime_runner.rs:767-806 | the binding rule decides for the chat's session and target, unless session or agent is blank |
| Binding.BindAdvances | cmd/agentd/src/event_runtime_runner.rs:748-767 | binding only adds routes, with nothing delivered on them, and touches no other |
| Binding.TargetIdInjective | cmd/agentd/src/event_runtime_runner.rs:705-706 | two chats never share a delivery target |
| Delivery.CallKeeps | cmd/agentd/src/delivery_worker.rs:141-209 | however many writes of a call succeed, no watermark falls or is split, and every send on a route is strictly later than the committed ones before it |
| Delivery.CallCounts | cmd/agentd/src/delivery_worker.rs:141-209 | on success delivered, failed and skipped add up to the listed routes and delivered is the number of sends, each with its watermark written; two writes for each route are enough for success |
| Delivery.CallSteps | cmd/agentd/src/delivery_worker.rs:141-193 | a call sends at most what is due on listed routes to known targets that admit the session, with the text for that route, and leaves routes it has not come to alone |
| Delivery.DeliverToSteps | cmd/agentd/src/delivery_worker.rs:142-193 | one route of a call touches that route only, and adds at most one send, which was due |
| Delivery.RouteTold | cmd/agentd/src/delivery_worker.rs:140-207 | what one route of a whole call is left with: nothing new when the transcript is not due or has no text, else a failure with its cause under the event's and target's name, or a send with the watermark at that transcript's time and id |
| Delivery.CommittedSend | cmd/agentd/src/delivery_worker.rs:184-192 | raising the watermark to a due transcript keeps the sends in order |
| Delivery.NoTroubleIff | cmd/agentd/src/delivery_worker.rs:531-599 | a target takes an output exactly when both its lists are well-formed and each is empty or names the session, and the agent; a result, the source session, and the owner or the executor |
| Delivery.VerdictIff | cmd/agentd/src/delivery_worker.rs:142-175 | a text goes out on a route exactly when the transcript is due there, the target is known and admits the output, and the format gives that text; a failure is noted exactly when it is due and the target is unknown or does not admit it |
| Followers.RelayKeeps | cmd/agentd/src/delivery_worker.rs:260-357 | however many writes of a call succeed, no follower served before is served again, and served followers stay marked |
| Followers.RelayCounts | cmd/agentd/src/delivery_worker.rs:253-357 | on success delivered, failed and skipped add up to the listed followers and delivered is the number of hand-overs, each recorded |
| Followers.RelayToSteps | cmd/agentd/src/delivery_worker.rs:260-354 | one follower of a call touches its own record only, and is handed the result only when not yet served, known and admitted |
| Followers.FollowerTold | cmd/agentd/src/delivery_worker.rs:260-354 | what one follower of a whole call is left with: nothing new when served or without text, else a failure with its cause on both records, or the result with both records marked |
| Transcripts.LatestIsLatest | cmd/agentd/src/delivery_worker.rs:464-489 | the transcript found is one of the list and no other is later by time and then id; none is found only in an empty list |
| Transcripts.LatestUnique | cmd/agentd/src/delivery_worker.rs:475-482 | the transcript found does not depend on the order in which the store lists transcripts |
| Transcripts.AssistantOf | cmd/agentd/src/delivery_worker.rs:472-474 | the candidates are exactly the transcripts of that session and run that an assistant wrote |
| Transcripts.LatestAssistantTranscript | cmd/agentd/src/delivery_worker.rs:464-489 | one pass over the list finds the latest candidate |
| EventStore.Store.PutRoutedEvent | crates/agent-persistence/src/store/event_repos.rs:143-190 | an upsert of the routed event by its id, or a failed write that changes nothing |
| EventStore.Store.PutEventOutbox | crates/agent-persistence/src/store/event_repos.rs:212-246 | an upsert of the row by its id as pending, or a failed write that changes nothing |
| EventStore.Store.PutTaskRegistry | crates/agent-persistence/src/repository.rs:273-273 | an upsert of the task by its id, or a failed write that changes nothing |
| EventStore.Store.PutSessionOutputRoute | crates/agent-persistence/src/store/delivery_repos.rs:75-115 | an upsert of the route by its id, or a failed write that changes nothing |
| EventStore.Store.MarkInboundEventStatus | crates/agent-persistence/src/store/event_repos.rs:123-141 | an update of the status of an event that exists, or a failed write that changes nothing |
| EventStore.Store.ListEnabledSessionOutputRoutes | crates/agent-persistence/src/store/delivery_repos.rs:148-162 | all enabled routes of the session, each once, by time of update and then id |
| EventStore.Store.ListEnabledTaskFollowers | crates/agent-persistence/src/store/delivery_repos.rs:247-260 | all enabled followers of the task, each once, in an order left open |
| SessionCall.ExecuteRoutedSessionEvent | cmd/agentd/src/session_worker.rs:61-177 | for every number of writes that succeed, the call leaves the store where the machine's steps leave it; it reports waiting exactly for an event with dependencies, finished exactly when there was a non-blank string under text, a run and all four writes; and the task reads untouched, waiting, running, or completed with that run, the event's session and agent and the time, as the writes went |
| SessionCall.PersistOutput | cmd/agentd/src/session_worker.rs:142-168 | output row, routed event and task are written in this order; success means all three writes, the event completed and the task with it |
| SessionCall.FinishIsRun | cmd/agentd/src/session_worker.rs:61-177 | a call run through is a run of the machine |
| SessionCall.BeginIsStep | cmd/agentd/src/event_runtime_runner.rs:134-153 | a message heard begins the call on the routed event it names |
| TaskCall.ExecuteTaskEvent | cmd/agentd/src/task_worker.rs:64-184 | for every number of writes that succeed, the call leaves the store where the machine's steps leave it, and as said for TaskCall.CallLeaves; a task that is over or of no job, or an event of another type, is left alone |
| TaskCall.CallLeaves | cmd/agentd/src/task_worker.rs:64-249 | by the number of its writes, a call on an open task leaves it untouched, launched (running, one attempt more, started now unless it was), or as its job came to: completed, failed, cancelled, blocked or still running, with run, lines, end and error; and posts, when there is an end, completed, blocked, or failed also for a cancelled job |
| TaskCall.PutSettled | cmd/agentd/src/task_worker.rs:150-175 | the settled task is written before its result row, and the row only for a job that ended |
| TaskCall.FinishIsRun | cmd/agentd/src/task_worker.rs:64-184 | a call run through is a run of the machine |
| TaskCall.BeginIsStep | cmd/agentd/src/event_runtime_runner.rs:155-161 | a message heard begins the call on the task it names |
| RouterCall.HandleWebhookMessage | cmd/agentd/src/event_runtime_runner.rs:371-441 | a processed event is left alone, a control command is marked and never routed or posted, and any other event is routed |
| RouterCall.RouteInputEvent | cmd/agentd/src/event_runtime_runner.rs:99-132 | for every number of writes that succeed before one fails and of those that succeed after it, binding, routes, routed event, row and mark are left where the machine's steps leave them; success means the event is processed, routed and posted |
| RouterCall.BeginIsStep | cmd/agentd/src/event_runtime_runner.rs:371-441 | a message heard of an event not yet processed and no control command begins the call on that event |
| RouterCall.FinishIsRun | cmd/agentd/src/event_runtime_runner.rs:99-132 | a call run through is a run of the machine |
| RouterCall.WriteRoutedEvent | cmd/agentd/src/router_worker.rs:125-172 | routed event, row and mark are written in this order, and a failed write is followed by the attempt to mark the event failed, which may succeed or fail |
| RouterCall.MaterializeOutputRoutes | cmd/agentd/src/router_worker.rs:258-336 | the loop over targets leaves routes, writes and outcome as refreshing one target after the other does |
| RouterCall.EnsureTelegramBindingRoute | cmd/agentd/src/event_runtime_runner.rs:677-809 | the writes of binding, one after the other and stopping at the first that fails, give what binding is defined to give |
| RouterCall.MaterializePrivateBinding | cmd/agentd/src/event_runtime_runner.rs:815-877 | only an activated user's private chat is given a session, and its binding keeps what the old one held |
| PublisherCall.PublishPendingOutboxOnce | cmd/agentd/src/event_runtime_runner.rs:271-305 | claiming, publishing and marking one row after the other leave store and bus where the machine's steps leave them, for every outcome of each publication and every number of writes that succeed |
| PublisherCall.OneRow | cmd/agentd/src/event_runtime_runner.rs:281-303 | a row is marked published only when its publication was accepted, else it is pending again with a later due time; a row that is gone is not brought back |
| PublisherCall.FinishIsRun | cmd/agentd/src/event_runtime_runner.rs:271-305 | a pass run through is a run of the machine |
| DeliveryCall.DeliverSessionOutputEvent | cmd/agentd/src/delivery_worker.rs:80-210 | the call leaves store and sends as the machine's delivery does; its report adds up to the enabled routes, delivered is the number of sends, and it fails only when writes run out |
| DeliveryCall.DeliverIsStep | cmd/agentd/src/event_runtime_runner.rs:163-180 | a message heard leads to the delivery of the event it names |
| DeliveryCall.DeliverTaskResultEvent | cmd/agentd/src/delivery_worker.rs:212-357 | the same for the followers of a task |
| DeliveryCall.RelayIsStep | cmd/agentd/src/event_runtime_runner.rs:182-199 | a result message heard leads to the delivery of the result it names |
| DeliveryCall.DeliverRoute | cmd/agentd/src/delivery_worker.rs:142-207 | one route's send and writes: send, delivery record, watermark, in this order |
| DeliveryCall.DeliverFollower | cmd/agentd/src/delivery_worker.rs:260-354 | one follower's hand-over and writes: hand-over, delivery record, follower, in this order |
| DeliveryCall.StoppedStays | cmd/agentd/src/delivery_worker.rs:177-192 | behind a failed write nothing more of the call happens |
| Ids.RowIdInjective | cmd/agentd/src/session_worker.rs:190-192 | rows of different events, tasks or kinds have different ids |
| Ids.Spelled | cmd/agentd/src/session_worker.rs:80-190 | the ids of an event's rows and task and of a job's, written out |
| Ids.OutboxPrefixFindsRow | cmd/agentd/src/event_runtime_runner.rs:178-178 | outbox- in front of an input, routed, output or result event's id is the id of the row that carries it |
| Ids.TaskIdInjective | cmd/agentd/src/session_worker.rs:80-80 | tasks of different events or jobs have different ids |
| Ids.NumericIdTokenInjective | cmd/agentd/src/event_runtime_runner.rs:916-922 | different integers give different tokens, negative ones included |
| EventBus.NormalizeSubjectToken | cmd/agentd/src/event_bus.rs:235-249 | the loop gives one token without dots or wildcards, never empty, for any text |
| EventBus.TokenKeeps | cmd/agentd/src/event_bus.rs:235-249 | a character of the value stays exactly when it is a letter, a digit, a dash or an underscore, and any other becomes an underscore |
| EventBus.ExactlyOneStream | cmd/agentd/src/event_bus.rs:146-191 | with five distinct names, a subject made for any id is kept by the stream meant for it and by no other |
| EventBus.DistinctIffAllKept | cmd/agentd/src/event_bus.rs:146-166 | every subject is kept by the stream meant for it exactly when the five names are distinct |
| EventBus.FiltersSeparate | cmd/agentd/src/event_runtime_runner.rs:488-488 | each consumer's filter matches exactly the subjects meant for it; session input and output never mix |
| EventBus.SubjectTokens | cmd/agentd/src/event_bus.rs:116-144 | a subject has as many tokens as its pattern, whatever the id |
| Redaction.StepIsPiece | cmd/agentd/src/redaction.rs:32-190 | at every place a pass copies one byte or steps over a piece of at least one byte whose secret lies between an ASCII byte and another, or the end; a byte beyond ASCII is always copied |
| Redaction.MatchedKey | cmd/agentd/src/redaction.rs:192-203 | a matched key is the first of the list that stands there between boundaries, and there is a match whenever one does |
| Redaction.KeyIsAscii | cmd/agentd/src/redaction.rs:192-203 | a matched key is made of key characters and starts behind a boundary |
| RedactionUtf8.RedactValid | cmd/agentd/src/redaction.rs:32-190 | each pass maps well-formed UTF-8 (section 4 of RFC 3629) to well-formed UTF-8 |
| RedactionPasses.FinishKeeps | cmd/agentd/src/redaction.rs:60-60 | the fallback to the raw text is never taken |
| RedactionSpans.RedactSplices | cmd/agentd/src/redaction.rs:32-190 | the output of a pass is its input with an ordered list of disjoint spans replaced, each between ASCII bytes or the end; only the Auth pass changes anything else, the letter case of its marker |
| RedactionStable.RedactIdempotent | cmd/agentd/src/redaction.rs:32-190 | each pass is idempotent on every input |
| RedactionStable.RedactIgnoresSecrets | cmd/agentd/src/redaction.rs:32-190 | writing any word free of delimiters over the secrets and redacting gives the same text, so the output does not depend on the secrets |
| RedactionStable.MaskStable | cmd/agentd/src/redaction.rs:32-190 | a pass finds in its own output the places it found in its input |
| RedactionPasses.RedactUrlCredentials | cmd/agentd/src/redaction.rs:32-61 | the loop over the URL pass is that pass, and its result well-formed |
| RedactionPasses.RedactCliUserCredentials | cmd/agentd/src/redaction.rs:63-106 | the same for the credentials of command lines |
| RedactionPasses.RedactBareAuthTokens | cmd/agentd/src/redaction.rs:108-134 | the same for bare tokens |
| RedactionPasses.RedactSensitiveAssignments | cmd/agentd/src/redaction.rs:136-190 | the same for assignments |
| RedactionPasses.RedactSensitiveText | cmd/agentd/src/redaction.rs:21-26 | the four passes in their order, with a well-formed result; RedactionSecrets says which secrets that hides |
| RedactionSecrets.KeyIff | cmd/agentd/src/redaction.rs:3-19 | a secret's name stands at a place exactly when nothing of a word is in front and the whole word there is one of fifteen written-out names, in any letter case |
| RedactionSecrets.ValueHidden | cmd/agentd/src/redaction.rs:21-26 | all four passes: behind text without a marker and without the name of a secret, the value of any of the fifteen names, behind an optional quote, spaces, `:` or `=` and an optional opening quote, is overwritten up to its end, whatever it holds and whatever follows |
| RedactionSecrets.ValueReplaced | cmd/agentd/src/redaction.rs:21-26 | all four passes: when no marker stands in the value either, exactly the value is replaced, and what follows is redacted as if it stood alone |
| RedactionSecrets.AssignmentHidden | cmd/agentd/src/redaction.rs:136-190 | the assignment pass: the value and nothing else is replaced, and what follows is redacted as if it stood alone |
| RedactionSecrets.PasswordHidden | cmd/agentd/src/redaction.rs:32-61 | the URL pass: the password between `://name:` and `@` is overwritten |
| RedactionSecrets.PasswordGone | cmd/agentd/src/redaction.rs:21-61 | all four passes: the same, behind text without another secret |
| RedactionSecrets.CredentialHidden | cmd/agentd/src/redaction.rs:63-106 | the command-line pass: what stands behind the user's name and `:` is overwritten for -u, --user and --user= in any letter case, quoted or not, and what follows is redacted as if it stood alone |
| RedactionSecrets.CredentialGone | cmd/agentd/src/redaction.rs:21-106 | all four passes: the same up to where the credential ends, behind text without another secret |
| RedactionSecrets.TokenHidden | cmd/agentd/src/redaction.rs:108-134 | the token pass: a token behind Bearer or Basic in any letter case is overwritten, and what follows is redacted as if it stood alone |
| RedactionSecrets.TokenGone | cmd/agentd/src/redaction.rs:21-134 | all four passes: the same up to where the token ends, behind text without another secret |
| RedactionRounds.TwiceIff | cmd/agentd/src/redaction.rs:21-26 | redacting twice is redacting once exactly when, in the result of the first round, every URL password and every command-line credential that the first two passes find reads `<redacted>` |
| RedactionRounds.FixedTogether | cmd/agentd/src/redaction.rs:21-26 | the four passes together leave a text alone exactly when each of them does: none undoes what another does |
| RedactionRounds.RoundsSettle | cmd/agentd/src/redaction.rs:21-26 | redacting again and again settles on every text, within one round more than the cost of the first round's result |
| RedactionRounds.UnmarkedStable | cmd/agentd/src/redaction.rs:21-26 | on every text without `://`, `-u `, `--user ` and `--user=` in any case, redacting twice is redacting once |
| RedactionRounds.Reopened | cmd/agentd/src/redaction.rs:32-61 | the condition can fail: whatever value ends the authority of `://jwt:` is hidden in the first round, which opens the authority up to a later `@`, so the second round changes the text |
| RedactionRounds.ReopenedCommand | cmd/agentd/src/redaction.rs:63-106 | it can fail without a URL, too: whatever quoted value ends the credential of `-u jwt=` is hidden in the first round, which opens the credential up to a later `:` |
| RedactionCost.PassCost | cmd/agentd/src/redaction.rs:32-190 | a pass other than that for tokens leaves a text alone exactly when all the secrets it finds read `<redacted>`, and else lowers a measure that counts what is not |
| RedactionCost.NeverDearer | cmd/agentd/src/redaction.rs:32-190 | no pass raises that measure |
| RedactionClean.TokensSettled | cmd/agentd/src/redaction.rs:108-190 | behind the token pass and the assignment pass the token pass finds nothing to do, on every text |
| RedactionFree.FreeKept | cmd/agentd/src/redaction.rs:32-190 | no pass brings the marker of another into a text that is free of it |
| Scan.ScanUntilAny | cmd/agentd/src/redaction.rs:240-249 | the scan stops at the first delimiter, or at the end |
| Scan.SkipAsciiSpaces | cmd/agentd/src/redaction.rs:209-214 | the skip stops at the first byte that is neither space nor tab |
| Slugs.NormalizeAgentId | cmd/agentd/src/agents.rs:433-454 | the loop with its flag and trimming gives the words of the name joined by dashes, or agent |
| Slugs.SameSlug | cmd/agentd/src/execution.rs:633-653 | the two normalisers agree on a name exactly when it has an ASCII letter or digit |
| Slugs.SlugIdempotent | cmd/agentd/src/execution.rs:633-653 | a normalised name is lower-case words joined by single dashes, and normalising it again changes nothing |
| Slugs.LettersKept | cmd/agentd/src/agents.rs:433-454 | the words of a name hold exactly its ASCII letters and digits, in lower case and in their order |
| Paths.NormalizeAbsolutePath | crates/agent-persistence/src/config.rs:3360-3380 | the loop over components goes where the path leads |
| Paths.NormalIsClean | crates/agent-persistence/src/config.rs:3360-3380 | from a clean absolute directory every path leads to an absolute one free of dots and empty parts |
| Paths.NormalIdempotent | crates/agent-persistence/src/config.rs:3360-3380 | a clean absolute path leads to itself from anywhere |
| Paths.NormalComposes | crates/agent-persistence/src/config.rs:3360-3380 | a relative path appended leads where it leads from the end of the first |
| Paths.UpUndoesDown | crates/agent-persistence/src/config.rs:3360-3380 | going into a name and up again leads back, a dot or nothing leads nowhere, a name leads one part further down, and there is no way up from the root |
| Paths.FiveRootsAreOne | crates/agent-persistence/src/config.rs:3387-3416 | the check against five roots refuses exactly the paths with the data directory as a prefix |
| Paths.ValidateWorkspaceRootPath | crates/agent-persistence/src/config.rs:3387-3416 | the check accepts a path exactly when it is none of the roots and below none |
| McpNames.SegmentShape | cmd/agentd/src/mcp.rs:885-900 | a sanitised segment is not empty, holds only lower-case letters, digits, underscores and dashes, and no dash at either end |
| McpNames.SegmentLetters | cmd/agentd/src/mcp.rs:885-900 | a segment is the value from its first word character to its last, capitals as small letters, other word characters as they are and the rest as dashes; tool when there is none |
| McpNames.DistinctIff | cmd/agentd/src/mcp.rs:839-883 | exposed names are pairwise distinct exactly when no base equals another base with a number that this other base reaches |
| McpNames.ExposedNames | cmd/agentd/src/mcp.rs:843-855 | a tool's name is its base, numbered from the second use on |
| McpNames.DisambiguateExposedName | cmd/agentd/src/mcp.rs:874-883 | the name differs from all that the base was or will be given for other uses, is the base itself for the first use only, and this use alone is counted |
| McpNames.BuildDiscoveredTools | cmd/agentd/src/mcp.rs:839-872 | the result is sorted by exposed name and is a permutation of the named tools |
| McpRegistry.RestartsCounted | cmd/agentd/src/mcp.rs:544-556 | for a connector started at all, the restart count is the number of starts but one, up to the 32-bit limit, exactly when no run or failure was marked before the first start, or there were more starts than the limit |
| McpRegistry.PidMeansRunning | cmd/agentd/src/mcp.rs:513-556 | after any marks a process id means running, and an error means failed or stopped |
| McpRegistry.MarkTold | cmd/agentd/src/mcp.rs:513-555 | what a status tells right behind each mark: state, process id, times, error and count |
| McpRegistry.EarlyMarkMiscounts | cmd/agentd/src/mcp.rs:513-556 | after a run or a failure marked before any start the restart count is the number of starts itself; without starts and such marks it is zero |
| McpRegistry.StatusesSound | cmd/agentd/src/mcp.rs:476-556 | what a process id, an error and the restart count say holds of every status in a registry reached by its methods |
| McpRegistry.Registry.EnsureStarted | cmd/agentd/src/mcp.rs:476-503 | a connector that is up is left alone; any other is marked starting, then comes what the new worker and others mark before it is entered, and failed when the starter fails; it is up afterwards exactly when the last mark is of starting or running |
| McpRegistry.Registry.EnsureStopped | cmd/agentd/src/mcp.rs:505-511 | a stopped connector has no worker and no discovery and is marked stopped |
| Otlp.ReadAnyValue | cmd/agentd/src/otel.rs:288-318 | reading an encoded value gives it back with the empty text for every null, at every depth and for all 64-bit integers (AnyValue in the JSON Protobuf Encoding section of the OTLP specification) |
| Otlp.AttributeRead | cmd/agentd/src/otel.rs:281-286 | reading an attribute gives back its key, and its value in the same way |
| Otlp.ReadSigned | cmd/agentd/src/otel.rs:291-296 | a printed integer reads back as itself |

## Left out

- Operators' other writes: cancelling a task (`cmd/agentd/src/bootstrap/session_ops.rs:775-824`), attaching or editing an output route, and the polling mode's own delivery cursor are not steps of the machine; the theorems about tasks, routes and watermarks hold between such writes.
- Interleaved route updates of a router call and a delivery call: both read, change and write whole route records, so one may undo the other; the model takes them to be atomic.
- Delivery completeness: a transcript with the creation second of the watermark is skipped, so not every transcript reaches every route.
- A result for every terminal task: the code writes the task before its row and returns early when a job errors, so there may be none.
- Liveness: nothing is said of when a step is taken, and a row left in publishing by a crash stays there.
- The chat turn, the job executor, the provider, the telegram client, NATS and PostgreSQL: their results are arbitrary inputs of steps. JSON text parsing: values or malformed.
- Temporary status messages in chats, diagnostics, audit records, trace ids, labels, tool and retry policies, which are only copied through.
- Outputs.CompletedHasOutput: says that the row names a run that succeeded for the event, not that it is the latest such run.
- EventStore.Store.ListEnabledSessionOutputRoutes: ids that tie by time are ordered character by character; a database collation may order them otherwise.
- RedactionSecrets.ValueHidden: speaks of the first secret of a text; the text in front holds no marker of another pass and no secret's name. AssignmentHidden, CredentialHidden and TokenHidden carry on behind it, pass by pass.
- RedactionSecrets.PasswordGone: the same, for the first URL; likewise CredentialGone and TokenGone.
- Delivery.RouteTold: speaks of calls with two writes left, as Followers.FollowerTold does; Stands.WatermarkStands and the bounds on sends speak of all.
- Binding.BoundChatIsReached: speaks of calls whose writes succeed.
- Paths: path prefixes of other operating systems, and the directory above the root beyond staying at the root.
- McpRegistry: removing a connector and setting its status directly, and what the workers' threads do besides setting marks.
- Configuration layering, recovery at start-up, store retries, the HTTP server, command line, terminal and web interfaces.
