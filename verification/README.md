# Models of the chord runtime, the agent loop and gateway prices

A Dafny 4.11 model of the parts of this repository whose correctness depends on order, concurrency or arithmetic, with
proofs of what they promise. `dafny verify dfyconfig.toml` checks all of it.

Protocols are step machines whose runs are arbitrary sequences of enabled steps; where the code is an object that changes
its fields, a class refines the machine method by method. What foreign code does (models, tools, hooks, listeners, resource
opens, schema validation, the effect of an op on a value) is an arbitrary value or an uninterpreted function.

| files | what they model |
|---|---|
| `Streams`, `Slots`, `Connections`, `Acks` | a link's flow control: the acknowledgement window, the slots that wait for it, the cap on waiting ops, units of shapes and snapshots (`packages/chord/src/connection.ts`) |
| `Chain`, `Replication` | one state member from its provider through a relay to a consumer, with each frame's place in the source's history, and what its runs promise |
| `Views`, `Simulation` | the same stream as the connections' own fields show it, and why each of their operations is a step of `Chain` |
| `Utf8`, `Bounds`, `Output` | bounded output: the window of whole lines of a text, and the buffer that keeps it for a stream it mostly forgets (`output.ts`) |
| `Pacer`, `Pacing` | paced progress writes (`output.ts`) |
| `Child`, `Cluster`, `Coordinator` | two-phase code reload of a server and its children (`cluster.ts`) |
| `Roots`, `Retirement` | roots, their leases, and the code versions they keep (`host.ts`) |
| `Graph`, `Lifetime`, `Resources` | references between objects, and the resources of one (`host.ts`, `object.ts`) |
| `Cells`, `PublishQueue`, `Publish` | atomic recomputation of derivations, and the queue of notifications (`cell.ts`, `publish.ts`) |
| `Transcript`, `AgentLoop` | the agent's queues, tool declarations, turns and tool batches (`packages/agent`) |
| `Pricing` | tiers compiled from price brackets, and their scan (`packages/ai`) |
| `Lists` | lists without repetitions |

## Model

| member | source | states |
|---|---|---|
| Replication.ConsumerFollowsHistory | packages/chord/src/connection.ts:219-253 | Over every run of provider, relay and consumer on two FIFO links, with writes, overflows, drops, resyncs, flushes and deliveries in any order: what the consumer holds is exactly a value the source had with the ops applied to it that the consumer took since an error, none unless an error is the latest of the snapshots, resets and errors it took; and its place in the source's history never goes back, also across errors. |
| Chain.StepKeeps | packages/chord/src/connection.ts:469-609 | Every step keeps the invariant: what is under way continues the consumer's value without a gap up to the source's current value, except for what a relay asked to be reset and for ops after an error. |
| Replication.DrainedIsCurrent | packages/chord/src/connection.ts:593-609 | With both links and all slots empty, the consumer was told of an error last if and only if the provider's latest snapshot was one, and then holds the value before the error with the ops applied that came since; otherwise it holds the current value. |
| Replication.CanCatchUp | packages/chord/src/connection.ts:219-253 | No interleaving wedges a stream: from every reachable state some deliveries alone drain it, and make the consumer current if neither the latest snapshot nor the current value fails its schema. |
| Replication.BaseRecovers | packages/chord/src/connection.ts:1014-1022 | A delivered snapshot or reset puts the consumer back on a value of the history, whatever errors and ops came before. |
| Replication.RenewalRecovers | packages/chord/src/connection.ts:1024-1037 | A reset of the source to a valid value, whatever went wrong before, followed by some deliveries makes the consumer hold exactly that value. |
| Replication.SoundRunNeverStale | packages/chord/src/connection.ts:1014-1022 | A run that snapshots no value failing its schema never tells the consumer of an error. |
| Replication.FailedIff | packages/chord/src/connection.ts:1014-1022 | The provider's error mark is set by exactly the steps that build the snapshot of a value failing its schema, and cleared by exactly those that build one of a valid value. |
| Replication.StaleAfterError | packages/chord/src/connection.ts:1014-1037 | A run from the start, drained, after which the consumer holds a value the source never had: the op that followed an error was applied to the value before it. |
| Streams.CoalesceFaithful | packages/chord/src/connection.ts:469-506 | A frame that joined a slot leads a receiver to the same value as the slot followed by the frame. |
| Streams.SettleIsReplay | packages/chord/src/connection.ts:593-609 | What a flushed slot makes of a receiver's value is what its frames, taken one by one, make of it. |
| Connections.Connection.ReplayIsCurrent | packages/chord/src/connection.ts:469-547 | In every state the methods below can reach, replaying all frames sent and then the slot (base and ops, or the current value when lazy) gives the source's current value, for every stream whose last snapshot was not an error. |
| Connections.Connection.WaitingIsUnacknowledged | packages/chord/src/connection.ts:578-590 | A slot exists only while the unacknowledged bytes reach the window; with a window above zero some frame is then unacknowledged, so an acknowledgement is still to come. |
| Connections.Connection.DrainsIffWindow | packages/chord/src/connection.ts:578-609 | With every frame acknowledged, the window is open if and only if it is above zero, and then nothing waits. |
| Connections.Connection.Send | packages/chord/src/connection.ts:460-466 | A frame is appended to the link; unacknowledged sizes and their sum grow with it unless the peer acknowledges nothing. |
| Connections.Connection.SendState | packages/chord/src/connection.ts:469-506 | A frame goes out directly if and only if its stream has no slot and the window is open; else it joins the slot, or its stream is dropped, which happens only if its ops alone pass the cap; the other streams are left alone or dropped. |
| Connections.Connection.MakeRoom | packages/chord/src/connection.ts:509-515 | The slots with ops among the n oldest are dropped and all others kept; the stream at hand is dropped only after every slot was passed and its own bytes with the new ones still exceed the cap. |
| Connections.Connection.Drop | packages/chord/src/connection.ts:518-529 | A local stream keeps the promise of a reset; a relayed one loses its slot and a reset is asked for; the waiting bytes shrink by exactly the slot's. |
| Connections.Connection.Flush | packages/chord/src/connection.ts:593-609 | The n oldest slots go out in creation order, each stream advancing by exactly what waited for it, until nothing waits or the window is full; a full window sends nothing. |
| Connections.Connection.OnAck | packages/chord/src/connection.ts:582-590 | A violation if and only if the peer announced no acknowledgements or the count is outside acked to sent, and then nothing changes; else the slots freed are a prefix in creation order. |
| Connections.Connection.OnHello | packages/chord/src/connection.ts:837-843 | The first hello decides whether frames are counted; without acknowledgements nothing counts as unacknowledged. |
| Connections.Connection.Acknowledge | packages/chord/src/connection.ts:587-588 | Exactly the n oldest sizes leave, and the unacknowledged bytes stay the sum of those left. |
| Connections.Connection.Change | packages/chord/src/connection.ts:1025-1034 | Ops at a source move its stream by exactly the change step of its view, and every other stream is left alone or makes room; all stay faithful. |
| Connections.Connection.Renew | packages/chord/src/connection.ts:1025-1037 | A replaced source moves its stream by exactly the renewal step of its view, marked stale if and only if the value is invalid, and every other stream is left alone or makes room. |
| Connections.Connection.Resend | packages/chord/src/connection.ts:1040-1049 | A reset of the current value (or its error) is sent at once, and no other stream is touched. |
| Connections.Connection.Attach | packages/chord/src/connection.ts:989-1005 | A stream starts with exactly one snapshot of the current value, or its error. |
| Connections.Connection.SendUnit | packages/chord/src/connection.ts:957-981 | A unit starts exactly the streams the hold's consumer lacks, each with one snapshot; its slot is gone; nothing is lacking afterwards. |
| Connections.Connection.QueueUnit | packages/chord/src/connection.ts:550-554 | A unit waits, once, and is sent when the window allows; every lacking member is announced by a unit in a slot. |
| Connections.Connection.ShapeChanged | packages/chord/src/connection.ts:940-954 | Streams of members that are not due end, the others go on, and a first unit that is not a re-hold's is sent past the window. |
| Connections.Connection.SetShape | packages/chord/src/connection.ts:940-954 | A new shape keeps every stream of other holds and every source that is followed, and keeps the invariant that each stream is due and each lacking member has a unit under way. |
| Connections.Connection.OnWantState | packages/chord/src/connection.ts:1052-1068 | Ending a hold's state ends its streams and its unit and sends nothing; repeating what is so already changes nothing. |
| Connections.Connection.OnResync | packages/chord/src/connection.ts:1071-1080 | A resync turns the stream's slot into the promise of a reset, or sends that reset; it changes nothing for a member that is not streamed. |
| Connections.Connection.Serve | packages/chord/src/connection.ts:878-935 | A hold id that is in use, for a local or a relayed hold, is a violation and changes nothing; otherwise the hold is served, with nothing sent of it yet. |
| Connections.Connection.DropServed | packages/chord/src/connection.ts:1083-1098 | A released hold leaves no stream and no slot behind. |
| Connections.Connection.RelayState | packages/chord/src/connection.ts:240-253 | A frame from downstream is ignored while a reset is awaited, goes past the window if its snapshot is urgent, and else is sent, waits or is dropped with a reset asked for: exactly the step of the relay's view; all other streams are left alone or make room. |
| Connections.Connection.RelayShape | packages/chord/src/connection.ts:230-237 | A shape goes on at once; exactly the members of a hold's first unit become urgent, unless it is held again. |
| Connections.Connection.RelayResync | packages/chord/src/connection.ts:223-227 | An ask is counted and awaited. |
| Connections.Connection.RelayStop | packages/chord/src/connection.ts:209-217 | Exactly the slots of the hold go, and none of its streams awaits a reset any more. |
| Connections.Connection.MovedSteps | packages/chord/src/connection.ts:593-609 | Whatever acknowledgements, shapes, units, wanted state and ends of holds do to a local stream: if its source joined anew, its view is renewed unfollowed, which only one that is not streamed can be; then it does one step (flushed, attached or detached) or none, and one that was not streamed starts or does nothing. |
| Connections.Connection.MovedRelaySteps | packages/chord/src/connection.ts:593-609 | The same of a relayed stream: what waited was sent, or nothing happened. |
| Connections.Connection.PromisedSteps | packages/chord/src/connection.ts:532-547 | A stream asked for again promises a reset, and may flush it at once. |
| Simulation.StepMatches | packages/chord/src/connection.ts:219-253 | Forward simulation: every step of the provider's and the relay's views and of the consumer, on frames without indices, is an enabled step of Chain after which both are still the same system. |
| Simulation.FeedMatches | packages/chord/src/connection.ts:469-609 | The part of a provider's connection: changes, renewals, attachments, drops, flushes and resyncs. |
| Simulation.RelayMatches | packages/chord/src/connection.ts:219-253 | The part of a relay. |
| Simulation.EveryRunFollows | packages/chord/src/connection.ts:219-253 | In every run from a stream's beginning, judged by values alone: what the consumer holds is a value the source had with the ops applied that followed an error, none unless an error is the latest it took; and it goes through the source's history without going back. |
| Simulation.EveryRunDrainsCurrent | packages/chord/src/connection.ts:593-609 | Whenever such a run has drained, the consumer holds the source's value, or was told of its error last if and only if the provider's latest snapshot was one. |
| Simulation.ReceivePlain | packages/chord/src/connection.ts:1024-1037 | A consumer makes the same of a frame with and without indices. |
| Acks.NeverAViolation | packages/chord/src/connection.ts:582-619 | In every run of two FIFO-linked ends that announce acknowledgements, no acknowledgement is judged a violation, and acked <= received <= sent holds both ways. |
| Acks.UnackedIsUnderWay | packages/chord/src/connection.ts:612-619 | A frame that is not acknowledged is on the link, or an acknowledgement of it is scheduled or on its way back. |
| Acks.AllAcknowledged | packages/chord/src/connection.ts:733-751 | From every reachable state, deliveries and timers alone bring every frame's acknowledgement back. |
| Output.OutputBuffer.Push | packages/chord/src/output.ts:158-171 | The stream grows by exactly the flushed, omitted and pushed text; a skip is refused for a head; the result says whether anything was accepted. |
| Output.OutputBuffer.Accept | packages/chord/src/output.ts:189-217 | Storing a text and forgetting old chunks leaves the invariant that nothing forgotten can be in any later window. |
| Output.OutputBuffer.Snapshot | packages/chord/src/output.ts:220-240 | The snapshot is the sanitized bound of the whole stream with exactly its dropped bytes and lines, for head and tail, although most of the stream is forgotten; the stream is unchanged. |
| Output.OutputBuffer.CompactTail | packages/chord/src/output.ts:226-234 | Keeping only the tail margin keeps the invariant for all later pushes, and at most maxBytes + 4 bytes. |
| Output.OutputBuffer.StorageBounded | packages/chord/src/output.ts:149-152 | Tail storage is at most maxBytes + 1 + max(largest accepted text, maxBytes + 4) bytes, head storage maxBytes plus the largest text, however long the stream. |
| Output.TailMargin | packages/chord/src/output.ts:247-261 | The margin starts at a character, exceeds the window by a byte or a line, and no shorter suffix does. |
| Output.StoredTailWindow | packages/chord/src/output.ts:220-240 | The bound of a stored suffix longer than the window, widened by the totals, is the bound of the whole stream. |
| Output.StoredHeadWindow | packages/chord/src/output.ts:200-204 | The bound of a stored full head is the bound of the whole stream. |
| Bounds.BoundOutput | packages/chord/src/output.ts:49-59 | The result satisfies IsBound: the longest prefix or suffix of whole lines within the limits, or a cut of a single line that is too long, with kept plus dropped equal to the input. |
| Bounds.BoundUnique | packages/chord/src/output.ts:44-59 | IsBound determines the result: a text has one bound. |
| Bounds.HeadRange | packages/chord/src/output.ts:61-76 | The head range is the head cut by definition. |
| Bounds.TailRange | packages/chord/src/output.ts:78-99 | The tail range is the tail cut by definition. |
| Bounds.HeadWindowFits | packages/chord/src/output.ts:44-48 | A head window is valid UTF-8 within both limits; a cut first line uses all but at most three of the allowed bytes (RFC 3629, section 3). |
| Bounds.TailWindowFits | packages/chord/src/output.ts:44-48 | The same of a tail window and a cut last line. |
| Bounds.HeadWindowStable | packages/chord/src/output.ts:200-204 | Nothing that follows a full head changes its window. |
| Bounds.TailWindowStable | packages/chord/src/output.ts:244-246 | The window of a text longer than one window is the window of anything that ends with it. |
| Bounds.CharacterEnd | packages/chord/src/output.ts:102-106 | The last character boundary at or before an index: none lies between. |
| Bounds.CharacterStart | packages/chord/src/output.ts:109-113 | The first character boundary at or after an index: none lies between. |
| Utf8.SplitText | packages/chord/src/output.ts:52-55 | Valid UTF-8 cut at a boundary is valid UTF-8 on both sides. |
| Coordinator.SyncedChildrenFollow | packages/chord/src/cluster.ts:39-158 | In every run, with late hellos, missed deadlines, aborts, lost links and reconciliation: an open child marked synced was sent the commit of the server's code version before any other frame of it, and ends at that version with the frames sent so far. |
| Coordinator.StepKeeps | packages/chord/src/cluster.ts:39-158 | Every step of the server, its links and its children keeps the protocol's invariant. |
| Coordinator.CommitFindsAllReady | packages/chord/src/cluster.ts:83-103 | When the server commits, each participant still connected voted yes, is prepared, and has no decision under way. |
| Cluster.TakeKeeps | packages/chord/src/cluster.ts:181-206 | A child that takes any frame stays in step with its link: no frame of a root reaches it before that root's code version. |
| Cluster.TakeUse | packages/chord/src/cluster.ts:8-11 | A frame of a root is taken only once its code version is installed. |
| Child.RunKeeps | packages/chord/src/cluster.ts:173-251 | In every run of a child, each reload it began ends in exactly one commit (after its own yes vote) or rollback, which frees the slot once, before another takes it. |
| Child.InstallsOnlyCommitted | packages/chord/src/cluster.ts:193-206 | A code version is installed only by a commit that names the child's prepared operation, after its yes vote, and frees the slot. |
| Child.LostParentFreesSlot | packages/chord/src/cluster.ts:209-225 | Whatever was under way when the parent is lost, once pending work settles the slot is free and the code version is the one before. |
| Child.Reloads.OnFrame | packages/chord/src/cluster.ts:181-206 | The handler refines the step machine: the next state and the votes sent are those of the frame's step. |
| Child.Reloads.OnLoaded | packages/chord/src/cluster.ts:234-239 | The part of the operation after loading refines its step, with a cancelled load unwound. |
| Child.Reloads.OnPrepareSettled | packages/chord/src/cluster.ts:238-249 | The part after preparing refines its step: one vote, unless it was cancelled. |
| Retirement.CallFoundIff | packages/chord/src/host.ts:701-754 | In every run without forced retirement from a sync as below, a call that reaches a synced child finds its code version retained if and only if the child had it when it was synced or got its commit since; so always from the parent's version at that time on. |
| Retirement.SyncedInStep | packages/chord/src/host.ts:987-1010 | A child whose hello is in step begins with the invariant of that result, with any announcements of what the parent retired before on their way to it. |
| Retirement.SyncedByReconciling | packages/chord/src/cluster.ts:123-158 | So does a child that was reconciled, with announcements under way before and behind the commit. |
| Retirement.SupersededAfterReconciling | packages/chord/src/host.ts:625-635 | A run of a reconciled child, behind whose commit the announced retirement is under way: a call in the version its parent still retains reaches it, and does not find it. |
| Roots.LeasesEndExactlyIff | packages/chord/src/host.ts:619-699 | Over all runs with installs, retirements, calls and links: leases end exactly when the root's last call settled and each link it came over announced its end or closed, if and only if no root's last call in one code version settles while it runs in another with no link left. |
| Roots.SettleEndsExactlyIff | packages/chord/src/host.ts:655-665 | The same of one settling call, with the condition checked at the call. |
| Roots.LinkEndsExactly | packages/chord/src/host.ts:692-699 | An announced or closed link ends a root's leases exactly when that leaves nothing of it, and does nothing for a root that never came over it. |
| Roots.EndsWhileRunning | packages/chord/src/host.ts:655-665 | A run from an empty host in which a root's leases end while a call of it runs. |
| Roots.Host.JoinRoot | packages/chord/src/host.ts:625-652 | Begins a call in a retained version; in any other it is refused and the root no longer counts as started here. |
| Roots.Host.SettleCall | packages/chord/src/host.ts:655-665 | Refines the settling step and keeps every lease within its root's life. |
| Roots.Host.EndRoot | packages/chord/src/host.ts:679-686 | The root is forgotten, and exactly the links its calls went out on are told. |
| Roots.Host.ForeignRootEnded | packages/chord/src/host.ts:692-699 | Refines the link's end. |
| Roots.Host.LinkClosed | packages/chord/src/host.ts:1036-1046 | A closed link leaves leases to exactly the roots that are still alive, and none of the roots that go on will announce its end over it. |
| Roots.Host.RetirePrevious | packages/chord/src/host.ts:705-754 | The previous version goes if and only if no root runs in it. |
| Cells.Sources.Write | packages/chord/src/cell.ts:246-274 | A write succeeds if and only if it validates and every transitive dependent can be computed; then every source has its value after the write by definition, each dependent was computed exactly once, and the cell then the changed derivations are queued in creation order; otherwise no value and no notification changes. |
| Cells.Sources.ComputeDependents | packages/chord/src/cell.ts:287-305 | The candidates are exactly the transitive dependents with their defined values, each computed once in creation order; a failure means some dependent has no value. |
| Cells.Sources.WaveIsConsistent | packages/chord/src/cell.ts:267-273 | After adoption every attached derivation equals its function of its sources' new values: no observer sees a mix of old and new. |
| Cells.ReadIsEvalAll | packages/chord/src/cell.ts:299-304 | Reading candidates first and adopted values otherwise gives a derivation what the definition says. |
| Cells.FollowersAreLater | packages/chord/src/cell.ts:299 | Creation numbers order every path of dependencies, so sorting by them is a topological order. |
| Cells.Sources.Visit | packages/chord/src/cell.ts:289-296 | The walk adds exactly followers, and everything that follows what it adds. |
| Cells.Sources.Attach | packages/chord/src/cell.ts:353-359 | A derivation is attached with the value a reload computed for it, or else its function's, which is then computed once; all stays consistent if and only if that value is what its function gives now. If computing throws, nothing changes. |
| Publish.EveryRevisionOnce | packages/chord/src/publish.ts:14-39 | In every run, however listeners write, hold, subscribe and unsubscribe re-entrantly: each observer saw its snapshot and then each later revision once, in adoption order, and the last one once all code returned; unless a listener function is subscribed while a revision is on its way to it. |
| Publish.RunOwes | packages/chord/src/cell.ts:45-51 | In every run without that proviso, what an observer that stays subscribed saw and is still owed grows by exactly the revisions written. |
| Publish.SubscriptionReceives | packages/chord/src/cell.ts:29-39 | What a subscription receives until all code returned: its snapshot, the revisions on their way to the same listener function, none of them new, and then each later one once. |
| Publish.SubscriptionExactIff | packages/chord/src/cell.ts:29-51 | A subscription sees its snapshot and each later revision once, in order, if and only if no revision is on its way to the same listener function when it subscribes. |
| Publish.SeenTwice | packages/chord/src/cell.ts:29-51 | A run from the start in which a listener function that unsubscribes and subscribes again sees one revision twice. |
| PublishQueue.NothingWhileHeld | packages/chord/src/publish.ts:21-39 | Nothing is delivered while a multi-step change is held. |
| Publish.Publications.DrainOn | packages/chord/src/publish.ts:31-39 | The loop keeps the invariant, runs only while nothing is held, and ends with an empty queue or at a listener. |
| Graph.Objects.Acquire | packages/chord/src/host.ts:566-590 | The graph stays acyclic; a reference is refused if and only if its target is or reaches its holder, and otherwise exactly that reference is added. |
| Graph.Objects.FindPath | packages/chord/src/host.ts:1289-1303 | The worklist terminates and says true if and only if a path exists. |
| Graph.EdgeKeepsAcyclicIff | packages/chord/src/host.ts:567-569 | A new reference keeps an acyclic graph acyclic if and only if its target does not reach its holder. |
| Graph.DisposeHoldersFirst | packages/chord/src/host.ts:1249-1272 | Terminates; every object is in exactly one wave; holders are in earlier waves than what they reference if and only if the references of the set make no cycle; all errors are collected. |
| Graph.HoldersFirstNeedsAcyclic | packages/chord/src/host.ts:1244-1265 | No order of waves puts holders first where there is a cycle. |
| Resources.EveryRunIsSafe | packages/chord/src/object.ts:1681-1721 | Through any interleaving of opens, failures, aborts, calls, listener events and disposal: the order lists exactly the open resources, once each, dependencies first; no resource closes that an open or opening one depends on; and none closes before every invocation settled. |
| Resources.ClosesInReverse | packages/chord/src/object.ts:1279-1292 | In every run, whatever opened is still open, in that order, or was closed newest first. |
| Resources.DisposedInReverse | packages/chord/src/object.ts:1708-1716 | A disposed object closed all it ever opened, in exactly the reverse order. |
| Resources.EndsClosed | packages/chord/src/object.ts:1095-1160 | An object that failed to activate or is disposed has nothing open or opening; one that is live has all its resources open. |
| Resources.OpeningGoesOn | packages/chord/src/object.ts:1194-1217 | An activation is never stuck on its dependencies: some open can begin, be given up or end, or all did. |
| Resources.Object.Settle | packages/chord/src/object.ts:243-261 | An open that ends is owned if and only if it succeeded and the activation was not aborted meanwhile; refines the step. |
| Resources.Object.CloseNext | packages/chord/src/object.ts:263-271 | The next resource leaves the order before its close runs; refines the step. |
| Resources.Object.Dispose | packages/chord/src/object.ts:1676-1692 | Disposal can be asked for at any time, and happens once; refines the step. |
| AgentLoop.Agent.Prompt | packages/agent/src/agent-loop.ts:102-126 | Every run's events are well formed; the messages that ended are exactly the new messages, and the transcript is the one before followed by them; when the run is over, everything taken from the queues was said once, in order, and its last event carries the new messages; a turn has at most one steering message if the queue was one at a time throughout. |
| AgentLoop.Agent.Continue | packages/agent/src/agent.ts:400-427 | The same of a continuation, which is refused if and only if the transcript has only system messages, or ends with the assistant and nothing is queued. |
| AgentLoop.Agent.RunLoop | packages/agent/src/agent-loop.ts:163-321 | The nested loop from the first poll on: well-formed turns, new messages as ended, nothing taken from a queue left unsaid at the end, although the queues, their modes and the abort signal change whenever it waits. |
| AgentLoop.Agent.ExecuteTools | packages/agent/src/agent-loop.ts:508-528 | A batch's result messages are those of a prefix of the calls in source order, all of them unless aborted, each after its call's one start and one end; it terminates if and only if it is not empty and every result says so. |
| AgentLoop.Agent.Sequential | packages/agent/src/agent-loop.ts:530-584 | One call after the other, each reported before the next begins, until an abort. |
| AgentLoop.Agent.Parallel | packages/agent/src/agent-loop.ts:586-660 | The same contract for concurrent calls, whatever order they end in. |
| AgentLoop.Agent.Finish | packages/agent/src/agent-loop.ts:624-648 | Every prepared call ends exactly once, in any order; one that begins after an abort is refused and never asks to end the loop, and after an early abort all are. |
| AgentLoop.Agent.Truncated | packages/agent/src/agent-loop.ts:478-503 | Each call of a cut-off message starts, ends and is reported, and none asks to end the loop. |
| AgentLoop.Agent.Emit | packages/agent/src/agent.ts:581-628 | Reducing an event keeps the transcript equal to the one before the run followed by the messages that ended. |
| AgentLoop.WellFormedAllAlong | packages/agent/src/agent-loop.ts:163-321 | A log that is well formed was so after each of its events. |
| Transcript.DeclareReaches | packages/agent/src/agent-loop.ts:333-365 | After the declaration of tool changes, replaying the transcript yields exactly the tools that can be executed. |
| Transcript.DeclareKeepsMessages | packages/agent/src/agent-loop.ts:333-365 | The declaration drops, repeats and reorders no message of a queue. |
| Transcript.MessageQueue.Drain | packages/agent/src/agent.ts:164-168 | What is drained and what is left make up the queue before; first in, first out, by the mode. |
| Transcript.MessageQueue.Remove | packages/agent/src/agent.ts:175-180 | Exactly the first match leaves, and it is found if and only if there is one. |
| Transcript.MessageQueue.SetMode | packages/agent/src/agent.ts:289-304 | A mode set meanwhile is remembered: a queue counts as one at a time only if it was so throughout. |
| Pricing.Usage.Calculate | packages/ai/src/models.ts:1206-1226 | The table scan charges each of the four rates in effect at the latest bracket start up to the prompt length, whatever the order of the tiers. |
| Pricing.ExactIffTight | packages/ai/scripts/ai-gateway-pricing.ts:38-67 | The compiled table means the same as direct lookup for every prompt length if and only if the rate begins at the base price and wherever a bracket of it ends, some rate's bracket starts or the price stays that of the latest start. |
| Pricing.ContiguousIsExact | packages/ai/scripts/ai-gateway-pricing.ts:34-37 | With brackets contiguous from 0 starting at the base price, every prompt length is charged the rate of its bracket, each rate independently of the others. |
| Pricing.GetCost | packages/ai/scripts/ai-gateway-pricing.ts:38-67 | One tier for each bracket start above zero, with the looked-up rates there. |
| Pricing.ScanCharges | packages/ai/src/models.ts:1207-1215 | The tier with the highest threshold below the prompt length has the rates in effect at the latest start. |
| Pricing.Scan | packages/ai/src/models.ts:1207-1215 | The scan finds the highest threshold below the prompt length in a table of any order, or none if none is below. |
| Pricing.PastTheLastBracket | packages/ai/scripts/ai-gateway-pricing.ts:53-64 | A prompt past the end of a bracket where no other starts is charged that bracket's rate, not the base price of direct lookup. |
| Pacing.OneWriteAtATime | packages/chord/src/output.ts:310-383 | In every run in which write does not mark changes itself: at most one write is under way, a change not yet written has a timer or a write before it unless stopped, each waiter is settled by a write begun after its mark, and starts keep the pauses. |
| Pacing.OverlapsIffReenters | packages/chord/src/output.ts:350-370 | Two writes run at once in exactly the runs in which write marks a change before it returned, the pacer not stopped. |
| Pacing.SecondWrite | packages/chord/src/output.ts:361-370 | A run from the start in which two writes run at once. |
| Pacing.SpanBound | packages/chord/src/output.ts:302-303 | Between the starts of any two writes of a log, at most 100 KiB per second were written. |
| Pacing.RunBound | packages/chord/src/output.ts:305-309 | That bound holds of every span of every run in which write does not mark changes. |
| Pacing.StoppedKeepsTheRest | packages/chord/src/output.ts:342-348 | In every run after a stop: no more writes begin, and every waiter is settled by its write or handed over, once and in order, or still waits; who stopped the pacer from outside a call of write is handed the waiters only when nothing is in flight, and then none is left. |
| Pacing.Progress.FlushPass | packages/chord/src/output.ts:361-382 | Refines the flush: a write begins for everybody who waits now. |
| Pacing.Progress.MarkChange | packages/chord/src/output.ts:328-339 | Refines the mark: the change waits, with or without somebody waiting for it, and is scheduled. |
| Pacing.Progress.SchedulePass | packages/chord/src/output.ts:350-359 | Refines the schedule: nothing while stopped, timed or in flight; else a write now or a timer at the end of the pause. |
| Pacing.Progress.OnSettled | packages/chord/src/output.ts:367-377 | Refines the settlement: the write's waiters are settled by it, and the next start is its pause away. |
| Pacing.Progress.OnFinally | packages/chord/src/output.ts:378-381 | Refines the end of a write: what was marked meanwhile is scheduled. |
| Pacing.Progress.OnTimer | packages/chord/src/output.ts:355-358 | Refines the timer. |
| Pacing.Progress.StopWriting | packages/chord/src/output.ts:342-348 | Refines the stop, also from inside a call of write. |
| Publish.Publications.Emit | packages/chord/src/cell.ts:45-51 | Refines the write: the revision is queued for the observers subscribed now, and the loop starts unless it runs or publications are held. |
| Publish.Publications.AddListener | packages/chord/src/cell.ts:29-39 | Refines the subscription: the listener is called with the current revision. |
| Publish.Publications.RemoveListener | packages/chord/src/cell.ts:32-33 | Refines the end of a subscription. |
| Publish.Publications.EndHold | packages/chord/src/publish.ts:21-29 | Refines the end of a held change: the loop starts when the outermost one ends. |
| Publish.Publications.DeliverOne | packages/chord/src/publish.ts:35-35 | Refines one turn of the loop: one revision to one observer, skipped if it unsubscribed. |
| Child.Reloads.OnParentLost | packages/chord/src/cluster.ts:208-211 | Refines the loss of the parent: whatever operation there is gets cancelled. |
| Child.Reloads.CancelOperation | packages/chord/src/cluster.ts:213-225 | A prepared reload is rolled back now, any other one unwinds when its work settles. |
| Cells.Sources.CreateDerived | packages/chord/src/cell.ts:328-336 | A derivation over sources that exist is not followed yet; all stays consistent. |
| Cells.Sources.Detach | packages/chord/src/cell.ts:361-365 | A derivation that stops following leaves the others consistent. |
| Graph.Objects.Release | packages/chord/src/host.ts:756-763 | References that end leave the graph acyclic. |
| Roots.Host.StartRoot | packages/chord/src/host.ts:612-617 | Refines a new root's start, and keeps every lease within its root's life. |
| Roots.Host.Admit | packages/chord/src/host.ts:636-644 | Refines the call of a root that came over a link. |
| Roots.StepKeeps | packages/chord/src/host.ts:619-754 | No step lets a lease outlive its root, or a retained version be forgotten while a root runs in it. |
| Lifetime.StepKeeps | packages/chord/src/object.ts:1095-1217 | Each of the seventeen steps keeps the invariant behind the results on resources. |
| Resources.Object.OpensSettled | packages/chord/src/object.ts:1214-1216 | Refines the end of all opens: any failure, or an abort noticed only now, fails the activation. |
| Resources.Object.Finish | packages/chord/src/object.ts:1130-1142 | Refines going live, or failing if a listener that started released the object. |
| Resources.Object.Invoke | packages/chord/src/object.ts:1616-1626 | A call is refused unless the object is live; else it counts until it settles. |
| Resources.Object.BeginClose | packages/chord/src/object.ts:1698-1716 | Refines the begin of the closes, enabled only when the invocations awaited have settled. |
| AgentLoop.Agent.StreamAssistant | packages/agent/src/agent-loop.ts:381-470 | One assistant message, announced in any number of parts, ends exactly once and says nothing of any queue. |
| AgentLoop.Agent.BeginTurn | packages/agent/src/agent-loop.ts:183-208 | A turn begins with what waits; a second poll, only if nothing waits, never brings a second steering message in one-at-a-time mode. |
| AgentLoop.Agent.RunQueued | packages/agent/src/agent.ts:410-424 | Steering messages go first; refused if and only if nothing is queued. |
| Transcript.MessageQueue.Enqueue | packages/agent/src/agent.ts:150-152 | What was accepted is what was taken and then what still waits. |
| Transcript.MessageQueue.Clear | packages/agent/src/agent.ts:170-172 | Only what was taken counts as accepted from then on. |
| Replication.HoldsRealIff | packages/chord/src/connection.ts:1014-1037 | After every run, what the consumer holds is a value the source had if and only if the ops it took since an error, if any, bring the value before the error to one; with none taken it holds that value. |
| Connections.WaitsForever | packages/chord/src/connection.ts:578-609 | From a new connection with a window of 0 whose peer acknowledges: the first unit goes out, and the ops of the next change wait in a slot through any acknowledgements, at last of everything sent. |
| Connections.Connection.ChangeInVain | packages/chord/src/connection.ts:578-609 | The same of any stream in any state with a window of 0. |
| Retirement.AnnouncedRetires | packages/chord/src/host.ts:731-740 | A child that is in step drops its older version on hearing the announcement if and only if no root of it runs there and the parent retains nothing as old. |
| Coordinator.VoteStands | packages/chord/src/cluster.ts:83-103 | A yes stays a yes until the reload is decided, also when the link it came over is closed and gone. |
| Cells.Sources.Reset | packages/chord/src/cell.ts:238-274 | A reset by a reload commit succeeds if and only if no derivation throws, without asking any schema; then every source has its value after it by definition and observers are told as of a write. The schema is replaced in either case. |
| Pacing.Progress.HandOverRest | packages/chord/src/output.ts:347-347 | Refines the hand-over: exactly the waiters no write took are returned. |

## Findings

What the code does not do as its documentation or its purpose suggests. Each has an input, mostly as a run from the initial
state, and the exact condition under which the property holds.

| property | input | holds exactly when |
|---|---|---|
| A consumer only ever holds values the source had (`packages/chord/src/connection.ts:1014-1037`). | `Replication.StaleAfterError`: a value that fails its schema is announced by an error, and the ops after it apply to the value before. | The ops the consumer took since an error, if any, bring the value before the error to one the source had (`HoldsRealIff`); it took none if the latest snapshot, reset or error it took is no error (`ConsumerFollowsHistory`). Drained, that is so if and only if the provider built none last (`DrainedIsCurrent`, `FailedIff`), and a valid snapshot or reset repairs it (`BaseRecovers`). |
| What waits is flushed by an acknowledgement to come (`packages/chord/src/connection.ts:578-609`). | `Connections.WaitsForever`: with a window of 0, the ops of a change stay in their slot with everything acknowledged. | The window is above 0 (`Connections.Connection.DrainsIffWindow`). |
| A subscription sees each later revision once (`packages/chord/src/cell.ts:29-51`). | `Publish.SeenTwice`: a listener function unsubscribes and subscribes again in a held change. | No revision is on its way to the same listener function (`SubscriptionExactIff`). |
| At most one write is in flight (`packages/chord/src/output.ts:305-309`). | `Pacing.SecondWrite`: `write` marks a change before it returns. | `write` marks no change, or only after it stopped the pacer (`OverlapsIffReenters`). |
| A root's leases end when its last call settled and its links ended (`packages/chord/src/host.ts:619-624`). | `Roots.EndsWhileRunning`: calls of one root in two code versions. | No last call of a root in one code version settles while it runs in another with no link left (`LeasesEndExactlyIff`). |
| A call in a code version the parent retains finds it on a synced child (`packages/chord/src/host.ts:709-740`). | `Retirement.SupersededAfterReconciling`: a child reconciled from version 1 to 3 by a parent that still runs roots of 2, with the announcement that 1 is retired behind its commit. | The child had the version when it was synced, or got its commit since (`CallFoundIff`). |
| The tier table means the same as the brackets (`packages/ai/scripts/ai-gateway-pricing.ts:34-37`). | `Pricing.PastTheLastBracket`: a bracket that ends where no other starts. | The rate's brackets are tight (`ExactIffTight`). |

## Left out

- AgentLoop.Agent.RunLoop: `fuel` bounds the turns followed, since a model may call tools forever; a run cut short keeps every invariant but does not end. Hooks and listeners that throw, and the failure message of a run that does, are not modelled.
- AgentLoop.Agent.Prompt: bounded by the same `fuel`, and without hooks that throw.
- AgentLoop.Agent.Continue: bounded by the same `fuel`, and without hooks that throw.
- AgentLoop.Agent.Sequential: what a call returns and which calls are refused before they run is arbitrary; argument validation, updates of a running call and the contents of results are not modelled.
- Connections.Connection.RelayStop: it says what the relay forgets; `Chain` and `Simulation` have no step that stops and restarts the state of a relayed hold, since ops in flight across it leave a gap until the next unit's snapshot, and what a consumer without state does with them is decided in `remote.ts`, which is not part of this model.
- Connections.Connection.Attach: building a snapshot is one step; events that a source publishes meanwhile, which the code buffers and replays after the snapshot, are changes made right after it here.
- Chain.StepKeeps: one relay between provider and consumer; a consumer that is a relay itself may ask for resets, but what it forwards is not followed further.
- Simulation.StepMatches: it is about one stream; that the steps of its views are those of two `Connection` objects is stated method by method in their contracts, not for a heap with both.
- Output.OutputBuffer.Push: text is valid UTF-8 bytes; decoding, byte-order marks and surrogates split across string chunks are not modelled, and the caller names what the decoder still held.
- Resources.EveryRunIsSafe: one activation of an object; the candidate runs of a reload, exclusive resources and their gates, tasks and lingering are not modelled.
- Retirement.CallFoundIff: forced retirement and its deadlines are not modelled.
- Child.RunKeeps: what beginning, preparing, committing and rolling back a reload do to objects is not part of this model (`reload.ts`); each settles once.
- Cells.Sources.Write: drafts, structural diffs and ops are abstract, and so are derivations over remote members, which refresh outside the write.
- Pricing.Usage.Calculate: prices and costs are real numbers; parsing and rounding of `perMillion` is an uninterpreted function.
- Pacing.OneWriteAtATime: the clock never goes back and timers are never early.
- Transports, frame encoding, calls and their results, principals, pings, protocol versions, contract typing and remote references: they carry or check what is modelled here and would only add easy members.
- Model catalogs, credentials, providers, the command line and the user interface.
