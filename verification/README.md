# Zentific RPC server: a verified model

This project models three parts of the server and proves what they are for.

**SHA-1** (`Sha1Spec.dfy`, `Sha1.dfy`, `Sha1Wrap.dfy`). `Fips180` writes FIPS 180-4 down as functions on
byte sequences. `Sha1.Context` is the streaming context of `src/bin/sha1.c`: it packs bytes into a reused
80-word array, counts bits in two 32-bit halves, hashes blocks in place, pads by calling its own update,
shifts its hash value out byte by byte and starts over. The class is proved against `Fips180`: after any
sequence of updates, `Final` leaves the standard's digest of everything absorbed. Both string front ends of
`src/bin/sha1wrap.c` follow.

**The call engine** (`Engine.dfy`, `EngineState.dfy`, `EngineRuns.dfy`, `EngineRefinement.dfy`,
`Replies.dfy`, `Chains.dfy`, `Updates.dfy`, `Callbacks.dfy`, and on top of it `VmLists.dfy`, `VmAssembly.dfy`, `Join.dfy`, `VmConfig.dfy`, `VmUpdate.dfy`,
`VmRevisions.dfy`, `Gate.dfy`, `PreCall.dfy`, `Admission.dfy`). A context holds a chain of callbacks, with
NULL placeholders; queries are answered in any order, and each answer goes to a database-level handler (those
of `zrpcdb.x` and the ones of virtual machines and nodes), to the head of the chain, or becomes a result or an
error event. `Engine` gives this as functions on context values and `EngineState` as classes whose methods
update fields as the C code does; every method is proved against its function. `EngineRuns` makes them a
transition system, `EngineRefinement` shows that the classes move as it does, and the modules after it treat its
runs: arbitrary interleavings of answers, events, new
queries and the code in between. The joins, the gate and the pre-call have runs of their own. The server
library is a set of primitives: a rewind means "run the method again from the top on resume", and every
resume is logged.

**Two list algorithms** (`Disks.dfy`, `Vlans.dfy`). Reconciling stored and reported disks, and printing a
VLAN list against the regular expression that later searches it.

The main results are `Sha1.Context.Final`, `Sha1Wrap.SameString`, `Replies.AtMostOneReply`,
`Replies.DeadStaysDead`, `EngineRuns.DispatchConservation`, `EngineRefinement.Answer`,
`Chains.ChainCounting`, `Updates.AnsweredOnce`, `VmAssembly.DeliveredOnce`, `VmAssembly.FoundIsDelivered`,
`FullFetch.FullListing`, `FullFetch.ListingIsComplete`, `VmUpdate.NestedJoin`, `VmUpdate.UpdateEnds`,
`VmUpdate.InnerJoinIsExact`, `VmRevisions.RevisionsAreDue`, `VmRevisions.EveryVmArrives`,
`Gate.GateIsExact`, `PreCall.PreCallIsBoundedAndSafe`, `PreCall.VerdictIsExact`,
`Admission.GuardedAfterPreCall`, `Disks.ReconciliationIsExact`, `Disks.DistinctPathsDecide` and
`Vlans.SearchFindsTheList`.

Where the code does not do what it looks meant to do, the model keeps the code and a lemma says when it works:

- The inner join of `vm_cb_update` works in every run if and only if the VM came from a poller, or is not
  updated at all because it is invalid or migrating (`VmUpdate.InnerJoinIsExact`). What fails for a user's
  call is in `VmUpdate.ForkAtFive`, for no, one and two sub-contexts.
- The list that arrives second for a VM is delivered as it was found exactly when it is not empty
  (`VmAssembly.DeliveredOnce`).
- A stored list in which a path occurs twice can hide a disk that has to be created; one in which none does
  never hides any (`Disks.DistinctPathsDecide`).
- When single sign-on lets a call in, the count stays at 5 and the user's type is never asked for. The gate takes a count of 0 for the first pass,
  so it guards its method in every run if and only if it starts from 0 (`Gate.GateIsExact`), which after the
  pre-call is so if and only if single sign-on did not let the call in (`Admission.GuardedAfterPreCall`). What
  happens otherwise is in `Admission.AfterSingleSignOn`.
- The error of a missing `proxied` setting is still there at the second pass of the pre-call, which is then
  refused, as it is when its own query cannot be created, and in no other case
  (`PreCall.ProxySettingNeeded`).
- After a failed answer whose error event has been handled, the chain is empty, so a later good answer posts a
  result event although placeholders were left (`Chains.ResultHappens`); the latch makes that event change
  nothing (`Chains.ClearedIsDead`).
- The reconciliation of a VM's disks stops without a query, so that its sub-context never exits, if and only if
  nothing was stored for the reported disks, or as many were stored and there is a difference but no new path
  (`Disks.UpdateConfig`; `Disks.StopsExactly` for distinct stored paths). The VM then waits in stage 6 for ever, like one that was not
  known before and has sub-contexts, which are launched without a query (`VmUpdate.UpdateEndsAsLaunched`).
- A listing or an update of no VMs at all would never resume its parent (`FullFetch.NoChildren`; for
  `_updateVMs` the join is stated for at least one VM).
- A VM seen for the first time runs the comparison stage of `vm_cb_update` twice, so its configuration is
  written twice (`VmRevisions.RevisionsAreDue`).
- In `vm_cb_update` the answer of `isVmIgnored` is never looked at, because the job callback it is queued with
  keeps no value; `VmUpdate.RunJob` therefore has no branch for an ignored VM.

## Model

| member | source | states |
|---|---|---|
| Fips180.PadIsLeast | src/bin/sha1.c:83-86 | The padded message is whole blocks, and no smaller number of zero bytes would make it so (section 5.1.1 of FIPS 180-4) |
| Fips180.HashValuePrefix | src/bin/sha1.c:54-60 | The i-th hash value depends on the first i blocks only, which is why streaming is possible |
| Sha1.RotIsRotl | src/bin/sha1.c:102 | The two-shift macro is the standard's rotation for the three distances in use |
| Sha1.ChRewritten | src/bin/sha1.c:119 | The rewritten Ch equals the standard's, for all words |
| Sha1.MajRewritten | src/bin/sha1.c:127 | The rewritten Maj equals the standard's, for all words |
| Sha1.RoundFunctions | src/bin/sha1.c:118-133 | Each of the four loops uses the standard's function for its range of rounds |
| Sha1.RoundStep | src/bin/sha1.c:119-120 | One five-register step with the C form of the sum is one round of section 6.1.2 |
| Sha1.ScheduleStep | src/bin/sha1.c:108-110 | One step of the in-place schedule gives the next word of the standard's schedule |
| Sha1.RunRounds | src/bin/sha1.c:112-133 | The four loops end with the working variables after 80 rounds |
| Sha1.Context.HashBlock | src/bin/sha1.c:104-140 | The hash value becomes the standard's compression of the sixteen block words, whatever the other words of W held |
| Sha1.ShiftIn | src/bin/sha1.c:55-56 | Shifting a byte in keeps the low bytes right whatever stale bytes stand above, and pushes the last of them out with the fourth |
| Sha1.PackByte | src/bin/sha1.c:55-57 | The packing invariant of W survives one more byte |
| Sha1.PackedBlock | src/bin/sha1.c:57-58 | With 64 bytes buffered the first sixteen words are exactly the standard's parse of the block |
| Sha1.AbsorbByte | src/bin/sha1.c:57-60 | A byte either extends the tail or completes the block whose compression gives the next hash value |
| Sha1.CountByte | src/bin/sha1.c:61-62 | The carry test keeps the two halves equal to the bit length modulo 2^64 |
| Sha1.Context.constructor | src/bin/sha1.c:29-45 | A new context has absorbed nothing |
| Sha1.Context.Init | src/bin/sha1.c:29-45 | The initial value of section 5.3.1, zero counts and a zeroed W |
| Sha1.Context.Absorb | src/bin/sha1.c:54-63 | The whole context invariant is kept and the byte is appended to what was absorbed |
| Sha1.Context.Update | src/bin/sha1.c:48-64 | The bytes are appended to what was absorbed, for any split into calls |
| Sha1.LengthIsBigEndian | src/bin/sha1.c:75-82 | The eight bytes taken from the two halves are the 64-bit big-endian length in bits |
| Sha1.FillSteps | src/bin/sha1.c:84-85 | The zero-filling loop stops after (56 - lenW) mod 64 steps and not before |
| Sha1.PadFromHalves | src/bin/sha1.c:75-86 | 0x80, the zeros and the length block together are the standard's padding |
| Sha1.Context.ZeroFill | src/bin/sha1.c:84-85 | The loop terminates and appends exactly that many zero bytes |
| Sha1.Context.Padding | src/bin/sha1.c:73-86 | What has been absorbed becomes the padded message |
| Sha1.ShiftedOutByte | src/bin/sha1.c:90-93 | The byte that comes out of a word at the r-th shift is its r-th most significant |
| Sha1.Context.Output | src/bin/sha1.c:90-93 | The destructive shift-out yields the big-endian bytes of the hash value |
| Sha1.Context.Final | src/bin/sha1.c:67-99 | The output is the SHA-1 of everything absorbed, and the context is exactly the initial one again |
| Sha1Wrap.HexRoundTrip | src/bin/sha1wrap.c:27-38 | Reading the hexadecimal form back gives the bytes, for every byte sequence |
| Sha1Wrap.HexDigits | src/bin/sha1wrap.c:27-38 | Two lower-case hexadecimal digits for a byte |
| Sha1Wrap.ToString | src/bin/sha1wrap.c:27-38 | The loop stores the two digits of every byte, the high one first |
| Sha1Wrap.File | src/bin/sha1wrap.c:40-61 | NULL when the open fails, else the string of all bytes delivered before the end of the file, whatever the read sizes |
| Sha1Wrap.Buffer | src/bin/sha1wrap.c:63-78 | NULL for no bytes, else the string of both buffers together |
| Sha1Wrap.DeliveredInOrder | src/bin/sha1wrap.c:54-55 | Nonempty reads deliver what they hold, in order, before whatever comes after them |
| Sha1Wrap.ReadsDeliver | src/bin/sha1wrap.c:54-55 | However the reads cut a file, and whatever is read after the empty read at its end, they deliver its content |
| Sha1Wrap.SameString | src/bin/sha1wrap.c:40-78 | However a content is cut into reads and spread over two buffers, the two front ends give one string if and only if there are any bytes, and the string decodes to the digest of the content |
| EngineState.Context.CbAdd | include/functions.h:56-61 | A callback is appended unless the context is dead or has an error |
| EngineState.Context.ResumeByError | include/functions.h:166-178 | A live client is resumed once with success exactly when no fault stands; the context's error becomes the fault first |
| EngineState.Context.CallHead | src/servlets/functions/functions_cb.c:24-108 | Whichever callback heads the chain: when it pops, counts, queues a job, rewinds, resumes and keeps its value, for a live and for a dead context; a callback of another file pops |
| EngineState.Context.NextCb | include/functions.h:131-151 | With a callback left in the chain, a live context has it called and a dead one does nothing |
| EngineState.Context.ErrorHandler | src/bin/loop.c:22-38 | A live context gets its fault, an empty chain, one failing reply and the latch; a dead one is left alone |
| EngineState.Context.ResultHandler | src/bin/loop.c:40-62 | A live context is resumed once; the latch is set unless this is the pre-call |
| EngineState.Tables.DeliverTo | include/zrpcdb.x:20-39 | A placeholder is popped, a real head is called with the value its error state selects, and an empty chain posts a result event |
| EngineState.Tables.HandleResult | include/zrpcdb.x:41-97 | An empty result becomes an error unless one stands, for each handler with its own count and code, then as above |
| EngineState.Tables.HandleVm | db_sources/mysql/zrpcdb_vm.c:509-541 | Without a VM the head is told so; otherwise the two list queries are entered as typed, with their handlers and the VM as their parameter, and one that cannot be created is an error |
| EngineState.Tables.HandleVifs | db_sources/mysql/zrpcdb_vm.c:451-477 | The interfaces are stored, the other list's placeholder is cleared and the VM handed on exactly when the disks are there; the parameter is used up, and a posted event is in the queue |
| EngineState.Tables.HandleDisks | db_sources/mysql/zrpcdb_vm.c:479-505 | The same with the roles exchanged |
| EngineState.Tables.HandleNodeEnabled | db_sources/mysql/zrpcdb_node.c:247-276 | An unknown or a disabled node, or a query that cannot be created, posts an error event; otherwise that query is entered with its handler |
| EngineState.Tables.HandleNodeConfigured | db_sources/mysql/zrpcdb_node.c:229-245 | An unconfigured node posts an error event; otherwise the head is called, or a result event posted |
| EngineState.Tables.Register | include/zrpcdb.h:70-85 | A typed query is remembered as such, and its handler is entered |
| EngineState.Tables.EventCb | db_sources/mysql/zrpcdb.c:43-111 | In every branch the query's handler entry is gone, the handler's own queries are entered, and context, VM, event queue and effect are those of the dispatch |
| EngineRuns.InitialTables | db_sources/mysql/zrpcdb.c:176-184 | Empty tables satisfy the table invariant |
| EngineRuns.DispatchConservation | db_sources/mysql/zrpcdb.c:52-110 | In every reachable state the handler table lists exactly the unanswered queries that were registered with a handler; every query is outstanding or has had exactly one effect, on the context that issued it; and every posted event is handled once, in the order of posting |
| EngineRuns.DispatchCases | db_sources/mysql/zrpcdb.c:52-110 | Exactly when an answer becomes an error event, a result event, or is kept by its handler, and what each effect says of the chain |
| EngineRuns.NullCall | db_sources/mysql/zrpcdb.c:72-108 | NULL is called exactly when the head that is called is a placeholder, and only for a query without a handler or for the one about a configured node |
| EngineRuns.NoNullCall | include/zrpcdb.h:205-212 | Over every run a context whose queries all have handlers, none of them about a node, and whose callbacks do not hand on, never has NULL called, whatever other contexts do |
| EngineRefinement.Answer | db_sources/mysql/zrpcdb.c:43-111 | Objects and tables that stand for a world stand for the next one after event_cb: contexts, VM records, tables, parameters and event queue |
| EngineRefinement.TakeEvent | src/bin/loop.c:22-62 | The same of the handling of the first event |
| EngineRefinement.AddCallback | include/functions.h:56-61 | The same of CTX_CB_ADD |
| EngineRefinement.HandOn | include/functions.h:131-151 | The same of NEXT_CB |
| EngineRefinement.Query | include/zrpcdb.h:70-85 | The same of a query that a method makes |
| Replies.RunIsQuiet | src/servlets/functions/functions_cb.c:24-108 | No callback replies, none touches the latch, and none resumes a dead context |
| Replies.DispatchIsQuiet | db_sources/mysql/zrpcdb.c:43-111 | The same of every answered query, through every handler |
| Replies.EventKeepsRepliedOnce | src/bin/loop.c:22-62 | Handling any event keeps "replied at most once, and nothing resumed after it"; a dead context is not changed; an error event empties the chain |
| Replies.StepOnContext | src/bin/loop.c:22-62 | Every step of a run lets each context follow quietly, or handles one of its events |
| Replies.AtMostOneReply | src/bin/loop.c:22-62 | Over every run each context is answered at most once, its latch says whether it was, and nothing resumes it afterwards |
| Replies.InitialReplies | include/servlets.h:56-63 | Fresh contexts satisfy that invariant |
| Replies.DeadStaysDead | src/bin/loop.c:22-62 | From the reply on, over every run: the latch stays, no resume is logged, and an emptied chain cannot be refilled |
| Replies.ResultReplies | src/bin/loop.c:57-58 | The result event of a live method context is its reply |
| Chains.OneAnswer | include/zrpcdb.x:41-63 | One answer of an exec query on a chain of placeholders |
| Chains.ChainCounting | include/zrpcdb.x:41-63 | Over every run in which nothing is issued for the context or added to its chain, with events handled at any time: its answers have exactly the expected sequence of effects |
| Chains.AllGood | include/zrpcdb.x:41-63 | Over every such run with m + 1 answers and no failure: m placeholders popped, then the result event or the final callback, once and last |
| Chains.LastHappens | include/zrpcdb.x:41-63 | A callback behind m placeholders is called if and only if m + 1 good answers arrive before error_handler empties the chain |
| Chains.ResultHappens | src/bin/loop.c:30-33 | A result event is posted if and only if a good answer meets a chain whose placeholders are used up, or that error_handler has emptied |
| Chains.ClearedIsDead | src/bin/loop.c:26-37 | A context whose chain error_handler has emptied is dead ever after, and no event changes it |
| Chains.TwoUpdates | src/servlets/servlet-functions.c:104-121 | After a login's two updates, in either order, one result event with the second; after a state change's two, the job callback with the second |
| Updates.AnsweredOnce | src/servlets/servlet-functions.c:104-121 | Over every run, m + 1 updates with m placeholders, all answered and their events handled: the error reply if and only if an answer failed; else one success reply for a method, with a fault if an update affected no row; and for a pre-call one resume, with success if all affected a row and with the fault and failure if not |
| Callbacks.GoesOnOnce | src/servlets/functions/functions_cb.c:24-108 | A live context goes on exactly once, by a job or by a rewind with one resume, with one callback less |
| Callbacks.DeadDoesNotGoOn | src/servlets/functions/functions_cb.c:24-108 | A dead one queues no job and is not resumed |
| Callbacks.ValueIsPassedOn | src/servlets/functions/functions_cb.c:32-108 | The callbacks that pass a value on keep it if there is one, cb_int_return even a 0, and no other does |
| Callbacks.HeadIsTold | include/zrpcdb.x:20-97 | What the head is called with after each handler: its own error for an empty result, and the value that goes with it |
| Callbacks.HeadIsToldOfNoVm | db_sources/mysql/zrpcdb_vm.c:514-531 | Of a VM that was not found, or after an error, the head is told that there is none |
| Callbacks.StateIsUsedUp | db_sources/mysql/zrpcdb.c:52-54 | The wish for a single row holds for one answer |
| Callbacks.EnabledNodeIsAsked | db_sources/mysql/zrpcdb_node.c:261-275 | An enabled node is asked for its configuration by one new query of the same context |
| Callbacks.ErrorIsNamed | db_sources/mysql/zrpcdb.c:55-70 | Which error each error event is about |
| Callbacks.ResumesByFault | include/functions.h:166-178 | A live client is told success exactly when no fault stands, and the context's error becomes the fault once |
| Join.ForkJoined | src/servlets/functions/functions-vm.c:436-444 | Forking n > 0 children over any base establishes the join invariant |
| Join.JoinStep | src/servlets/functions/functions-vm.c:411-414 | A child that moves or exits keeps the invariant, for any base; 2 and 5 are instances |
| Join.JoinMeans | src/servlets/functions/functions-vm.c:665-668 | The parent is resumed at most once, exactly when no child is left, and its count then stands at the base |
| FullFetch.FullListing | src/servlets/functions/functions-vm.c:384-454 | Over every interleaving: one resume, exactly when all children have exited, with the count at 2, and the list is then a permutation of the VMs in the run's good answers; before that it lacks exactly those that a child still holds |
| FullFetch.ListingIsComplete | src/servlets/functions/functions-vm.c:384-454 | If every query can be created and is answered with a VM, the list at the end has one for each child |
| FullFetch.ExitedForAReason | src/servlets/functions/functions-vm.c:384-415 | A child exits only if its query could not be created or was answered |
| FullFetch.StuckForAReason | src/servlets/functions/functions-vm.c:384-415 | Only a query that failed in the database, or an answer with no VM and no error, leaves a child stuck |
| FullFetch.ListingEnds | src/servlets/functions/functions-vm.c:384-415 | A run stops only when every child has exited or is stuck, and the parent was then resumed if and only if none is stuck |
| FullFetch.ListingIsBounded | src/servlets/functions/functions-vm.c:384-415 | n children take at most 3n steps |
| FullFetch.NoChildren | src/servlets/functions/functions-vm.c:436-444 | With no children nothing happens and the parent is not resumed |
| FullFetch.SubCtx.PointerJob | src/servlets/functions/functions_cb.c:44-54 | The child gets its VM and its error, and its job is queued again |
| FullFetch.Listing.ForkAll | src/servlets/functions/functions-vm.c:425-445 | Nothing on an error, an immediate resume for no VMs, else the count goes from 1 to n + 2 with n queued children |
| FullFetch.Listing.GetVm | src/servlets/functions/functions-vm.c:384-415 | One run of a child: what it appends, whether it exits, and that the counter moves exactly when it does |
| FullFetch.Listing.TakeResult | src/servlets/functions/functions-vm.c:446-450 | The collected list is handed out and forgotten |
| VmUpdate.Context.Update | src/servlets/functions/functions-vm.c:538-669 | The switch with its fall-through does one job of the stage function, and the parent's counter moves exactly when the context is freed |
| VmUpdate.Context.Answer | src/servlets/functions/functions_cb.c:24-54 | The last answer of a stage queues the job; an empty result is an error unless one stands |
| VmUpdate.Context.SubExited | src/servlets/functions/functions-disk.c:136-141 | A sub-context's exit queues its parent's job exactly when the count comes down to 7 |
| VmUpdate.Parent.Forked | src/servlets/functions/functions-vm.c:692-702 | The count goes from 1 to n + 5 |
| VmUpdate.RunOk | src/servlets/functions/functions-vm.c:544-668 | Every stage keeps the poll-path invariant and uses up rank |
| VmUpdate.AnswerOk | src/servlets/functions/functions_cb.c:24-54 | The same of every answer |
| VmUpdate.SubExitOk | src/servlets/functions/functions-disk.c:136-141 | The same of every exit of a sub-context |
| VmUpdate.NestedJoin | src/servlets/functions/functions-vm.c:621-668 | On the poll path, over every interleaving: one resume, exactly when every VM has exited, with the count at 5; in every VM sub-contexts are forked at most once, stage 7 is entered at most once and only after all of them have exited, and then it is entered or its job is queued; a VM that has exited entered it exactly once if it had forked and not at all otherwise |
| VmUpdate.UpdateEnds | src/servlets/functions/functions-vm.c:538-669 | Every run is bounded, and when it cannot go on the parent was resumed if and only if no VM is stuck |
| VmUpdate.UpdateEndsAsLaunched | src/servlets/functions/functions-vm.c:623-644 | Where runs end if sub-contexts of some VMs never exit: every VM has exited, is stuck, or is one of these and waits |
| VmUpdate.InnerJoinIsExact | src/servlets/functions/functions-vm.c:538-669 | In every run the sub-contexts are forked at most once, stage 7 is entered at most once, only after all of them have exited and then surely, and none is waited for in vain, if and only if the VM came from a poller or is invalid or migrating; whether all sub-contexts can exit or only those launched with a query |
| VmUpdate.FoundKnown | src/servlets/functions/functions-vm.c:550-577 | The start of the failing run: a VM that was known before |
| VmUpdate.InnerJoinNeedsSix | src/servlets/functions/functions-vm.c:621-646 | From stage 6 on, the same of every run if and only if it is entered with the count at 6 |
| VmUpdate.ForkAtFive | src/servlets/functions/functions-vm.c:621-646 | From a count of 5: a run that waits for ever without a sub-context, and runs that enter stage 7 before the last one has exited |
| VmUpdate.WaysIntoStage6 | src/servlets/functions/functions-vm.c:610-622 | A user's call falls into stage 6 with the count at 5; a poller's waits first |
| VmConfig.ConfigCmp | src/servlets/functions/functions-vm.c:175-215 | 0 if and only if there is a second VM and its configuration is equal in all fifteen fields |
| VmConfig.MigratingIsMarked | src/servlets/functions/functions-vm.c:567 | A name counts as migrating if and only if the mark stands somewhere in it |
| VmRevisions.RevisionsAreDue | src/servlets/functions/functions-vm.c:544-661 | Over every interleaving, every VM past stage 7, and so every one that forked and has exited, has made exactly the queries of its script, in order, and one for a revision if and only if something was written or a sub-context asked for it; a VM under way waits for exactly its unanswered queries |
| VmRevisions.EveryVmArrives | src/servlets/functions/functions-vm.c:538-669 | A run without a failed, uncreated or wrongly empty query, in which nothing is left to happen, has brought every valid VM that is not migrating to stage 7 with all its queries made |
| VmRevisions.FreedForAReason | src/servlets/functions/functions-vm.c:544-668 | A VM freed before stage 7 was invalid or migrating, or a query of its own could not be created or had an empty answer other than the one that says that it exists |
| VmRevisions.SubsAreLaunched | src/servlets/functions/functions-vm.c:623-644 | Each time stage 6 is entered it launches one sub-context for each list that the VM has, and every one has exited or is still there |
| VmRevisions.StoredWasFound | src/servlets/functions/functions-vm.c:595-602 | The configuration that a VM is compared with is one that an answer brought for it |
| VmLists.ArriveKeepsAssembled | db_sources/mysql/zrpcdb_vm.c:451-505 | Either list arriving, first or second, keeps the assembly invariant |
| VmAssembly.ListAnswer | db_sources/mysql/zrpcdb_vm.c:451-505 | In every reachable state the VM's first list is kept, and its second hands the VM to the placeholder, the head or the result event |
| VmAssembly.DeliveredOnce | db_sources/mysql/zrpcdb_vm.c:451-541 | Over every run of the call engine and both orders: one delivery, exactly when both results are in; the earlier list is exact, the later one if and only if it is not empty |
| VmAssembly.FindsExactly | db_sources/mysql/zrpcdb_vm.c:514-541 | An answer finds a VM if and only if it is a good one with a row and no error stands |
| VmAssembly.WasFound | db_sources/mysql/zrpcdb_vm.c:509-541 | Every VM of a reachable state was found by an answer on the way |
| VmAssembly.BothListsAreSought | db_sources/mysql/zrpcdb_vm.c:535-540 | In every state reached after a VM was found, each of its lists has arrived, or exactly one unanswered query asks for it, or the answer was bad, or the query could not be created |
| VmAssembly.FoundIsDelivered | db_sources/mysql/zrpcdb_vm.c:451-541 | A VM that was found, both of whose list queries were created and answered well, has been handed on exactly once |
| Gate.CheckExistAndPrivs | include/servlets.h:100-132 | One pass of the macro on a context |
| Gate.GateAnswer | src/servlets/functions/functions_cb.c:64-82 | An answer of the gate's query is a database failure, or the head is told whether there was a row |
| Gate.RunKeepsInv | include/servlets.h:124-131 | Once the method's body has been entered, every later rewind passes without a query |
| Gate.GuardedFromZero | include/servlets.h:100-132 | Over every run from count 0: the body is first entered with count 0 and only for a super user or after two positive answers; a call that ends without it had a reason and was told a failure; one that is to run the gate again was rewound and resumed; at most two queries |
| Gate.FromElsewhere | include/servlets.h:111-121 | From every other count a run that breaks this |
| Gate.GateIsExact | include/servlets.h:100-132 | The gate guards its method in that sense over every run if and only if it starts with count 0 |
| PreCall.Session.PreCall | src/servlets/functions/functions-session.c:443-583 | One pass of the pre-call |
| PreCall.Session.Branch | src/servlets/functions/functions-session.c:455-580 | The branches in the order of the code reach the decision |
| PreCall.Session.Checker | src/servlets/functions/functions-session.c:103-130 | The timeout with its default, and the verdict on the session |
| PreCall.RewindSetsALatch | src/servlets/functions/functions-session.c:455-512 | A pass that comes back has set one more of the four latches and cleared none |
| PreCall.PreCallIsBoundedAndSafe | src/servlets/functions/functions-session.c:443-583 | At most five passes; an ordinary call goes on only with an authenticated session within the timeout, unless single sign-on accepted it |
| PreCall.VerdictIsExact | src/servlets/functions/functions-session.c:443-583 | In every run without failures, a call with a valid cookie goes on if and only if it is a login, a hello or a plain GET, a logout of an authenticated session, or the stored session of the run's third answer is authenticated and no older than 60 times the number of its fourth, or 900 without one |
| PreCall.VerdictWithoutCookie | src/servlets/functions/functions-session.c:469-500 | In every such run, a call without a valid cookie goes on if and only if it is a login, a hello or without content |
| PreCall.SingleSignOnDecides | src/servlets/functions/functions-session.c:318-417 | Over every run the client is trusted if and only if single sign-on accepted it, and then the call goes on; a query that failed in the database refuses the call |
| PreCall.FairStepExists | src/servlets/functions/functions-session.c:443-583 | A call that has not come to its end can go on without a failure |
| PreCall.ProxySettingNeeded | src/servlets/functions/functions-session.c:96-101 | The second pass of every call is refused if and only if the proxied setting had no row or the pass's query cannot be created |
| PreCall.LeavesContextTidy | src/servlets/functions/functions-session.c:263-281 | A call that needs a session goes on with checked and error cleared, with count 0 and the user's type that the database told, or, if single sign-on let it in, with count 5 and the user's type never set |
| Admission.GuardedAfterPreCall | src/servlets/functions/functions-session.c:443-583 | Behind the pre-call the gate guards its method over every run if and only if single sign-on did not let the call in, and then the session was authenticated and within its timeout and the gate goes by the user's type that the database told |
| Admission.AfterSingleSignOn | include/servlets.h:109-110 | A call that single sign-on let in is taken for a super user's, and enters the method at its first pass, with count 5 and without a query |
| Disks.ConfigCmp | src/servlets/functions/functions-disk.c:27-58 | 0 if and only if the two configurations are equal |
| Disks.Search | src/servlets/functions/functions-disk.c:165-176 | The first disk of the same path, or -1 exactly when there is none |
| Disks.AnyGone | src/servlets/functions/functions-disk.c:164-171 | Whether some stored path is not in the input |
| Disks.UpdateConfig | src/servlets/functions/functions-disk.c:144-207 | The flags raised and the disks created, for any two lists, and whether the sub-context is freed, stops, or goes on |
| Disks.StopsExactly | src/servlets/functions/functions-disk.c:155-192 | With distinct stored paths it stops if and only if there was nothing stored for the input, or the input is as long and differs without a new path; and then it has raised the flag |
| Disks.MissingBothWays | src/servlets/functions/functions-disk.c:162-180 | The pigeonhole: equally many paths are missing on both sides |
| Disks.ReconciliationIsExact | src/servlets/functions/functions-disk.c:152-193 | With distinct paths the flag is raised if and only if the lists give different configurations to the paths |
| Disks.CreatedDisks | src/servlets/functions/functions-disk.c:172-181 | As many disks are created as input paths are not stored, and then the flag is raised |
| Disks.MissingPaths | src/servlets/functions/functions-disk.c:172-181 | A path is created if and only if it is in the input and not stored |
| Disks.MissingInOrder | src/servlets/functions/functions-disk.c:172-181 | In the order of the input, disk by disk |
| Disks.ExactForDistinct | src/servlets/functions/functions-disk.c:162-180 | With distinct stored paths and any input of the same length, the flag is raised if and only if the lists differ, and whenever a disk is created |
| Disks.HidingHides | src/servlets/functions/functions-disk.c:164-184 | For every stored list with a repeated path, an input in which a disk to be created raises no flag |
| Disks.DistinctPathsDecide | src/servlets/functions/functions-disk.c:162-184 | Every disk to be created is noticed, and for lists of one length every difference, if and only if no path is stored twice |
| Disks.DuplicatePathGoesUnnoticed | src/servlets/functions/functions-disk.c:164-184 | The smallest case of this |
| Vlans.PrintVlans | db_sources/mysql/zrpcdb_network.c:151-156 | The printing loop builds the printed list |
| Vlans.DecimalDecodes | db_sources/mysql/zrpcdb_network.c:153 | Decimal printing is injective: it can be read back |
| Vlans.MatchesFirst | db_sources/mysql/zrpcdb_network.c:124 | The pattern matches a list at its whole first field or in the rest |
| Vlans.SearchFindsTheList | db_sources/mysql/zrpcdb_network.c:119-156 | For every list and every v, the printed list matches v's pattern if and only if v is in the list and not negative |
| Vlans.TrailingComma | db_sources/mysql/zrpcdb_network.c:151-156 | A negative last element leaves a trailing comma |

## Left out

- Sha1.Context.Update: takes the bytes as a sequence; a negative length, which makes the loop do nothing, and overlap of the buffer with the context are not modelled.
- Fips180.Sha1: FIPS 180-4 stops at 2^64 bits; beyond that the function continues with the length modulo 2^64, which is what the code writes.
- EngineState.Context.CallHead: cb_pointer_return and cb_int_return keep their value only when the method has named the function that is to get it; every CTX_VALUE_RETURN and CTX_INT_RETURN does, and the model keeps it always.
- Replies.AtMostOneReply: a reply is a resume by error_handler or by the non-pre branch of result_handler; the resumes of CTX_RETURN, of a child that resumes its parent without looking at the parent's latch (functions-vm.c, lines 412-413) and of the console handler's own rewind callback are not counted.
- Replies.DispatchIsQuiet: of a callback outside the first nine of functions_cb.c only the pop is part of the call; what else it does (queries, CTX_CB_ADD, NEXT_CB, its own fields, resumes of a live client) are further steps of the run, and it is taken not to resume a dead client.
- EngineRuns.DispatchConservation: a list query has one list element a row, and the freeing functions that handlers set are left out with the memory.
- Chains.ChainCounting: the context's own queries are exec queries; contexts that go on issuing queries while they count are not covered.
- FullFetch.FullListing: a child whose query fails in the database is stuck; the error handler would then take the parent context for a server module.
- VmUpdate.NestedJoin: fetching a stored VM counts as one answer (VmAssembly delivers it once), and a launched sub-context is one that exits exactly once, which those of a VM not known before, and a disk reconciliation that stops, never do (VmUpdate.UpdateEndsAsLaunched); answers that come after a context was freed are not modelled.
- VmUpdate.UpdateEnds: counts the exits of such sub-contexts among the steps that can still happen; UpdateEndsAsLaunched does not.
- VmAssembly.DeliveredOnce: a VM handed to a placeholder counts as delivered, although the code then drops it.
- Gate.CheckExistAndPrivs: a query that is refused because of its arguments and one that cannot be sent are one case (`created` is false); only the error code differs.
- PreCall.PreCallIsBoundedAndSafe: single sign-on is an outside decision (disabled, rejected or accepted), and a pass that returns failure ends the call.
- Disks.UpdateConfig: the first pass, with queries that can be created; what a sub-context that goes on does (the counting from 1000, writing the revision) is not modelled.
- Texts of queries and what the database does with them: each query is an id with an arbitrary answer.
- Memory, string sharing and the server, event and database libraries: values, sequences and primitives instead.
- Storage, network, console and interface variants of the joins: the same patterns again.
- Log messages, configuration files, modules, signals, processes, authentication back ends and random numbers.
