# Verified model of the PS2 OHCI driver and the USB side dumper

The repository is an OHCI USB host-controller driver for the Playstation 2 (`portable-ohci-core.c`), the
local-memory allocator it keeps its descriptors and bounce buffers in (`portable-ohci-ps2.c`), and a request
dumper with a worker thread and a settings file (`side_dumper_core.c`, `side_dumper_procfs.c`). This project
models the parts where the driver shares linked structures with hardware or with other threads, and proves what
those parts are for. `dafny verify dfyconfig.toml` checks everything.

## How the model is laid out

The **interrupt tree** consists of 32 chains of endpoint descriptors that share their tails. `OhciTypes` has the
descriptor objects, `BitReverse` the bit-reversal (`ep_rev`) and interval rounding as loops against recursive
definitions, `LoadBalance` the greedy choice of a branch with its numeric bound, and `SlotOrder` the reason why
stepping through bit-reversed slot numbers by a data-dependent stride visits every insertion cell once.
`Schedule` says what it means that table and links implement one abstract list of entries ("slot s polls exactly the
endpoints whose branch is s modulo their interval, longer intervals first"). `Threading` and `Unthreading` prove the
pointer loops of `ep_link` and `ep_unlink` against inserting into and removing from that list; `InterruptTree`
puts them together with loads and the isochronous list in a class whose methods are the driver's operations.
`IsoLists` shows what this comes to while every interrupt endpoint has a period of at least two: all 32 chains end
in the same isochronous list, nothing is cut off, and each load is that of the endpoints polled. `TreeWitness` has
two short runs of the driver that end badly.

`AsyncList` is the **control or bulk list**: doubly linked, with the forward link of an unlinked endpoint left live.

`TdQueue` and `DoneList` are the **transfer-descriptor queues** as objects: filling through the dummy, sizes and
tiling of requests, reversing the done list while releasing halted endpoints, withdrawing requests, counting
descriptors off. `Pending` has all queues together: over any number of submissions each queue is the concatenation of
its pending requests' descriptors. `LateError` is about a request that fails and is withdrawn before the driver has
seen the error. `Completion` is the same life cycle as a step machine in which the controller retires, fails and hands
over descriptors between any two of the driver's loop iterations; `CompletionSteps` and `CompletionRuns` prove what
holds of all its runs. The machine's `Behind` and `Reversed` are what the object methods come to
(`DoneList.BehindLast`, `DoneList.ReverseDoneList`), and what `DoneList.ReverseDoneList` requires, that no two failed
descriptors on a list share a queue, is what the machine's invariant gives (`CompletionRuns.NewestError`): a failed
descriptor's queue stays halted until the pass.

`Removal` is the **two-list removal protocol** with frame parity, list enables and the start-of-frame interrupt.
`Endpoints` joins it with the control and bulk lists: which endpoints are in the chains, and what their states say.
`EndpointQueues` has the queues of all endpoints with the controller's done list, and `Scheduling` puts all three
together: chains, states and queues through submissions, the controller's retirements, releases, counting off,
withdrawals, freeing, frames and start-of-frame interrupts. `Scheduling.Fit` is the invariant every one of these
keeps, and `Scheduling.Scheduled` what it means: an endpoint with descriptors that is not to be deleted is on the
chain to which the head register leads.

`MemoryModel` is the **allocator** as functions on block lists, with the partition invariant; `LocalMem` is the
linked-cell implementation, each method of which equals the function. `Ownership` says who owns the allocated
blocks; `DriverMemory` puts the driver on the allocator, with every block obtained by `MemoryModel.Alloc` and given
back by `MemoryModel.Free` through all failure paths of submitting a request, and proves over all runs from the
loading of the driver that the used blocks are exactly the owned ones. `Submission` says which status a submission
gets, and when it is accepted.

`OhciTypes` and `Sequences` are shared: the descriptor objects, and sequences without repetition.

`DumpQueue` is the **worker queue** of the dumper as an interleaving machine; `Settings` is its **settings text**, the
parser as loops over a buffer.

Hardware registers are fields; the mapping between bus and virtual addresses is the identity; a spin-locked region
and an interrupt are atomic unless a module says otherwise. Every answer of the platform (memory regions, list
cells, frame changes, condition codes, bytes moved) is a parameter or a step.

## Where the code falls short

Five things one would expect of the code do not hold; the model keeps the code as it is and proves exactly when they do.

- Unlinking an interrupt endpoint takes its stride from the endpoint it has just stepped to, so it ends after the first
  visit behind another endpoint. It removes the endpoint from all chains if and only if, from the first such visit
  on, every slot reaches it through one and the same predecessor (`Unthreading.UnthreadInterrupt`). It fails for the
  second of two endpoints of periods 2 and 1 linked into an empty tree (`TreeWitness.UnlinkFails`). The comment above
  the function promises removal always. Even so no chain loses or repeats another endpoint
  (`InterruptTree.PolledAfterUnlink`): the endpoint stays exactly in the slots whose cell was not rewritten.
- A control request reserves a descriptor for every 4096 bytes of data but fills one for all of them. All
  reserved descriptors are filled if and only if there are at most 4096 bytes (`TdQueue.ControlFillsAll`).
- Freeing a device takes an endpoint off its chain only if its state is exactly ED_OPER. The endpoint strays, that is
  stays on its chain though its state denies it, if and only if it was operational with a pending removal
  (`Endpoints.FreeEd`, `Endpoints.Driver.InStepIff`).
  After submitting, withdrawing, freeing and one frame an endpoint is new but still on the chain the controller
  walks (`Endpoints.StaysChained`).
- An asynchronously withdrawn request is completed once for each descriptor it still had in the queue, so exactly once
  only if it had one (`DoneList.CallsPerDescriptor`).

- A request that fails on a descriptor before its last and is withdrawn is neither completed nor freed if the
  start-of-frame interrupt deals with the withdrawal before the reversing pass has seen the error: its descriptors are
  counted twice. The count comes to the length if and only if the request is not among those taken out
  (`LateError.WithdrawnFirst`), and always if the error is seen first (`LateError.NoticedFirst`); `LateError.Lost` is
  such a run. The head of the queue then stays in the queue if and only if what the request's last descriptor led to
  is still there (`DoneList.Release`).

Also: an interrupt endpoint of interval 1 that is linked after isochronous ones goes behind them, and linking
another isochronous endpoint then cuts it off (`TreeWitness.CutOff`). `InterruptTree.Tree.LinkIso` states exactly
what is cut off, `NothingCutOff` when nothing is, and `IsoLists` that nothing ever is without such endpoints.

## Model

| member | source | states |
|---|---|---|
| BitReverse.ReverseBits | portable-ohci-core.c:792-798 | the shift-and-or loop computes the recursive reversal `Rev` |
| BitReverse.RevMirrors | portable-ohci-core.c:786-790 | bit k of the reversed word is bit n-1-k of the word: the meaning of `Rev` |
| BitReverse.RevInvolution | portable-ohci-core.c:792-798 | reversing twice gives back every word below 2^n |
| BitReverse.BlockIsResidueClass | portable-ohci-core.c:786-798 | an aligned block of size 2^(n-j) is mapped exactly onto one residue class modulo 2^j, for all j <= n |
| BitReverse.RoundInterval | portable-ohci-core.c:777-784 | the result is the largest power of two that is at most the period and at most 32, and 1 for period 0 |
| LoadBalance.Balance | portable-ohci-core.c:761-773 | the branch is the residue of the first least loaded slot and exactly the slots of its class are charged |
| LoadBalance.ChargeSlots | portable-ohci-core.c:945-946 | stepping by the interval adds the (possibly negative) load to exactly the slots of the residue class |
| LoadBalance.PlaceKeepsEven | portable-ohci-core.c:761-773 | one placement keeps the minimum loads of sibling residue classes within one endpoint's load, at every level |
| LoadBalance.BalancingBound | portable-ohci-core.c:756-773 | after any run of links with loads at most L and any mix of intervals, no two slots differ by more than 5 L |
| SlotOrder.FinerClassIsBlock | portable-ohci-core.c:846-855 | two slots of a class share a finer residue exactly if their visit numbers share an aligned block |
| SlotOrder.VisitFinerClass | portable-ohci-core.c:846-855 | advancing by 2^(5-m) visits exactly the finer class of the current slot |
| SlotOrder.VisitedAll | portable-ohci-core.c:846-855 | when the loop ends every slot of the class has been visited |
| Schedule.ChainOfSlot | portable-ohci-core.c:846-855 | if table and links implement an entry list, the hardware's walk from any slot is finite, repeats nothing and visits exactly the entries serving the slot, longer intervals first |
| Threading.VisitSlot | portable-ohci-core.c:847-854 | one pass writes the one insertion cell of its slot, gives the new endpoint the same successor as every other pass, and returns the stride that skips exactly the slots now served |
| Threading.StrideVisitsBlock | portable-ohci-core.c:846-855 | the stride read off the last endpoint passed covers exactly the slots that share the written cell |
| Threading.ThreadEd | portable-ohci-core.c:846-855 | the whole loop turns an implementation of the list into one of the list with the endpoint inserted: no cycle, no missing slot |
| Unthreading.UnthreadInterrupt | portable-ohci-core.c:930-944 | the loop implements the list without the endpoint if and only if all visits from the first one behind another endpoint on have the same predecessor; clean or not, the walk from every slot then visits exactly the entries serving that slot, once and in order, with the endpoint gone if the cell leading to it was rewritten and in its place if not: no other endpoint is dropped or repeated |
| Unthreading.TouchedChains | portable-ohci-core.c:930-944 | rewritten are the cells of the slots visited before the first visit behind another endpoint, and of those in which that visit's predecessor is in front; every chain follows from that |
| Unthreading.CleanCases | portable-ohci-core.c:930-944 | it does when nothing, or one and the same endpoint, is in front in all slots |
| Unthreading.UnthreadEverywhere | portable-ohci-core.c:961-978 | the loop over all 32 slots removes the endpoint from every chain |
| InterruptTree.Tree.constructor | portable-ohci-core.c:1963-1975 | an empty table implements the empty list with no load |
| InterruptTree.Tree.LinkInterrupt | portable-ohci-core.c:839-859 | the schedule is the old one with the endpoint inserted in interval order behind its equals, the rounded interval, chosen branch and loads are as the balancer says, and the invariant holds |
| InterruptTree.Tree.ChainOfFrame | portable-ohci-core.c:839-881 | in every valid tree the walk of slot s polls exactly the endpoints with s mod interval = branch and the isochronous ones, without repetition, in schedule order, so intervals do not increase and equals stay in the order of linking |
| InterruptTree.Tree.LinkIso | portable-ohci-core.c:861-881 | the endpoint comes behind the last isochronous one, or at the end of all 32 chains; what stood behind is cut off, and the loads still count it |
| InterruptTree.Tree.NothingCutOff | portable-ohci-core.c:863-865 | linking an isochronous endpoint cuts nothing off if and only if there is none yet or the last one has no successor |
| InterruptTree.Tree.UnlinkInterrupt | portable-ohci-core.c:930-950 | loads and list lose exactly the endpoint; the chains implement the new list if and only if the schedule allows a clean unlink, and in any case hold what `UnthreadInterrupt` says of the old one; the endpoint's own link stays |
| InterruptTree.PolledAfterUnlink | portable-ohci-core.c:930-944 | after an unlink, clean or not, the walk of slot s polls every other endpoint with s mod interval = branch exactly once, in schedule order, and the unlinked one only where its cell was not rewritten |
| InterruptTree.Tree.UnlinkIso | portable-ohci-core.c:952-979 | the endpoint leaves all 32 chains and the isochronous list, whose tail and back links are mended |
| IsoLists.ChainShape | portable-ohci-core.c:839-881 | with interrupt periods of at least two, the chain of every slot is its interrupt endpoints, longer intervals first, and then one isochronous list, the same for all slots; its load is the sum of theirs |
| IsoLists.LinkInterrupt | portable-ohci-core.c:839-859 | keeps that shape, with nothing cut off, and leaves the isochronous list alone |
| IsoLists.LinkIso | portable-ohci-core.c:861-881 | keeps it and appends to the isochronous list |
| IsoLists.UnlinkIso | portable-ohci-core.c:952-979 | keeps it and takes exactly that endpoint from the list, whose order stays |
| IsoLists.UnlinkInterrupt | portable-ohci-core.c:930-950 | keeps it if and only if the schedule allows a clean unlink, and in any case every chain loses at most the endpoint; the isochronous list stays |
| TreeWitness.UnlinkFails | portable-ohci-core.c:930-944 | a run on an empty tree: endpoints of periods 2 and 1 are linked, and unlinking the second leaves chains that do not implement the schedule without it: slot 0 polls the first only, slot 1 leads to the unlinked one |
| TreeWitness.CutOff | portable-ohci-core.c:861-866 | a run on an empty tree: an endpoint of interval 1 linked between two isochronous ones is operational and charged but on no chain |
| AsyncList.List.Link | portable-ohci-core.c:814-837 | linking appends to the abstract list, both link directions agree with it, stale links elsewhere stay |
| AsyncList.List.Unlink | portable-ohci-core.c:901-928 | unlinking removes exactly that endpoint and leaves its own forward link alone |
| AsyncList.List.LinksEnd | portable-ohci-core.c:888-891 | from any endpoint ever linked, even one unlinked and stale, following the links ends, through ever later linked endpoints |
| AsyncList.List.RestOfList | portable-ohci-core.c:888-891 | from a linked endpoint the hardware sees exactly the rest of the list |
| TdQueue.Queue.constructor | portable-ohci-core.c:1014-1020 | a new endpoint's queue is empty and consists of its dummy |
| TdQueue.Fill | portable-ohci-core.c:1081-1113 | the old dummy joins the queue as the request's descriptor with the given job, the request's spare is the new dummy; an index beyond the length changes nothing |
| TdQueue.SubmitBulk | portable-ohci-core.c:1146-1159 | for every length, as many descriptors are filled as were reserved, in order, and what they do is what `BulkIsStages` says |
| TdQueue.SubmitInterrupt | portable-ohci-core.c:1161-1165 | one descriptor that does what `InterruptIsStage` says joins the queue |
| TdQueue.SubmitControl | portable-ohci-core.c:1167-1180 | the descriptors that join the queue are the stages of `ControlIsStages`, in order |
| TdQueue.ControlIsStages | portable-ohci-core.c:1167-1180 | the first job is SETUP with DATA0 and covers exactly the 8 bytes of the packet; the last moves nothing, carries DATA1 and runs against the direction of the request; what is between runs in the direction of the request and covers exactly the buffer, and is there exactly if there are data; a buffer at address 0 counts as none |
| TdQueue.InterruptIsStage | portable-ohci-core.c:1161-1165 | the one job runs in the direction of the endpoint, carries the given toggle, may come up short only when reading, and covers exactly the buffer |
| TdQueue.BulkIsStages | portable-ohci-core.c:1146-1159 | all jobs run in the direction of the request and together cover every byte of the buffer once and nothing else; only the last may be short without an error |
| TdQueue.BulkSizeIs | portable-ohci-core.c:487-490 | the reserved number, with division truncating as in C, is one per started page and one for an empty buffer |
| TdQueue.ControlFillsAll | portable-ohci-core.c:498-501 | the number filled equals the number reserved if and only if the data fit 4096 bytes |
| TdQueue.Rotation | portable-ohci-core.c:1091-1110 | after all are filled the queue has grown by exactly the request's array, the dummy belongs to no request, and the descriptors of both together are the same as before |
| Pending.NewSystem | portable-ohci-core.c:1014-1020 | new queues with dummies of their own are a system without pending requests |
| Pending.Submit | portable-ohci-core.c:1119-1192 | any request to any queue keeps: every queue is the concatenation of its pending requests' filled descriptors in order of submission, no descriptor belongs to two requests or to a request and a dummy; and the descriptors of all queues are those of before and the request's |
| TdQueue.JobsTile | portable-ohci-core.c:1146-1156 | every byte of a bulk buffer lies in exactly one descriptor's part |
| TdQueue.JobsFollow | portable-ohci-core.c:1146-1156 | the parts are consecutive, between 1 and 4096 bytes, and end with the buffer |
| TdQueue.BulkLengthExact | portable-ohci-core.c:1231-1247 | looking at finished descriptors in order leaves actual_length equal to the bytes moved, cut short anywhere, never more than the buffer |
| TdQueue.ControlLengthExact | portable-ohci-core.c:1231-1247 | for a control request it is the bytes of the data stage |
| DoneList.Release | portable-ohci-core.c:1272-1285 | a failed descriptor of a halted queue moves the head to what the last descriptor of its request leads to, counts the skipped ones and lifts the halt; the result is a queue if and only if that descriptor is queued or the dummy |
| DoneList.BehindLast | portable-ohci-core.c:1276-1280 | it is while the last descriptor itself is queued, and then exactly what is behind it stays |
| DoneList.ReverseDoneList | portable-ohci-core.c:1256-1292 | the done list comes back reversed, and every failed descriptor has released its queue exactly so, whatever was withdrawn before; other queues and counts stay |
| DoneList.RemoveAt | portable-ohci-core.c:1323-1339 | writing through the link that led to a descriptor removes exactly it; tail and flag bits stay |
| DoneList.DeleteFrom | portable-ohci-core.c:1314-1341 | the queue keeps exactly the descriptors of requests not withdrawn, in order; counts grow by those taken out; a request is freed exactly when its count comes to its length; completion calls are listed |
| DoneList.NotYetFreed | portable-ohci-core.c:1319-1327 | the pass never comes to a descriptor of a request it has freed, if no count and queued descriptors together pass the length |
| DoneList.KeptBelongs | portable-ohci-core.c:1319-1341 | what is kept are exactly the descriptors of requests not withdrawn |
| DoneList.CallsPerDescriptor | portable-ohci-core.c:1328-1336 | a request withdrawn without waiting is completed once per descriptor it had in the queue, any other not at all |
| DoneList.GoneCompletesNothing | portable-ohci-core.c:1405-1412 | no request of an endpoint that is new or to be deleted is ever completed |
| DoneList.CompletedAt | portable-ohci-core.c:1405-1412 | the requests the counting pass completes are, in the order of the list, those of the descriptors at which a count comes to its length, the request is not withdrawn and its endpoint is neither new nor to be deleted, and no others |
| DoneList.CompletedOnce | portable-ohci-core.c:1405-1412 | the pass completes no request twice |
| LateError.WithdrawnFirst | portable-ohci-core.c:1276-1281 | the withdrawal of a failed request is dealt with before its error is seen: it is completed or freed if and only if it is not taken out; else its count is too high by the descriptors taken out |
| LateError.NoticedFirst | portable-ohci-core.c:1276-1281 | the error is seen first: the count comes to the length and the request is freed, whatever is withdrawn |
| LateError.Lost | portable-ohci-core.c:1327-1327 | a run: a request of two pages fails on the first, is withdrawn, and ends with a count of three, not freed |
| CompletionSteps.ErrorSegment | portable-ohci-core.c:1276-1281 | of the request of an unreleased error nothing was cut before: its pending part reaches to its last descriptor |
| CompletionSteps.CutShape | portable-ohci-core.c:1276-1281 | moving the head behind the request's last descriptor leaves exactly the later requests' descriptors |
| CompletionRuns.StepKeepsInv | portable-ohci-core.c:1256-1427 | every step (submit, retire or fail, hand over, reverse one, count one) keeps: each queue together with the done lists is the pending requests' descriptors in order, counts match, errors sit where requests end |
| CompletionRuns.CompletionsInOrder | portable-ohci-core.c:1253-1254 | at every moment of every run the completions on an endpoint are the first submissions to it, in order, the rest is pending, and none completes twice |
| CompletionRuns.CompletesAtLastOrError | portable-ohci-core.c:1405-1412 | a request completes exactly when its last or a failed descriptor is counted, and its count never passes its length |
| CompletionRuns.ResumesAtNextRequest | portable-ohci-core.c:1276-1284 | a released queue starts with the first descriptor of the next pending request, or holds only the dummy |
| CompletionRuns.BusyMeansLinked | portable-ohci-core.c:562-563 | in every reachable state of the machine, whose link is a mark and which has no withdrawals, an endpoint with queued descriptors is marked linked, and a halted one has its failed descriptor on a list the driver will reverse; the chains themselves are in `Scheduling.Scheduled` |
| CompletionRuns.QuietMeansComplete | portable-ohci-core.c:1256-1427 | neither controller nor driver can move if and only if everything submitted has completed |
| CompletionRuns.RunsDry | portable-ohci-core.c:1256-1427 | without new submissions the number of further steps is bounded |
| CompletionRuns.QuietRunCompletesAll | portable-ohci-core.c:1256-1427 | a run that ends with nothing to do has completed exactly what was submitted, in order |
| Removal.WaitingList.Push | portable-ohci-core.c:1060-1062 | the endpoint is put in front of the list |
| Removal.Add | portable-ohci-core.c:1055-1072 | the endpoint joins the list of the current frame's parity, is skipped, the interrupt is enabled and its kind's list stopped |
| Removal.RemoveEd | portable-ohci-core.c:1049-1073 | an endpoint that waits already is not put on a list again; the invariant of lists, states, frames and enables is kept |
| Removal.Remover.OnOneList | portable-ohci-core.c:1053-1062 | an endpoint is on the two lists at most once in all |
| Removal.UnlinkUrb | portable-ohci-core.c:618-621 | withdrawing a request leaves its endpoint waiting with the deletion bit set |
| Removal.ProcessList | portable-ohci-core.c:1312-1358 | every endpoint of the list becomes new or may run again, and control and bulk endpoints among them are noticed |
| Removal.DelList | portable-ohci-core.c:1312-1366 | the list is empty afterwards, the other one untouched, and the control and bulk lists run again exactly if that one is empty |
| Removal.SofInterrupt | portable-ohci-core.c:1946-1957 | the list of the other parity is worked off, and the interrupt stays enabled exactly while something waits |
| Removal.DueIsOlder | portable-ohci-core.c:1946-1951 | what is worked off was put on the list in an earlier frame |
| Removal.ServeFrame | portable-ohci-core.c:1946-1957 | if every frame's interrupt is served, an endpoint waits for one frame only, and then both lists are empty and enabled |
| Endpoints.Submit | portable-ohci-core.c:562-563 | refused exactly while a removal is pending; else the endpoint is operational and in its chain afterwards; the chains have exactly the operational and the strayed endpoints |
| Endpoints.LeaveChain | portable-ohci-core.c:901-928 | an endpoint whose state is exactly ED_OPER leaves its chain and only it does |
| Endpoints.Driver.InStepIff | portable-ohci-core.c:562-563 | chains and states agree if and only if no endpoint has strayed |
| Endpoints.UnlinkUrb | portable-ohci-core.c:618-621 | withdrawing a request changes no chain, and no endpoint strays |
| Endpoints.FreeEd | portable-ohci-core.c:706-715 | the endpoint waits for deletion; it strays if and only if it was operational with a removal pending |
| Endpoints.SofInterrupt | portable-ohci-core.c:1946-1957 | working off the due list changes no chain, and no endpoint becomes operational or ceases to be one |
| Endpoints.StaysChained | portable-ohci-core.c:706-715 | a run from a new endpoint (submit, withdraw, free, next frame) that ends with the endpoint new, waiting nowhere, and on the chain from the head register |
| EndpointQueues.Accept | portable-ohci-core.c:1119-1192 | the request's descriptors join its endpoint's queue; all queues stay disjoint from each other and from the done list |
| EndpointQueues.DeleteAt | portable-ohci-core.c:1319-1341 | one queue keeps exactly the descriptors of requests that are not withdrawn, or none if all are to go, in their order; requests count what they lose, the calls are those of the asynchronously withdrawn ones in order; the other queues and the done list do not change |
| Scheduling.Scheduled | portable-ohci-core.c:562-566 | whenever the invariant holds, an endpoint with descriptors that is not to be deleted is in its chain, and the head register leads along that chain |
| Scheduling.Start | portable-ohci-core.c:1014-1020 | the invariant holds of new endpoints |
| Scheduling.Submit | portable-ohci-core.c:536-566 | a submission keeps it: dummy, link and descriptors; the endpoint is operational and its queue has grown, or the submission is refused because a removal is pending |
| Scheduling.Release | portable-ohci-core.c:1272-1285 | so does releasing a halted queue whose head stays in it; head, halt and count are what `DoneList.Release` says |
| Scheduling.Idle | portable-ohci-core.c:1415-1421 | so does unlinking, which happens exactly if the state is ED_OPER and the queue is empty |
| Scheduling.UnlinkUrb | portable-ohci-core.c:618-621 | so does withdrawing a request |
| Scheduling.FreeEd | portable-ohci-core.c:706-715 | so does freeing an endpoint, pending removal or not |
| Scheduling.DeleteDue | portable-ohci-core.c:1312-1341 | after the loop over the due endpoints each queue holds, in order, what it held but for descriptors of withdrawn requests, or nothing where the endpoint is to be deleted; every request has counted what it lost and is freed when that completes its count; the calls are those of the endpoints in list order; every endpoint is served |
| Scheduling.PlanFor | portable-ohci-core.c:1312-1341 | for whatever is due in a state of the invariant the queues' remainders and losses that `DeleteDue` and `SofInterrupt` speak of exist |
| Scheduling.SofInterrupt | portable-ohci-core.c:1946-1957 | so does the start-of-frame interrupt: when it is seen and enabled, due queues are left as `DeleteDue` says, the due list is empty, every due endpoint has its next state, and the interrupt stays enabled exactly if an endpoint still waits; otherwise nothing changes. Queues that are not due are not written |
| Scheduling.CountDoneList | portable-ohci-core.c:1377-1427 | so does the counting pass: every descriptor counts once for its request; those whose count reaches the length complete in list order unless withdrawn or of an endpoint that is new or to be deleted, which are freed only; exactly the operational endpoints with empty queues leave their chains |
| LocalMem.Allocator.GrowLocalMem | portable-ohci-ps2.c:91-131 | the linked lists after growing are those of `MemoryModel.Grow` |
| LocalMem.Allocator.AllocLocalMem | portable-ohci-ps2.c:182-246 | lists and result are those of `MemoryModel.Alloc`: first fit, tail split, one retry; when it asks for regions is said by the five rows on shortages |
| LocalMem.Allocator.FreeLocalMem | portable-ohci-ps2.c:140-181 | lists and result are those of `MemoryModel.Free`: merge with the block before, else to the front |
| MemoryModel.GrowKeepsPartition | portable-ohci-ps2.c:120-127 | growing by a region apart from the others keeps the partition |
| MemoryModel.AllocKeepsPartition | portable-ohci-ps2.c:182-246 | so does allocating: every byte of the regions stays in exactly one aligned block |
| MemoryModel.FreeKeepsPartition | portable-ohci-ps2.c:140-181 | so does freeing any address |
| MemoryModel.EmptyIsPartition | portable-ohci-ps2.c:46-51 | the state before the first call is a partition of nothing |
| MemoryModel.RunKeepsPartition | portable-ohci-ps2.c:91-246 | so does any run of grow, allocate and free calls |
| MemoryModel.AllocIsNew | portable-ohci-ps2.c:182-246 | a successful allocation hands out one block of the rounded size at an address no used block has, and leaves those alone |
| MemoryModel.TakenFromFirst | portable-ohci-ps2.c:197-229 | the block is the first free one that is large enough, or the end of it; its beginning stays free in its place, and the other free blocks stay in order |
| MemoryModel.BlocksAreDisjoint | portable-ohci-ps2.c:50-51 | in a partition no two blocks, free or used, share a byte |
| MemoryModel.TailIsLost | portable-ohci-ps2.c:212-220 | without a list cell for a split exactly the split-off tail is lost |
| MemoryModel.SplitAllocThenFree | portable-ohci-ps2.c:140-246 | AllocLocalMem that splits a block, followed by FreeLocalMem of the result, leaves exactly the lists from which it was split, whether or not it grew or was retried |
| MemoryModel.AllocThenFree | portable-ohci-ps2.c:140-246 | any successful AllocLocalMem followed by FreeLocalMem restores the used blocks, and the free bytes but for those of regions just granted |
| MemoryModel.AllocSucceeds | portable-ohci-ps2.c:187-246 | outside interrupts a request of at most 64K succeeds if and only if a block fits after the first growth or the retry's growth succeeds |
| MemoryModel.AllocInInterrupt | portable-ohci-ps2.c:190-194 | in an interrupt it never grows and succeeds exactly if a block fits |
| MemoryModel.NoNeedToGrow | portable-ohci-ps2.c:187-246 | without a noted shortage and with a free block of the rounded size no region is asked for and no shortage is noted |
| MemoryModel.ShortageSettled | portable-ohci-ps2.c:190-194 | outside interrupts an allocation that succeeds leaves no noted shortage, one that fails leaves one |
| MemoryModel.ShortageNoted | portable-ohci-ps2.c:236-245 | an allocation in an interrupt that finds no block notes a shortage, and regions stay |
| MemoryModel.ShortageAnswered | portable-ohci-ps2.c:190-194 | after a noted shortage the next allocation outside interrupts asks for one region first, and for a second only if it still finds no block |
| MemoryModel.AsksWhenShort | portable-ohci-ps2.c:187-246 | outside interrupts, without a noted shortage but with no block that is large enough, exactly one region is asked for |
| Ownership.AllocatedInv | portable-ohci-core.c:525-532 | giving a new block to an endpoint or request keeps: the allocated blocks are exactly the owned ones, none has two owners |
| Ownership.FilledInv | portable-ohci-core.c:1091-1110 | so does exchanging dummy and descriptor |
| Ownership.ReleasedInv | portable-ohci-core.c:123-141 | so does giving up everything of a request |
| Ownership.FreedInv | portable-ohci-core.c:1342-1346 | so does freeing an endpoint's dummy |
| Ownership.FillTds | portable-ohci-core.c:1119-1192 | the loop over the descriptors computes `FillAll` |
| Ownership.FillAllRotates | portable-ohci-core.c:1091-1110 | filling cnt descriptors shifts them through the dummy's place by one, all else stays |
| Ownership.ReleaseRestores | portable-ohci-core.c:525-556 | undoing a partly prepared request restores the state before it exactly |
| Ownership.CountIsDetermined | portable-ohci-core.c:123-141 | how many blocks are allocated depends on endpoints in use and live requests only |
| Ownership.NothingLeft | portable-ohci-core.c:123-141 | without endpoints and requests nothing is allocated |
| DriverMemory.ObtainKeeps | portable-ohci-ps2.c:182-246 | a block asked for while the platform grants or refuses regions: none, or one of the rounded size at an address no used block has; partition and supply are kept |
| DriverMemory.RemovePrivate | portable-ohci-core.c:123-141 | the loop over the request's descriptors, skipping those never allocated, and the two buffers are given back with `MemoryModel.Free`: `RmPriv` |
| DriverMemory.RmPrivKeepsTie | portable-ohci-core.c:123-141 | after it the used blocks of the memory are again exactly the owned ones, none lost and none given back twice |
| DriverMemory.AllocateTds | portable-ohci-core.c:525-532 | the loop allocates descriptors until one is refused: `AllocTds` |
| DriverMemory.Submit | portable-ohci-core.c:466-571 | the submission with its four ways to fail computes `SubmitUrb`, of which `Submission` says which status comes out and `SubmitKeeps` what becomes of the memory |
| DriverMemory.SubmitKeeps | portable-ohci-core.c:466-571 | whatever it comes to, used and owned blocks stay the same; a failure leaves at most a new endpoint's dummy, a success owns exactly the descriptors and buffers, the first being the old dummy |
| Submission.SubmitStatus | portable-ohci-core.c:466-571 | a request in use is invalid; a pending removal, or a refused dummy or descriptor, gives out of memory; then an endpoint that is gone gives invalid; otherwise the request is accepted if and only if every block asked for is obtained. In the first two cases nothing changes |
| Submission.EnoughRoom | portable-ohci-ps2.c:182-246 | with one free block that holds them all, any blocks asked for one after the other are all obtained, even in interrupts |
| Submission.GrantedWithin | portable-ohci-ps2.c:182-246 | so are blocks that fit into one region together, outside interrupts, if the platform grants one more region when asked |
| Submission.GrantedWhenever | portable-ohci-ps2.c:182-246 | so are blocks of at most a region each, however many, while two regions for each can be had |
| Submission.AcceptedWithRoom | portable-ohci-core.c:466-571 | a new request to an endpoint that is neither being removed nor gone is accepted when a free block holds its descriptors, its buffers and the dummy of a new endpoint |
| Submission.AcceptedWhenGranted | portable-ohci-core.c:466-571 | and outside interrupts when they fit into one region and the platform grants one for the asking |
| DriverMemory.CompleteFrees | portable-ohci-core.c:123-141 | a request that is returned is live no more, none of its blocks stays used, and all other owners keep theirs |
| DriverMemory.DeleteFrees | portable-ohci-core.c:1342-1349 | an endpoint that is dealt with is in use no more, its dummy is free, and all other owners keep their blocks |
| DriverMemory.BounceBytes | portable-ohci-ps2.c:320-335 | an aligned buffer's copy is a whole number of chunks, more than the buffer and at most one chunk more; another one is as long as the buffer |
| DriverMemory.RunKeepsTie | portable-ohci-core.c:123-141 | after any run of submissions, completions and deletions from the loading of the driver, with any answers of the platform, memory is a partition whose used blocks are exactly those of endpoints in use and live requests, one owner each, each at least as large as was asked for |
| DriverMemory.NothingLeaks | portable-ohci-core.c:433-438 | any two runs that end with the same endpoints in use and live requests end with the same number of used blocks |
| DriverMemory.EverythingReturned | portable-ohci-core.c:123-141 | after any run that ends without endpoints and requests every byte of the granted regions is free |
| DriverMemory.CopyBackFits | portable-ohci-ps2.c:369-377 | however much of a bulk request was moved, the bytes copied back fit the request's buffer and the block it has for a bounce buffer |
| DumpQueue.StepKeepsInv | side_dumper_core.c:177-226 | every step of producers, worker and shutdown keeps lock, semaphore count and item accounts |
| DumpQueue.NeverSeesEmpty | side_dumper_core.c:200-205 | when the worker looks at the list it is not empty: the error branch is unreachable |
| DumpQueue.InQueueOrder | side_dumper_core.c:187-223 | in every run items are processed in queue order, each is in exactly one place per queueing, and items are thrown away only when the worker is gone |
| DumpQueue.OneInside | side_dumper_core.c:856-860 | no two threads are inside the list lock |
| DumpQueue.NeverStuck | side_dumper_core.c:808-829 | while the list holds something, or a shutdown is on its way, some thread can go on |
| DumpQueue.Ends | side_dumper_core.c:808-829 | without new requests only boundedly many steps remain, so the shutdown finishes |
| Settings.EatDelimiters | side_dumper_procfs.c:57-65 | the loop stops at the first character that is no delimiter |
| Settings.WriteSettings | side_dumper_procfs.c:243-292 | the loop stores what the recursive parser stores, for any buffer |
| Settings.DeviceTable.Write | side_dumper_procfs.c:227-295 | only the device's entry changes, by the parse of the first 255 characters; an unknown device is refused |
| Settings.ParseIsFold | side_dumper_procfs.c:243-292 | well-formed text is a left-to-right update, whatever the buffer holds behind it |
| Settings.LastDecides | side_dumper_procfs.c:243-292 | of several settings of one key the last one counts |
| Settings.DumperStays | side_dumper_procfs.c:243-292 | no text changes the dumper function |
| Settings.KeyAlone | side_dumper_procfs.c:284-291 | a key that no digit follows ends the parsing and stores nothing |
| Settings.PrintedReads | side_dumper_procfs.c:190-195 | every printed 32-bit number is read back, with base 10 and with base 0 |
| Settings.HexLimit | side_dumper_procfs.c:268-277 | a limit written as 0x and hexadecimal digits is stored with its value, for every 32-bit value |
| Settings.HexSwitch | side_dumper_procfs.c:258-267 | a switch written so is stored as 0, and what follows is ignored |
| Settings.RoundTrip | side_dumper_procfs.c:190-195 | writing back the printed values and a newline restores all four for all 32-bit values |
| Settings.WriteBack | side_dumper_procfs.c:227-295 | writing the printed values and a newline of any 32-bit settings to a device stores them there, keeps its dumper function and all other devices, and reports the whole length |
| Settings.PrintedFits | side_dumper_procfs.c:229-230 | the printed values always fit the parser's buffer |
| Settings.WholeLineIsRefused | side_dumper_procfs.c:190-195 | writing back the whole printed line changes nothing, because of the words in front |

## Left out

- Completion: requests that are withdrawn; `DoneList` and `Removal` model withdrawing, and the completion machine assumes none.
- Completion: a completion handler that submits or withdraws requests; interrupt and isochronous requests that the driver submits again by itself; a control request of more than 4096 bytes, whose reserved and filled counts differ.
- Completion: a submission is one step there, so the controller does not act between the filling of two descriptors of one request.
- Isochronous transfer descriptors: their packet status words, frame numbers and error codes.
- TdQueue: the device's data-toggle bits; which toggle the first descriptor uses is a parameter.
- DoneList.DeleteFrom: the update of actual_length for descriptors the controller had touched, and device use counts.
- Scheduling.CountDoneList: the condition code handed to the completed request; it is one step there, `Completion` has the controller act in between.
- InterruptTree: the first isochronous endpoint goes through the same loop as an interrupt endpoint of interval 1; the driver has a second loop whose test and writes coincide with it there.
- InterruptTree.Tree.UnlinkIso: the loop of other platforms, which takes its stride from the chain; the 32-slot loop of the PS2 is the one modelled.
- Removal: the wait loop of a withdrawal inside an interrupt, which polls the frame number for two frames; sleeping and waking of callers.
- Endpoints.FreeEd: one endpoint at a time; the driver does it for all endpoints of a device.
- Endpoints: interrupt and isochronous endpoints, whose unlinking need not succeed; they are in `InterruptTree`. For them what `Scheduling.Scheduled` says is false: `TreeWitness.CutOff` ends with an operational endpoint on no chain.
- Scheduling.Submit: an endpoint that has strayed; its device is being freed, and nothing is submitted to it.
- Scheduling.SofInterrupt: the driver empties an endpoint's queue and sets its state in one iteration; here all due queues come first and then all states. Completion handlers called from there submit nothing.
- Scheduling.Release: a release whose head does not stay in its queue; `DoneList.Release` says when that is.
- Pending: descriptors that leave the queues; `EndpointQueues` has them without the order among requests, `Completion` with it on values.
- BitReverse.RoundInterval: negative periods, which the driver treats like 0.
- LocalMem: the moment in a split when the lock is released to get a list cell; an allocation is one step.
- MemoryModel: what happens to local_mems when a seventeenth region is asked for; the test there lets it through, and only the lists are modelled.
- MemoryModel.AllocKeepsPartition: at least one byte is asked for, and the list cell of a split can be had; what is lost otherwise is TailIsLost.
- Ownership: the private parts and list cells of the kernel's own heap; the copies into and out of bounce buffers.
- DriverMemory.Submit: ep_add_ed and the later locked part are one step, and what another thread did to the endpoint in between is a parameter; the early returns of ep_add_ed leave the lock held. The kernel's allocation of the private part succeeds; requests to the root hub or to a disabled controller are not modelled. List cells for splits can always be had.
- DriverMemory: the regions the platform grants are distinct and come in a fixed order, each possibly refused any number of times; isochronous requests, whose descriptor number is the packet count.
- DumpQueue: producers that still add items while the shutdown empties the list, which the driver does without the lock, do so between two removals, not during one.
- Settings: simple_strtoul is the kernel's and is not part of the repository; a parser that runs off the end of its 256-byte buffer stops there.
- Root hub, power management, module loading, register access, cache flushing, endianness, debug printing and the dump text itself.
