# Verification of jupynvim-core

A Dafny model of the backend of jupynvim: the widget store that mirrors a kernel's Jupyter widgets,
the runtime directories of a backend with their locks and their removal, the guard process that stops
a dead backend's kernels, and a few small parts around them.

Each function of the source that computes a value is a Dafny function, each algorithm that loops is a
method with its invariants, and each object that changes in place is a class whose methods are proved
equal to a function of the old state. The properties are proved about those functions, and about all
runs of the systems they form.

## The parts

**The widget store** (`Json`, `Attributes`, `OutputFold`, `WidgetStore`, `StoreObject`, `WidgetInvariants`,
`WidgetSteps`, `WidgetFlow`, `WidgetLinkSteps`, `WidgetEvents`, `WidgetEchoes`, `WidgetLifecycle`, `WidgetSystem`,
`WidgetLinks`, `WidgetRequests`, `WidgetRep`, `WidgetEffects`, `WidgetOpens`, `WidgetOutputs`, `WidgetReach`, `WidgetSlots`). An
attribute of a model is an entry: its JSON value, if it has
one, and the buffers whose path starts with its key; `Attributes` proves that the state object and the
buffer list of the source stand for such entries and that `merge_update`, path by path, is a per-key
override. `WidgetStore` has every operation of the store as a function, `StoreObject.Store` is the object
that does the same in place. `WidgetSystem` puts the store together with a kernel, two FIFO channels,
timers and a clock; a run is any sequence of frontend changes, deliveries, timers, kernel changes and
restarts, in any order. The main results are `WidgetSystem.Converges`, `NoChangeLost`,
`NoCaptureStranded` and `CadenceKept`, `WidgetOutputs.OutputsConverge`, `WidgetLinks.FrontendChangeSettles` and
`KernelChangeSettles`, and the save and restart results of `WidgetReach`. `WidgetRep.RepAfterAnyCalls` asks
nothing of the kernel: the representation invariant holds after any sequence of calls with any arguments, and
`StoreObject.Store.Valid` is that invariant, which every public method keeps. `WidgetEffects`,
`WidgetEchoes` and `WidgetOpens` say what single calls mean to the rest of the store and to the kernel.

The kernel of that system echoes exactly the attributes of each update it takes, with the values it then
holds (an Output widget's outputs as JSON), announces its own changes, may take another frontend's
updates, and never opens a comm id twice. Timers fire only when an effect armed them, any time after.
The hash tables list their members in an order that is an input of each call, and message ids come from
a supply that never repeats.

**Backend directories** (`BackendDirs`). Backends, sweeps and guards as actors whose steps are single calls
on the file system, interleaved in any way, with death possible between any two. A backend makes its lock
file within `STALE_NOLOCK_AGE` of its mkdir, locks work, names are never used twice, and nobody else
touches the files. `LiveDirKept` is the lock theorem; `CreateReturns` shows that a create left alone does return a dir;
`SweepRemovesUnheld`, `SweepRemovesOld`, `GuardRemovesUnheld`, `GuardRemovesClaimed` and `LeaveRemoves` show
that directories do go.

**Tree removal** (`TreeRemoval`). `clear_tree` with its explicit stack and its moves, over trees of any
shape in which any entry may be impossible to remove.

**Path walk** (`PathWalk`). `check_path_dirs` against pathname resolution as section 4.13 of POSIX.1-2017
describes it, defined by recursion on the pathname; and what it is for, over the file permissions of POSIX:
nobody but root and the own user can lead an accepted path elsewhere (`AcceptedIsSteady`).

**The guard** (`Decimal`, `Guard`). The lines on the pipe, the set on both sides of it, and the respawn limit.

**Cells, kernel specs, stderr** (`Sets`, `NotebookCells`, `KernelSpecs`, `StderrTail`).

## Where a promise of the source does not hold

- The slot of a buffer in a model's state is empty, except under the `outputs` of an Output widget:
  capturing output and `update_display` write the list without looking at the buffers.
  `WidgetSlots.CaptureFillsSlot` and `WidgetSlots.DisplayFillsSlot` are inputs that show it;
  `WidgetSlots.CaptureKeepsSlots` and `WidgetSlots.DisplayKeepsSlots` say, of the buffers and of what is
  written, exactly when each keeps the slots empty.
- A flush of an Output widget's outputs carries no buffer (`WidgetOutputs.FlushLeavesBuffers`), so the kernel's
  and the store's buffers there may differ: `WidgetOutputs.RestsApart` is a run at rest in which they do, and
  `WidgetOutputs.EchoedBuffers` says exactly when an echo of the flush brings them together. An expected echo
  of the outputs that holds no JSON value is never applied (`WidgetOutputs.BinaryOutputsKept`).
  `WidgetSystem.Converges` compares the JSON value of those outputs; `WidgetOutputs.OutputsConverge` has the
  buffers agree too, in every run that puts none there.
- A model that only a `transient` value names is saved, and the next save from the loaded block leaves it
  out (`WidgetReach.BookkeepingNames`); `WidgetReach.SavedAgainExactly` says exactly when the second block is
  the first.
- `same_pairs` misses a difference when its first list repeats a buffer (`Attributes.SamePairsMissesRepeats`);
  it can be trusted exactly when that list repeats none (`Attributes.SamePairsExactly`). `copy_attr` and
  `echo_changes` compare with it; the model compares the buffers of an attribute as sets, which is the same when
  neither list repeats one (`Attributes.SamePairsIsSameEntry`). So what is said of copies and echoes, and with
  them `WidgetLinks` and convergence, is about buffer lists without repeats, which merging lists without
  repeats keeps (`Attributes.MergeKeepsNoRepeats`).
- `load_saved` into a store whose models are in use can break the representation invariant;
  `WidgetRep.LoadKeepsRep` says exactly when it does not.
- `clear_tree` clears a tree of any depth up to `REMOVE_MAX_OPEN` times `REMOVE_MAX_PASSES`, and leaves
  entries untried exactly when the tree is deeper (`TreeRemoval.Removal.ClearTree`).
- A cell with an extra field named like a field of a cell does not read back as it was
  (`NotebookCells.CellRoundTrip` is an if-and-only-if).

## Model

| member | source | states |
|---|---|---|
| WidgetSystem.Converges | core/src/widgets.rs:866-984 | in every run, whenever both channels are empty, nothing is held and no capture waits, the connected models of the store are the kernel's and every attribute has the kernel's value (the outputs of an Output widget by the list that is sent) |
| WidgetOutputs.OutputsConverge | core/src/widgets.rs:678-697 | in a run in which no open, change, answer, frontend update or link copy puts a buffer under a widget's outputs, its slots there are empty throughout, and at rest neither side has a buffer there and the lists agree, transient apart |
| WidgetOutputs.RestsApart | core/src/widgets.rs:678-697 | a run at rest in which store and kernel have different buffers under an Output widget's outputs |
| WidgetOutputs.EchoedBuffers | core/src/widgets.rs:936-953 | an expected echo of the outputs, with nothing held and nothing waiting, leaves the store with its buffers exactly when they were the same or the lists differ in what is sent |
| WidgetOutputs.UnlinkedEchoedBuffers | core/src/widgets.rs:915-984 | ... and so does the whole call for a widget no link ends at |
| WidgetOutputs.FlushLeavesBuffers | core/src/widgets.rs:678-697 | a flush carries no buffers, and its plain echo leaves the store's as they are |
| WidgetOutputs.BinaryOutputsKept | core/src/widgets.rs:936-953 | an expected echo of the outputs without a JSON value changes nothing |
| WidgetRep.RepAfterAnyCalls | core/src/widgets.rs:260-431 | after any sequence of calls with any arguments (ids that are open already, changes that are not stripped, echoes of anything) the representation invariant holds: in-flight ids are exactly those the models wait for and are ours, changes are held only behind an update in flight, dead models have no traffic, capture lists are non-empty, duplicate-free and name live Output models, waiting captures have a flush in flight or a timer set, the link index is the inverse of the links, buffer slots are empty |
| WidgetRep.CallKeepsRep | core/src/widgets.rs:222-706 | each public operation keeps it; a timeout is one of an update the store armed a timer for, and a load replaces nothing in use |
| WidgetRep.CommOpenRep | core/src/widgets.rs:260-333 | opening a comm keeps it, also under the id of a model that is there with its traffic, captures and links |
| WidgetRep.KernelUpdateRep | core/src/widgets.rs:867-902 | so does any update of the kernel |
| WidgetRep.LoadKeepsRep | core/src/widgets.rs:222-256 | loading saved models keeps it exactly when none of them takes the place of a model that is waited for or captures |
| WidgetSystem.NoChangeLost | core/src/widgets.rs:1304-1334 | in every run the updates sent, overlaid in order, then the held ones, are the changes made, overlaid in order; held changes have an update in flight |
| WidgetSystem.NoCaptureStranded | core/src/widgets.rs:435-472 | a waiting capture belongs to a live Output model that has a flush in flight or a timer outstanding |
| WidgetSystem.SetFlagHasTimer | core/src/widgets.rs:562-584 | a set timer flag has an outstanding timer, so no flush is waited for in vain |
| WidgetSystem.OneOfEachInFlight | core/src/widgets.rs:678-697 | a model has at most one outputs flush and one update in flight |
| WidgetSystem.CadenceKept | core/src/widgets.rs:562-584 | a flush not forced by a request goes out at least OUTPUT_FLUSH after the model's flush before it |
| WidgetSystem.Preserved | core/src/widgets.rs:534-706 | every action of the frontend, the kernel, a timer or a restart keeps all invariants |
| WidgetLinks.PropagationSettles | core/src/widgets.rs:1202-1237 | a change of one attribute, as the merge left it, takes up each attribute at most once and makes at most two copies per link, so the step limit is not reached up to 5000 links; every link out of a changed attribute then has an equal far end, and nothing else changed |
| WidgetLinks.FrontendChangeSettles | core/src/widgets.rs:591-619 | when a frontend's change of one attribute returns, the model and everything its links lead to has the value, every link out of it agrees, and no other attribute changed |
| WidgetLinks.KernelChangeSettles | core/src/widgets.rs:867-902 | the same of a kernel's change, one that moves a capture included |
| WidgetLinks.CopyAttrSets | core/src/widgets.rs:1244-1298 | a copy happens exactly when the far end is connected, the near end has something and they differ; it gives the far end the near end's value and buffers with their slots empty, says so, and changes no other attribute |
| WidgetLinks.LinkApplies | core/src/widgets.rs:1182-1194 | a link that applies gives its connected target the source's value, and the source keeps it, the slots of buffers apart, whatever links go on from there |
| WidgetRequests.CapturesGo | core/src/widgets.rs:664-670 | every waiting capture with no flush in flight goes out as it stands, and none is left behind |
| WidgetRequests.UpdateGoesLast | core/src/widgets.rs:1055-1087 | an update goes out after a flush of every capture that could go out |
| WidgetRequests.CustomGoesLast | core/src/widgets.rs:623-643 | so does a custom message |
| WidgetReach.Reach | core/src/widgets.rs:705-743 | the walk lists each model once, and exactly those a path of references from a root reaches |
| WidgetReach.RefsAreNames | core/src/widgets.rs:1814-1833 | the references collected from a value are the models some string in it names, at any depth of items and fields |
| WidgetReach.RefsOfAreNames | core/src/widgets.rs:705-743 | a model refers to exactly the models its attributes' values name and, for an Output widget, those a display or a result in its outputs views |
| WidgetReach.Keep | core/src/widgets.rs:394-411 | the models kept are those reached and the links between two of them |
| WidgetReach.LinkBetweenIff | core/src/widgets.rs:762-784 | a link counts when it is of a link class and both its ends, read from its source and target, name kept models |
| WidgetReach.ExportSaved | core/src/widgets.rs:786-808 | the block has an entry for exactly the kept models, and there is none when nothing is reached |
| WidgetReach.SavedHolds | core/src/widgets.rs:1800-1811 | a saved entry has the model's names, every attribute's value (outputs without transient) and every buffer under its full path |
| WidgetReach.ResetAgreesWithSave | core/src/widgets.rs:386-431 | a reset prunes exactly what is neither reached nor a link between reached models, a save before and after it is the same, and a second reset prunes nothing |
| WidgetReach.SavedModelRoundTrip | core/src/widgets.rs:222-256 | a saved model loads back, dead and without transient, exactly when its buffers' slots are empty |
| WidgetReach.SavedBlockLoads | core/src/widgets.rs:222-256 | loading a whole block gives back every saved model |
| WidgetReach.SavedBlockRoundTrip | core/src/widgets.rs:1800-1811 | saving what was loaded from the same roots gives the same block when no transient value names a model |
| WidgetReach.SavedAgainExactly | core/src/widgets.rs:1723-1735 | ... and exactly when the references in transient values keep no further model |
| WidgetReach.BookkeepingNames | core/src/widgets.rs:1814-1833 | a model named only in a transient value is saved once and gone from the next save |
| WidgetReach.AttrsOfNoVoid | core/src/widgets.rs:1563-1574 | a state and its buffers never stand for an attribute that has neither |
| WidgetSlots.CaptureKeepsSlots | core/src/widgets.rs:450-462 | a captured event keeps the slots of an Output widget's buffers empty exactly when no buffer is the whole list and, for the list and the flag before it, what it writes leaves each slot: the text of the last output for a stream that joins it, a whole new output at the end (or at the start when a clear is pending) otherwise, nothing for a clear |
| WidgetSlots.RouteKeepsSlots | core/src/widgets.rs:435-472 | the same for a routed event and the model it goes to |
| WidgetSlots.CaptureFillsSlot | core/src/widgets.rs:450-462 | a buffer past the end of the list is one the next output fills |
| WidgetSlots.DisplayKeepsSlots | core/src/widgets.rs:476-529 | an update of a display keeps the slots of a model that shows it empty exactly when the new data and metadata leave the slot of each buffer inside an output shown |
| WidgetSlots.DisplayFillsSlot | core/src/widgets.rs:500-510 | a buffer for an image is one an update that brings the image as text fills |
| Attributes.MergeComposes | core/src/widgets.rs:1614-1640 | merging two updates in turn is merging their merge, so held changes may be joined |
| Attributes.StrippedIffSlotsEmpty | core/src/widgets.rs:1633-1636 | an attribute that was merged is one whose every buffer has an absent, null or unreachable slot |
| Attributes.MergeKeepsStripped | core/src/widgets.rs:1614-1640 | merging any update keeps every slot empty |
| Attributes.SamePairsIsEquality | core/src/widgets.rs:1889-1891 | when the first list repeats no buffer, the comparison of lengths and one inclusion is that the lists have the same length and the same buffers |
| Attributes.SamePairsMissesRepeats | core/src/widgets.rs:1889-1891 | for any first list with a repeat and any buffer not in it there is a second list with that buffer which it takes for the same |
| Attributes.SamePairsExactly | core/src/widgets.rs:1889-1891 | so the comparison can be trusted exactly when the first list repeats no buffer |
| Attributes.SamePairsIsSameEntry | core/src/widgets.rs:1244-1272 | of lists that repeat none, what copy_attr compares, the buffers under one attribute and those under another put under its name, is whether the two attributes have the same buffers |
| Attributes.MergeKeepsNoRepeats | core/src/widgets.rs:1614-1640 | merging lists that repeat no buffer gives one that repeats none |
| Attributes.Attributes.MergeUpdate | core/src/widgets.rs:1614-1640 | the in-place merge of a state object and a buffer list is the per-key override of the attributes they stand for |
| Attributes.Attributes.StripSlots | core/src/widgets.rs:1668-1680 | removing one path after the other empties all slots and nothing else |
| Json.StripEachIsStrip | core/src/widgets.rs:1682-1708 | the order in which nested slots are removed does not matter |
| Json.StripKeepsEmpty | core/src/widgets.rs:1682-1708 | removing slots changes nothing exactly when they are all empty |
| WidgetStore.OutputsMatchIsEquality | core/src/widgets.rs:1740-1767 | an echoed outputs list matches exactly when the kernel would be sent the same list |
| OutputFold.FoldersAgree | core/src/session.rs:455-543 | for every sequence of events the cell and the Output widget have the same outputs; their pending-clear flags differ exactly after a deferred clear followed by an immediate one, where the outputs are empty |
| OutputFold.AfterEvent | core/src/session.rs:455-543 | after any events, one more leaves in a cell and in an Output widget: an output with every field of the event in its place, read back with its kind, and no other field (transient exactly when it has a display_id); the text on the last output when that is the same stream; nothing earlier touched; everything gone first when a deferred clear is open |
| OutputFold.StreamsJoin | core/src/widgets.rs:1379-1395 | a run of stream events of one name is one output with their texts in order, the last one there if it is that stream |
| OutputFold.ApplyCaptured | core/src/widgets.rs:1360-1458 | the in-place fold of an Output widget leaves what AfterEvent says, is its specification, and says whether it cleared first |
| OutputFold.Cell.ApplyEvent | core/src/session.rs:455-599 | the in-place fold of a cell leaves what AfterEvent says, is its specification, and keeps the execution count |
| WidgetEffects.KernelUpdateMoves | core/src/widgets.rs:867-902 | a kernel update of an Output widget no link ends at gives it the attributes and changes no other model; if its msg_id is another one now, its capture moves from the old request to the new |
| WidgetEchoes.EchoTaken | core/src/widgets.rs:915-984 | what an echo makes of every attribute: of an older message, nothing; otherwise the expectation ends, and the attribute keeps its value when a newer change of it is held, and has the echoed one, slots empty, when none is; an Output widget's outputs keep theirs while a capture waits or when they are echoed as they would be sent; nothing else changes |
| WidgetEchoes.EchoTells | core/src/widgets.rs:968-984 | the frontend is told when a value changed, and of a change only; exactly so when the echo's slots are empty |
| WidgetEchoes.EchoChangeSettles | core/src/widgets.rs:978-983 | an echo that changes an attribute goes on along the links as any change does |
| StoreObject.Store.KernelEcho | core/src/widgets.rs:915-984 | the loop over an echo's keys does to the store what EchoTaken says of it |
| StoreObject.Store.FrontendUpdate | core/src/widgets.rs:591-619 | refused for a model that is not connected, else applied, sent or held, and followed along its links |
| StoreObject.Store.FrontendCustom | core/src/widgets.rs:623-643 | refused for a model that is not connected, else sent after the captures that wait |
| WidgetEffects.QueueHoldsOrSends | core/src/widgets.rs:1304-1334 | while a recent update is in flight a change joins what is held and nothing goes out; otherwise it goes out last in its call, merged with what was held, under a new id that is waited for, and an update too old to wait for is forgotten |
| StoreObject.Store.SendUpdate | core/src/widgets.rs:1055-1087 | captures go first, then one update whose echoes are expected, replacing the update in flight |
| WidgetEffects.ReleaseFrees | core/src/widgets.rs:1032-1050 | a message that is over is awaited by no model; if it was the current one of its model, what that held back goes out, as one update, after the captures, and nothing stays held; otherwise nothing goes out |
| WidgetEffects.IdleEnds | core/src/widgets.rs:534-552 | after an idle the message is neither ours nor awaited; the end of a flush leaves no capture that can go without a timer, the end of an update sends what it held back, and any other idle changes nothing |
| WidgetEffects.PacedFlushPaces | core/src/widgets.rs:562-584 | a capture that can go out does, in one message, when OUTPUT_FLUSH has passed since the flush before; until then exactly one timer is armed for the rest of that time, unless one is; nothing else changes |
| WidgetEffects.ArmedTimerSends | core/src/widgets.rs:562-584 | the timer so armed sends the capture when it fires, if no request sent it before |
| WidgetEffects.TimerPaces | core/src/widgets.rs:648-653 | after the timer fired, captures went out or a timer of this very call is armed, and no flag is left set without one |
| StoreObject.Store.FlushWaiting | core/src/widgets.rs:664-670 | the loop sends every waiting capture without a flush in flight, in the order listed |
| StoreObject.Store.SendOutputs | core/src/widgets.rs:678-697 | a flush carries the outputs without transient, is in flight and expected back |
| StoreObject.Store.RouteOutput | core/src/widgets.rs:435-472 | an event goes to the last live capturer, which waits and has its timer armed, or to nobody |
| StoreObject.Store.UpdateDisplay | core/src/widgets.rs:476-529 | every live Output widget that shows the display has it replaced, and waits |
| WidgetEffects.DisplayRedrawn | core/src/widgets.rs:476-529 | every connected Output widget has the data and metadata of each output that shows the display replaced, and waits if it has one; every other field, output, attribute, buffer and model is as it was |
| WidgetEffects.CaptureMoves | core/src/widgets.rs:990-1009 | the widget captures the new request's output and the old one's no more, every other capture is as it was, and what the old one took goes out when the cadence allows and is never left without a flush or a timer |
| WidgetOpens.OpenPlaces | core/src/widgets.rs:260-333 | an opened model is named by its state and has every attribute of the message, slots empty, and nothing on the way, in place of any model of its id; an Output widget with a msg_id captures; no other model changes |
| WidgetOpens.OpenLinks | core/src/widgets.rs:313-327 | an opened link model is on record with the ends its source and target say, two-way exactly for a LinkModel, and its connected target has what its source had |
| WidgetOpens.RetargetLinks | core/src/widgets.rs:1110-1131 | a change of a link model's source or target puts it on record with the ends it says then, or forgets it when it says none |
| WidgetOpens.RetargetApplies | core/src/widgets.rs:1166-1194 | ... and its connected target has what its source had, when no link ends at the link model |
| StoreObject.Store.CommOpen | core/src/widgets.rs:260-333 | the same in place: the loop applies the links that name the opened model |
| WidgetEffects.RefusalCloses | core/src/widgets.rs:268-284 | exactly one message goes out, a close of that comm under an id never used before, and nothing else changes |
| WidgetEffects.CloseForgets | core/src/widgets.rs:376-384 | a closed model is forgotten like a dropped one, and only a model that was there is told of |
| WidgetEffects.DropForgets | core/src/widgets.rs:1018-1028 | no model, waiting set, in-flight message, capture list, link or index list names a dropped model, and everything said of the others is as it was |
| StoreObject.Store.CopyAttr | core/src/widgets.rs:1244-1298 | a copy is applied and queued only when it differs and the far end is connected |
| StoreObject.Store.Propagate | core/src/widgets.rs:1202-1237 | the worklist loop is its specification and ends by (steps left, queue length) |
| StoreObject.Store.IndexLink | core/src/widgets.rs:1135-1144 | a link is indexed once under each of its ends, its old ends forgotten |
| StoreObject.Store.UnindexLink | core/src/widgets.rs:1147-1163 | a forgotten link leaves no empty list behind |
| StoreObject.Store.Reset | core/src/widgets.rs:394-431 | what is not kept is pruned, every other model disconnected, and all traffic forgotten |
| StoreObject.Store.LoadSaved | core/src/widgets.rs:222-256 | a missing block, another major version and a missing state are refused; every complete entry loads, incomplete ones are skipped, and the count is theirs; the invariant is kept exactly when no entry takes the place of a model in use |
| StoreObject.EntryLoads | core/src/widgets.rs:239-254 | a complete entry loads as a dead model of its names whose attributes are its values and buffers with the slots empty |
| StoreObject.EntrySkipped | core/src/widgets.rs:239-247 | an entry without a name or without a state does not load |
| BackendDirs.LiveDirKept | core/src/connfile.rs:1583-1634 | in every interleaving, from the return of create until its backend calls remove or dies, the dir is there, its lock file is the one held, and it holds exactly what its backend put in it |
| BackendDirs.Undisturbed | core/src/connfile.rs:1462-1495 | no step of anyone else changes a dir its backend counts as its own |
| BackendDirs.LostKept | core/src/connfile.rs:1346-1394 | a dir whose backend missed it (its lock was taken or it was too late) can never be counted as its own again |
| BackendDirs.Preserved | core/src/connfile.rs:2187-2254 | every step of backends, sweeps and guards keeps the invariant behind it |
| BackendDirs.OneRemover | core/src/connfile.rs:1346-1394 | no two actors clear a dir under the same lock file at once |
| BackendDirs.CreateReturns | core/src/connfile.rs:1583-1634 | a create left alone returns: from its mkdir to its last check every call is possible, and then it has the dir it made, linked and empty, with its own lock file in it, and holds the lock; no other dir and no other lock changes |
| BackendDirs.LeaveRemoves | core/src/connfile.rs:1796-1811 | a remove left alone opens its dir, finds its lock, clears, unlinks and removes it, and lets the lock go |
| BackendDirs.SweepRemovesUnheld | core/src/connfile.rs:1500-1505 | a sweep left alone can go its whole course, look, open the lock file, lock it, clear, unlink, rmdir, and then a dir whose lock nobody held is gone |
| BackendDirs.SweepRemovesOld | core/src/connfile.rs:2226-2247 | so can it for a dir with no lock file that is older than the age: it makes and locks one first |
| BackendDirs.GuardRemovesUnheld | core/src/connfile.rs:1523-1558 | a guard left alone removes a dir whose lock nobody holds |
| BackendDirs.GuardRemovesClaimed | core/src/connfile.rs:1523-1558 | ... and one without a lock file, of any age, once its backend is dead |
| BackendDirs.SecondTryRemoves | core/src/connfile.rs:1462-1495 | a removal that finds something in the dir at its rmdir lets the lock go, clears once more and removes the dir |
| TreeRemoval.Removal.ClearTree | core/src/connfile.rs:1135-1160 | what is kept is untouched; what is left holds every stuck entry once, the dirs above them and nothing else; the count is the number of stuck entries; never more than REMOVE_MAX_OPEN dirs are open; no entry is left untried exactly when no tree is higher than REMOVE_MAX_OPEN times REMOVE_MAX_PASSES |
| TreeRemoval.Removal.ClearPass | core/src/connfile.rs:1137-1158 | one pass keeps account of every stuck entry and lowers what is left to clear by REMOVE_MAX_OPEN |
| TreeRemoval.Removal.RemoveSubtree | core/src/connfile.rs:1186-1266 | an entry goes, or stays with just its stuck entries; dirs too deep are moved up, each REMOVE_MAX_OPEN lower, and the deepest one reaches that bound |
| TreeRemoval.LowerBound | core/src/connfile.rs:1137-1158 | the height of what a pass leaves is exactly REMOVE_MAX_OPEN less |
| TreeRemoval.EntrySums | core/src/connfile.rs:1149-1155 | handling one entry neither loses a stuck entry nor counts one twice |
| PathWalk.CheckPathDirs | core/src/connfile.rs:553-611 | the answer is that of the rules applied in order to what POSIX resolution sees, with the first objection named; when there is none every dir down to the end of the walk passes, and the end is where the path resolves |
| PathWalk.AcceptedIsSteady | core/src/connfile.rs:545-611 | on a path that is accepted, no user but root and the own one can rename or remove any dir or symlink that the resolution goes through |
| PathWalk.DirPassesIff | core/src/connfile.rs:273-289 | a dir passes exactly when nobody else can rename or remove what root or the own user has in it |
| PathWalk.LinkPassesIff | core/src/connfile.rs:291-298 | in a dir that passes, a symlink passes exactly when nobody else can replace it, if others can write to the dir at all; if they cannot, nobody can |
| PathWalk.MoreLinks | core/src/connfile.rs:575-590 | the limit on symlinks only refuses: it never changes where a path leads |
| PathWalk.ResolveJoined | core/src/connfile.rs:534-542 | a pathname resolves part by part |
| PathWalk.LinkSpliced | core/src/connfile.rs:586-596 | a symlink resolves as its contents put before the remaining pathname |
| PathWalk.TakePart | core/src/connfile.rs:566-609 | one round of the walk stops as the rules say, or takes one part or one symlink fewer |
| Guard.PrintedLineParses | core/src/guard.rs:57-71 | parse_line undoes the printed line for every group id above 1 |
| Guard.ParsesIff | core/src/guard.rs:57-71 | a line reads as a change exactly when it is the sign, a group id above 1 that fits in 32 bits, in decimal digits, and line ends |
| Guard.CutAnywhere | core/src/guard.rs:84-102 | a stream of lines cut at any byte reads as the fold of its complete lines |
| Guard.Serve | core/src/guard.rs:84-106 | the loop over the input computes that fold, and stops every group left but its own |
| Guard.State.Register | core/src/guard.rs:187-207 | a new group joins the set and is told to the guard; when none runs, one is started exactly when there is a dir, the limit allows it and the start works, and then has read the whole set if the write went through; a group that comes after finish is stopped at once |
| Guard.State.Unregister | core/src/guard.rs:242-246 | a group leaves the set and the guard's |
| Guard.State.MayRespawn | core/src/guard.rs:215-225 | a start is granted exactly when fewer than RESPAWN_MAX earlier ones lie within the window |
| Guard.State.SixStartsSpanMore | core/src/guard.rs:208-225 | of all the starts ever counted, any six in a row span more than the window, also those the list has forgotten |
| Guard.State.OnExit | core/src/guard.rs:230-240 | the exit of the current guard, and of no other, starts a new one within the limit |
| Guard.State.Spawn | core/src/guard.rs:303-333 | a new guard has read exactly the set, if the write went through |
| Guard.State.StartGuard | core/src/guard.rs:342-349 | the first start names the dir and starts a guard, which has read the set if the write went through; it counts as no respawn, and a second one does nothing |
| Guard.State.Finish | core/src/guard.rs:251-263 | every group but its own is stopped, and the guard's set is empty after |
| Guard.ReadsChange | core/src/guard.rs:201-202 | one more printed line on the stream is one more change of the guard's set |
| NotebookCells.LinesJoinBack | core/src/notebook.rs:266-275 | the lines of a source join back to it, each with one newline at its end, which only the last may lack |
| NotebookCells.LinesAreUnique | core/src/notebook.rs:266-275 | no other list of lines does |
| NotebookCells.CellRoundTrip | core/src/notebook.rs:183-263 | a written cell reads back as it was, but for outputs' transient and the outputs of cells that are not code, exactly when no extra field has a known name |
| NotebookCells.ParseThenPrintIsIdempotent | core/src/notebook.rs:183-263 | reading and writing any cell object again changes nothing more |
| NotebookCells.ParseCell | core/src/notebook.rs:183-232 | the reader refuses what is no object; of an object it takes a source that is a string as it is and one that is a list as its strings put together, the type (code for none and for an unknown one), a count in range, the id (a new one for none), outputs, metadata, and every other field |
| NotebookCells.ReadsOnce | core/src/notebook.rs:183-232 | that determines the cell |
| NotebookCells.SourceAsLines | core/src/notebook.rs:195-203 | a source reads the same as a string and as any list of strings that joins to it |
| NotebookCells.TextsSkip | core/src/notebook.rs:197-201 | what is no string in such a list does not count |
| NotebookCells.PrintCell | core/src/notebook.rs:234-263 | the writer's loop lets extra fields overwrite; with no extra field of a known name, the object has the type, id, metadata, the source as lines, and for a code cell the count or null and every output without transient only |
| KernelSpecs.Disambiguated | core/src/kernelspec.rs:276-307 | the key is one no kernel has, plain when free, numbered as last resort with no free number skipped |
| KernelSpecs.NumbersBounded | core/src/kernelspec.rs:300-306 | taken numbered keys are no more than the kernels, so the numbering ends |
| KernelSpecs.AddCondaKernels | core/src/kernelspec.rs:318-390 | no kernel is changed or lost, a new one is named by its key and runs a program no other runs, and every kernel and python of an environment ends up listed |
| KernelSpecs.AddEntry | core/src/kernelspec.rs:341-379 | a kernel of an environment is added, under a free key, exactly when its program is not listed: a plain python or python3 is the environment's own file, the rest of its command, its path, language and metadata are its own, and its display name starts with its own |
| KernelSpecs.ResolvedIs | core/src/kernelspec.rs:358-368 | only the first word of a command changes, and it becomes that program |
| KernelSpecs.EnvLabels | core/src/kernelspec.rs:180-211 | an environment is called by its name, by its project's too when the name is generic, and by its Pixi project |
| KernelSpecs.SynthesizeEnvKernel | core/src/kernelspec.rs:395-435 | the environment's python is listed after it, once; a kernel it adds runs that python with ipykernel and asks for its installation there |
| StderrTail.TailIsLongest | core/src/kernel.rs:217-226 | the tail is the longest end within the bound that starts on a character boundary, is valid UTF-8, and is at most three bytes short of it |
| StderrTail.TailIgnoresChunks | core/src/kernel.rs:217-226 | how the text was cut into chunks does not show in the tail |
| StderrTail.Tail.Push | core/src/kernel.rs:217-226 | each call keeps the tail of everything pushed so far |

## Left out

- The content of a Notify effect and the fields of a message header: an effect names its model only.
- The order of keys in JSON objects, of models in the saved block and of set members in a loop.
- JSON text, base64, UUIDs and dates: a buffer of the saved block is its bytes.
- `pair_up`, `parse_paths` and buffers with invalid paths: updates arrive as attributes.
- Links whose end is a link model, and the settling of changes of several attributes at once on link cycles: for those only termination is proved.
- Moving a capture when `msg_id` changes by an echo, a frontend change or a link copy: the source does not do it.
- WidgetSystem.Converges: compares the JSON value of an Output widget's outputs, not their buffers, because they can differ at rest (WidgetOutputs.RestsApart); WidgetOutputs.OutputsConverge says when they agree.
- WidgetRep.RepAfterAnyCalls: leaves the slots under an Output widget's outputs out, because a capture or an update of a display can fill them (WidgetSlots.CaptureKeepsSlots, WidgetSlots.DisplayKeepsSlots).
- WidgetLinks.PropagationSettles: starts from a value whose buffers' slots are empty, as every change is once it is merged; FrontendChangeSettles and KernelChangeSettles do not ask for it.
- WidgetLinks.CopyAttrSets: compares the buffers of the two ends as sets, which is what the lists compare when neither repeats one (Attributes.SamePairsIsSameEntry).
- `BackendDir::recreate` and `Runtime::new_kernel_dir`: they use a name again, which the lock theorem excludes.
- BackendDirs.LiveDirKept: a lock file whose unlink fails is left by its remover; the error is taken not to be EBUSY, ENOTEMPTY or EEXIST, which a rmdir alone gives.
- The pid rule for file systems where locking fails, NFS hidden files, modes and owners of backend dirs, access control lists.
- Listing errors in the middle of a removal, entries that vanish meanwhile, and moves or removals of empty dirs that fail: the tree is static.
- The five tries of `BackendDir::create`: an actor may try again any number of times.
- Decoding a guard line as UTF-8: a line that parses is ASCII, so one that does not decode never parses.
- Whether a signal to a process group succeeds: the groups signalled are stated, not the count.
- Unknown top-level notebook fields, reading and writing notebook files, and everything of a session but its output folding.
- Registered kernel directories and the contents of a kernel.json: what they hold is input.
- Sockets, process spawning, ports, tokio tasks, logging and the terminal graphics.
