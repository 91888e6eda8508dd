# Verified model of the replicated text engine

shario keeps one text file in step on several machines. Every character is a node of a tree: it has
an identity `(id, peer)`, a parent identity and a tombstone flag. The live nodes are also kept as
rows of identities that are patched in place by every insert and remove. A queue in front of the
file numbers local characters, holds back operations that arrive too early, and tells editors and
peers what happened through callbacks. An editor keeps a mirror of the document and names characters
by identity or, before they are confirmed, by its own tag.

This project models those layers in Dafny and proves what they promise, for every input and every
run, and states exactly where a promise needs a condition.

## How the project is laid out

| file | content |
|---|---|
| `Types.dfy`, `Lists.dfy` | identities, relations, operations; inserting into and erasing from lists |
| `CharTree.dfy` | the tree of parent pointers, paths and preorder |
| `Document.dfy` | one document with its rows laid end to end: tie-break scan, tombstone climb, line breaks, removes |
| `Shape.dfy` | well-formedness, and exactly which inserts keep it |
| `TreeOrder.dfy`, `Walk.dfy`, `Agreement.dfy` | the list against the preorder walk of the tree; exactly when two replicas agree |
| `Climb.dfy`, `Commute.dfy` | what a climb walks past; siblings, line breaks, different live parents, removes: which of them commute |
| `InsertInsert.dfy`, `InsertRemove.dfy` | exactly which two inserts commute, and which insert and remove |
| `Rows.dfy`, `SharFile.dfy`, `Loading.dfy` | rows against the flat list; the class `SharFile` that patches rows in place; loading a text |
| `Queue.dfy`, `QueueSafety.dfy`, `Callbacks.dfy`, `SharQueue.dfy` | the queue as a state machine, what every operation keeps, what holds at each callback, and the class `SharQueue` |
| `Delivery.dfy`, `Convergence.dfy`, `Hydration.dfy` | remote operations in any order; converging and diverging sets; state transfer as a join |
| `Orders.dfy`, `EveryOrder.dfy`, `Confluence.dfy`, `AnyFile.dfy` | filling a tree in, parents first; exactly which sets of inserts show one document in every order, onto an empty file and onto any file |
| `Replay.dfy`, `EditorReplay.dfy`, `MissedRemove.dfy` | in which order what had to wait is replayed; removes that come before their target |
| `EditorDelivery.dfy`, `Broadcast.dfy`, `Mesh.dfy` | editor inserts in any order; from one replica's editor to its peers; any number of replicas that type and receive interleaved |
| `Protocol.dfy`, `ProtocolSafety.dfy` | one editor and the server over channels with any delay |
| `Lines.dfy`, `DocMirror.dfy`, `SyncMirror.dfy` | the editor's lines; the asynchronous and the in-process mirror |

Code that changes state is a class or a method, proved equal to a function on values; the properties
are lemmas about those functions. `SharFile` and `SharQueue` hold the fields of the Rust structs,
`DocMirror` holds shared cells that a confirmation fills in place.

## Conditions that recur

- *Anchored*: an insert under a tombstone is not a line break, and its climb does not end in front
  of the sentinel. `Shape.AddKeepsWellFormedIff` shows that this is exactly what keeps the rows in
  order: a climb that meets the sentinel returns the place in front of it
  (`src/shar/core/tree.rs:282-285`), and a line break under a tombstone puts the tail of the split
  row above its head (`src/shar/core/tree.rs:108-122`).
- *In place*: only ordinary characters that hang from the newcomer's own ancestors belong between its
  nearest live ancestor and it. `TreeOrder.AddIsFaithfulIff` shows that this is exactly when the
  incremental list stays the walk of the tree. *Clean* is a condition on the tree alone that implies it.
- Convergence without a condition is false of the code: `Convergence.ConcurrentTypingDiverges` and
  `Convergence.NewlineUnderTombstoneDiverges` give two orders of the same operations that end with
  the same tree and different documents. The exact conditions are these.
  - Inserts only: a run ends with the walk if and only if every insert was in place
    (`Agreement.AddsFaithfulIff`), so next to a replica whose inserts were in place another one shows the
    same document if and only if its inserts were too (`Agreement.AddsConvergeIff`). `RunInPlace` reads the
    tree as it is before each insert, and `AllClean` the final tree, so a caller can check either beforehand.
  - With removes: a run ends with the walk if and only if it *settles*, that is, no insert that
    survives was put on the wrong side of anything that survives (`Agreement.RunEndsFaithfulIff`,
    `Agreement.ConvergeIff`). This is exact, but `RunSettles` speaks of the slot of each insert and of
    who survives the finished run: it describes a run and is no check that a caller could make before it.
  - Sets of inserts: onto any well-formed file, a causally closed and anchored set shows one document
    in every delivery order if and only if, at every state on the way, any two newcomers that can come
    next go to opposite sides of each other (`AnyFile.OneDocumentFromAnyFileIff`), which
    `InsertInsert.InsertInsertCommuteIff` shows to be exactly when the two commute. Onto a file that
    holds only the sentinel this is the condition on the tree that each insert is clean
    (`AnyFile.CommutingIsClean`, `EveryOrder.OneDocumentIff`).
  - Sets with removes are not characterised by either condition: a remove can take away the one node
    that an order misplaces, so that a set that is not clean shows one document all the same
    (`EveryOrder.RemoveHidesDisorder`).

## Where the code and its comments differ

A remove that comes before its target waits with the network operations, also when the editor asked
for it (`src/shar/core/queue.rs:452-461`), and is meant to be drained once the matching insert arrives
(`src/shar/core/queue.rs:402-404`). A remote insert does that, but the remove is then reported as a remote
one, so the peers are never told (`MissedRemove.MissedRemoveTakesEffect`). The editor's own insert does not
drain it: a character that is deleted while its own insert waits for its parent is shown once it lands, and
the remove waits for good (`MissedRemove.OwnRemoveIsStuck`, `MissedRemove.StuckForGood`).

## Model

| member | source | states |
|---|---|---|
| Shape.AddKeepsWellFormedIff | src/shar/core/tree.rs:349-458 | an insert that lands leaves the document well-formed (sentinel first, each live identity once, no character before a live ancestor) if and only if it is anchored |
| Shape.RemoveKeepsWellFormed | src/shar/core/queue.rs:423-465 | every remove that passes the queue, whose guard leaves the sentinel alone, keeps the document well-formed, whatever its target |
| Shape.RunKeepsWellFormed | src/shar/core/tree.rs:349-544 | over any run of anchored inserts and removes the document stays well-formed, survivors keep their order, nothing recorded is forgotten and nothing removed comes back |
| Document.StartFollowsHome | src/shar/core/tree.rs:255-341 | the climb from a tombstone ends behind its nearest live ancestor with no line break in between, or at the very front when it falls through the sentinel |
| Climb.ClimbRuns | src/shar/core/tree.rs:255-449 | what lies between the nearest live ancestor and an anchored character splits into consecutive maximal runs, one per link from the top, each of children of the upper node that outrank the lower one; every link past the first is a tombstone that hangs from the one before it |
| TreeOrder.AddIsFaithfulIff | src/shar/core/tree.rs:349-458 | the list stays the outranking-order preorder of the tree if and only if the insert lands in place |
| TreeOrder.RunIsFaithfulIff | src/shar/core/tree.rs:349-544 | over any run, with removes anywhere, the list equals the walk after every step if and only if every insert that lands does so in place |
| TreeOrder.Convergence | src/shar/core/tree.rs:34-38 | if two replicas reach one tree by in-place runs, they have the same document (that in-place inserts are needed too is `Agreement.AddsConvergeIff`) |
| Agreement.AddsFaithfulIff | src/shar/core/tree.rs:349-458 | a run of anchored inserts ends with the walk of the tree if and only if each of them landed in place: what stands against the order is never put right |
| Agreement.AddsConvergeIff | src/shar/core/tree.rs:34-38 | of two replicas that end with one tree, one by in-place inserts, the other, after any run of anchored inserts, has the same document if and only if its inserts were in place |
| Agreement.RunEndsFaithfulIff | src/shar/core/tree.rs:349-544 | a run of anchored inserts and any removes ends with the walk if and only if no surviving insert was put on the wrong side of a survivor |
| Agreement.ConvergeIff | src/shar/core/tree.rs:34-38 | of two replicas that end with one tree, one of them showing its walk, the other has the same document if and only if its run settles, removes included |
| Walk.FaithfulIsWalk | src/shar/core/tree.rs:404-449 | the in-order list is exactly the recursive preorder walk from the sentinel, siblings by larger id then smaller peer, tombstones left out |
| Commute.SiblingsCommute | src/shar/core/tree.rs:396-449 | two ordinary characters under one parent, live or tombstoned, land in the same places in either order, from any well-formed state |
| Commute.SiblingsAnyOrder | src/tests/tree_test.rs:74-182 | any finite set of ordinary characters under one parent gives the same document in every delivery order |
| Commute.BreakNeverCommutes | src/shar/core/tree.rs:386-388 | a line break and any other newcomer under one live parent, a second line break included, never commute: whichever comes second is listed in front |
| Commute.InsertsCommuteIff | src/shar/core/tree.rs:349-458 | inserts under two different live parents, line breaks included, commute if and only if the tie-break carries neither past the other's parent, which takes a parent that is an outranking sibling of the newcomer |
| InsertInsert.InsertInsertCommuteIff | src/shar/core/tree.rs:349-458 | two anchored inserts, under any parents, live or tombstoned, line breaks or not, commute if and only if, seen from each, the other goes to the opposite side: no tie-break on either climb is stopped by the other newcomer, and both orders decide a tie alike |
| Commute.RemovesAnyOrder | src/shar/core/tree.rs:469-544 | removes in any order and with any repeats tombstone their targets, take them off the list and do nothing else |
| InsertRemove.InsertRemoveCommuteIff | src/shar/core/tree.rs:349-544 | an anchored insert and the remove of any other shown character commute if and only if: removing the nearest live ancestor, a climb from it ends where it stood and the newcomer is no line break; removing another, it is not the one that stops the tie-break of the newcomer or of a tombstone it climbs from, with an elder sibling behind |
| InsertRemove.LiveParentCommuteIff | src/shar/core/tree.rs:349-544 | under a live parent that stays: they commute unless the removed character stands right where the newcomer goes and the one behind it is a sibling that outranks the newcomer |
| InsertRemove.RemoveTakesBack | src/shar/core/tree.rs:349-544 | removing what was just inserted gives the list back and leaves a tombstone |
| Rows.RowsUnique | src/shar/core/tree.rs:101-123 | a flat list has one division into rows that break exactly before its line breaks |
| SharFileModule.SameDocumentSameRows | src/shar/core/tree.rs:34-38 | two files that hold the same document have the same rows, so they compare equal |
| SharFileModule.HintFree | src/shar/core/tree.rs:162-250 | on a well-formed file two searches with any two hints give the same answer: the one position of a live identity, an error for any other |
| SharFileModule.FindsNearest | src/shar/core/tree.rs:178-250 | what the search answers is in a row at least as near to the hint as any other row that lists the identity, a hint beyond the last row counting as row 0 |
| SharFileModule.SharFile.FindCrdt | src/shar/core/tree.rs:162-250 | the outward search ends, for every hint, with the first place in the nearest row that lists the identity, or with an error exactly when no row does |
| SharFileModule.RowScanIsScan | src/shar/core/tree.rs:404-449 | the tie-break scan of one row ends where the scan of the whole list ends, so it never has to leave its row |
| SharFileModule.ScanRow | src/shar/core/tree.rs:404-449 | the tie-break loop always finds a place, the one that the scan of the row gives; its fall-through is not reached |
| SharFileModule.SharFile.FindTombstone | src/shar/core/tree.rs:255-341 | the recursive climb terminates and returns the place where the tombstone's children start |
| SharFileModule.SharFile.AddLineToProjection | src/shar/core/tree.rs:101-123 | the row is cut behind a live parent, or at the given place with the tail above the head for a tombstoned one |
| SharFileModule.HeadFirstInserts | src/shar/core/tree.rs:101-123 | cutting a row behind a live parent inserts the line break into the flat list at the cut and moves nothing |
| SharFileModule.TailFirstDisplaces | src/shar/core/tree.rs:108-122 | cutting at a tombstone moves the head of the row behind its tail |
| SharFileModule.SharFile.AddCrdt | src/shar/core/tree.rs:349-458 | the three outcomes (parent missing, applied before, inserted), the new map, rows and reported position, anchored or not, whatever the hint: the flat insert cut into rows with the newcomer at the position, or, for a line break under a tombstone, the cut row with the newcomer heading its tail and the position on the row below; the file stays valid if and only if an insert that lands is anchored |
| SharFileModule.LineBreakHeadsRow | src/shar/core/tree.rs:11-16 | under a live parent a newcomer heads a row if and only if it is one of the seven characters listed, and is then right behind its parent whatever siblings there are |
| SharFileModule.SharFile.RemoveCrdt | src/shar/core/tree.rs:469-544 | the three outcomes, the target tombstoned and taken off the rows, rows merged for a line break, whatever the hint; the file stays valid unless the target is the sentinel, which goes off the list like any other |
| SharFileModule.PredecessorInList | src/shar/core/tree.rs:143-158 | the predecessor reported to editors is the element just before in the flat list, across row boundaries |
| SharFileModule.SharFile.AddFile | src/shar/core/tree.rs:73-98 | loading gives a valid file, the chain of the text, and advances the counter by its length |
| SharFileModule.ChainReadsBack | src/shar/core/tree.rs:73-98 | loaded ids are consecutive and each character hangs from the one before it |
| Loading.LoadedReadsBack | src/shar/core/tree.rs:558-567 | reading a loaded file row by row gives the sentinel and exactly the text, with a row starting at each of the seven line break characters and nowhere else |
| Loading.LoadAndRead | src/shar/core/tree.rs:73-98 | a new file that has loaded a text gives its readers the sentinel and the text |
| Queue.NetLandPending | src/shar/core/queue.rs:330-400 | one remote insert leaves the number of pending operations alone or adds itself to it; releasing dependants loses and makes none |
| Queue.IdeLandPending | src/shar/core/queue.rs:217-298 | the same for one editor insert over both backlogs and the worklist |
| QueueSafety.ServeKeeps | src/shar/core/queue.rs:183-521 | over every run of local and remote inserts and removes, through all drains: no recorded id exceeds the counter, and after each request, while inserts are anchored, the document is well-formed and equals a list that only inserts behind the named identity or deletes it on each callback |
| QueueSafety.ServesCompose | src/shar/core/queue.rs:183-521 | a run goes through every request, one after the other |
| Callbacks.ServeTrail | src/shar/core/queue.rs:183-521 | the same equality at every state that a run passes through, in the middle of drains too, and from one state to the next at most one callback fires |
| Callbacks.EachCallbackInSync | src/shar/core/queue.rs:274-280 | after each callback of a run there is a state at which exactly the callbacks up to that one have fired, and the list they have built is the server's |
| QueueSafety.LocalAddLandsBehindParent | src/shar/core/queue.rs:183-203 | a local insert gets a fresh id and, if its parent is live on receipt, lands immediately behind it, so the copies for peers and for the editor are equal |
| QueueSafety.ShownActs | src/shar/core/queue.rs:274-280 | inserting the newcomer behind the predecessor it is reported with reproduces the new list |
| Delivery.AnyDeliveryOrder | src/shar/core/queue.rs:322-497 | every delivery order, with repeats, of a causally closed anchored set ends with empty backlog and worklist, the same tree and tombstones, and exactly one callback per new identity and tombstone, parents before children and adds before removes |
| Delivery.DrainKeeps | src/shar/core/queue.rs:484-497 | through a whole drain every operation of the set stays held or done; none is lost |
| Replay.EarlyIsInOrder | src/shar/core/queue.rs:379-398 | inserts and removes that come before the identity they all wait for leave, once it arrives, exactly the state they would have left right behind it in the same order: document, callbacks, counter and backlogs, line breaks included |
| Replay.WaitsInOrder | src/shar/core/queue.rs:379-398 | until then nothing changes but that they wait under that identity, in the order in which they came |
| Replay.ItemLetsGo | src/shar/core/queue.rs:467-478 | what an insert lets go queues up, in its own order, behind everything that is to be replayed already |
| Replay.GenerationByGeneration | src/shar/core/queue.rs:484-497 | a replay handles all that is queued, in order, before anything that this lets go |
| Replay.CounterIsHighest | src/shar/core/queue.rs:342 | after any deliveries the counter is exactly the larger of what it was and the highest id delivered, parked ones included |
| EditorReplay.EarlyByTagIsInOrder | src/shar/core/queue.rs:183-298 | editor inserts whose parent's tag is still unknown land, once the insert with that tag is received, right behind it in the order of receipt, each with the id it got on receipt, and are broadcast in that order |
| EditorReplay.EarlyByIdIsInOrder | src/shar/core/queue.rs:217-298 | editor inserts that hang from an insert which itself waits land after it, in the order of receipt, whether they name it by identity or by tag, and are broadcast in that order |
| EditorReplay.GenerationByGeneration | src/shar/core/queue.rs:516-521 | the editor's replay too handles all that is queued before anything that this lets go |
| MissedRemove.MissedRemoveWaits | src/shar/core/queue.rs:452-461 | a remove, local or remote, of what is not recorded changes nothing but that it waits, last, for its target |
| MissedRemove.MissedRemoveTakesEffect | src/shar/core/queue.rs:303-400 | once the target of a local remove arrives from a peer it is a tombstone, the editor has been told to drop it exactly once, and nothing has been sent to the peers |
| MissedRemove.OwnRemoveIsStuck | src/shar/core/queue.rs:183-298 | a remove of the editor's own insert that has not landed is not replayed when an editor insert makes it land: it is shown, and the remove waits on |
| MissedRemove.StuckForGood | src/shar/core/queue.rs:183-521 | no run of requests that do not remove it anew takes such a character away |
| Convergence.CleanIsInPlace | src/shar/core/tree.rs:404-449 | a newcomer whose outranking siblings are childless ordinary characters, at each tombstoned link too, lands in place |
| Convergence.CleanRunIsWalk | src/shar/core/tree.rs:255-544 | after every run of clean inserts and any removes the list is the preorder walk of the tree, siblings in outranking order, tombstones left out |
| Convergence.CleanRunsConverge | src/shar/core/tree.rs:34-38 | replicas that reach one tree by any two clean runs compare equal, rows included |
| Convergence.CleanReplicasConverge | src/shar/core/queue.rs:322-497 | replicas that are owed clean sets leading to one tree end with the same document, whatever is reordered or repeated on either side |
| Convergence.ConcurrentTypingDiverges | src/shar/core/tree.rs:413-416 | concrete operations whose order shows: same tree, different documents, because a scan stops at a sibling's descendant |
| Convergence.NewlineUnderTombstoneDiverges | src/shar/core/tree.rs:108-122 | concrete operations whose order shows: a newline delivered after the remove of its parent is listed in front of the sentinel |
| EveryOrder.OneDocumentIff | src/shar/core/queue.rs:322-497 | a causally closed set of inserts onto a file with only the sentinel shows one document in every delivery order, repeats included, if and only if each insert is clean in the final tree |
| EveryOrder.RemoveHidesDisorder | src/shar/core/queue.rs:322-497 | with removes the condition is no longer needed: a set that is not clean, whose inserts in the order A, B, C are not all in place, and that shows one document in every order |
| Confluence.OneResultIff | src/shar/core/tree.rs:349-458 | from any well-formed document, inserting the newcomers of a tree in every order that has parents first gives one document if and only if, at every state on the way, any two of them that can come next commute |
| AnyFile.OneDocumentFromAnyFileIff | src/shar/core/queue.rs:322-497 | the same for deliveries, repeats and waiting included: onto any well-formed file at rest, a causally closed and anchored set of inserts shows one document in every delivery order if and only if its newcomers always commute |
| AnyFile.CommutingIsClean | src/shar/core/tree.rs:396-449 | onto a file with only the sentinel, that is exactly when each insert is clean in the final tree |
| Hydration.ToNetworkOps | src/state_request.rs:41-68 | the operations are, for some iteration order of the map, a live add of every character with a remove behind it for every tombstone |
| Hydration.RemoveBehindAdd | src/state_request.rs:41-68 | whatever the iteration order, every character has its live add in the dump, and a tombstone its remove right behind the add |
| Hydration.DumpDelivers | src/state_request.rs:41-68 | a dump, in any iteration order, delivers the whole state and nothing else |
| Hydration.HydrationIsJoin | src/state_request.rs:203-209 | replaying the dumps of any number of replicas, in any iteration order, onto a compatible one (the union anchored) gives the union of the maps with tombstone flags or-ed |
| Hydration.HydratesFromScratch | src/state_request.rs:203-209 | a file with only the sentinel takes over the sender's full state, and its document when the sender's is faithful and clean |
| EditorDelivery.AlwaysInOnePlace | src/shar/core/queue.rs:183-298 | after each receipt every editor insert received so far is confirmed once, in order, and sits in exactly one of tree, tag backlog, identity backlog and worklist |
| EditorDelivery.AnyReceiptOrder | src/shar/core/queue.rs:183-298 | whatever the order of receipt, in the end nothing waits, the tree is the declared one, and each insert was broadcast exactly once, behind its parent |
| Broadcast.SessionIsBroadcast | src/shar/core/queue.rs:183-315 | while only its own editor is at work, what a replica broadcasts is causally closed, describes its tree, and replayed in order makes its document |
| Broadcast.PeerHasSendersTree | src/shar/core/queue.rs:183-497 | a peer with the same tree that gets these broadcasts in any order, with repeats, ends with the sender's tree and nothing waiting, if the set is anchored |
| Broadcast.PeerShowsSendersDocument | src/shar/core/queue.rs:183-497 | and with the sender's document, if the set is clean |
| Mesh.KeyedIsOutgoing | src/shar/core/queue.rs:183-315 | the callbacks of a keystroke that names a recorded identity tell the peers one operation: the insert with its fresh identity, or the remove if there was something to remove |
| Mesh.MeshHasOneTree | src/shar/core/queue.rs:183-497 | any number of replicas whose editors type and which take each other's broadcasts between keystrokes, in any order, late or repeated: one that has had everything holds the tree of everything broadcast, with nothing waiting |
| Mesh.MeshHasOneDocument | src/shar/core/queue.rs:183-497 | and if what was typed is clean in that tree, any two such replicas show one document, its walk |
| SharQueueModule.SharQueue.AddNetworkOperation | src/shar/core/queue.rs:322-324 | the queue object changes exactly as the state machine's remote insert, backlog replay included |
| SharQueueModule.SharQueue.AddNetworkOperationInner | src/shar/core/queue.rs:330-400 | one remote insert with its three outcomes, dependants queued or replayed depending on the flag |
| SharQueueModule.SharQueue.DrainNetworkWorklist | src/shar/core/queue.rs:484-497 | the loop replays the worklist as the state machine's drain and terminates |
| SharQueueModule.SharQueue.ClearNetworkBacklog | src/shar/core/queue.rs:467-478 | whatever waited for the identity is replayed; nothing changes when nothing waited |
| SharQueueModule.SharQueue.RemoveNetworkOperation | src/shar/core/queue.rs:409-421 | a remote remove applies once with one callback, or waits for its target |
| SharQueueModule.SharQueue.RemoveIdeOperation | src/shar/core/queue.rs:303-315 | the same for a local remove |
| SharQueueModule.SharQueue.AddIdeOperation | src/shar/core/queue.rs:183-203 | receipt, confirmation with the next id, insert or backlog, and the drain, as the state machine's local insert |
| SharQueueModule.SharQueue.AddIdeOperationInner | src/shar/core/queue.rs:217-298 | parent resolved by identity or tag, then inserted and broadcast, or parked under the tag or the identity |
| SharQueueModule.SharQueue.DrainIdeWorklist | src/shar/core/queue.rs:516-521 | the loop replays the editor worklist as the state machine's drain and terminates |
| ProtocolSafety.ServeKeeps | src/shar/core/queue.rs:183-315 | the server taking a message moves it from the channel into its list and changes nothing for the editor |
| ProtocolSafety.StepKeeps | bench/doc-mirror.js:42-103 | every keystroke, server step and confirmation keeps the protocol's invariant |
| ProtocolSafety.RunKeeps | bench/doc-mirror.js:42-103 | over every run and any delay the mirror is the server's list with the messages in flight applied and held removes left out, no remove is sent before its add is confirmed, and the mirror's text is the string the keystrokes spell |
| ProtocolSafety.RunsCompose | bench/doc-mirror.js:42-103 | a run, and the string that its keystrokes spell, go through every action, one after the other |
| ProtocolSafety.QuiescentRunAgrees | bench/doc-mirror.js:90-109 | once nothing is in flight, mirror and server list the same identities, all confirmed, and the server's text is the string the keystrokes spell |
| ProtocolSafety.FreshHolds | bench/doc-mirror.js:10-18 | a new mirror in front of a settled server with an empty file satisfies the invariant |
| Lines.Locate | bench/doc-mirror.js:23-36 | an offset is the index of the cell it is behind when the lines are laid end to end; none if and only if the document is shorter |
| Lines.LinesUnique | bench/doc-mirror.js:57-64 | the lines are the one way to cut the cells that starts a line at each newline and nowhere else |
| Lines.Take | bench/doc-mirror.js:72-86 | taking a character, or the newline that starts the next line, takes exactly one cell out of the lines laid end to end |
| Lines.CurrentText | bench/doc-mirror.js:107-109 | joining the lines with newlines gives the cells' values after the first anchor |
| DocMirrorModule.DocMirror.InsertChar | bench/doc-mirror.js:50-70 | lines, pending adds and the message sent are those of the flat mirror, and the lines stay cut exactly before the newlines; out of range changes nothing |
| DocMirrorModule.DocMirror.DeleteChar | bench/doc-mirror.js:72-86 | the cell or the newline behind the offset goes; its remove is sent at once or held under its tag |
| DocMirrorModule.DocMirror.ConfirmAdd | bench/doc-mirror.js:90-103 | filling in the shared cell renames it wherever it is shown and lets a held remove go |
| SyncMirrorModule.InsertChar | src/bench.rs:85-137 | screen and server list stay equal, the lines stay cut exactly before the newlines, and the screen is the plain string with the character inserted |
| SyncMirrorModule.RemoveChar | src/bench.rs:139-159 | screen and server list stay equal, and the screen is the plain string with the character deleted |
| SyncMirrorModule.Replay | src/bench.rs:215-230 | for every trace with offsets in range the server's text behind the sentinel is the plain string that the patches make |
| SyncMirrorModule.PatchesCompose | src/bench.rs:215-230 | that string comes from every patch, one after the other |
| SyncMirrorModule.PatchedAt | src/bench.rs:215-230 | one patch keeps the front and what is behind the deleted stretch, character by character, with what it inserts in between |

## Left out

- Sockets, gossip, discovery, the command line, JSON, tickets and logging: input and output only. Awaited calls are ordinary calls; callbacks are the ghost log of `SharQueue`, and the confirmed identity is returned.
- Directories, path routing and file loading from disk: one file is modelled, and "file not found" is out of scope.
- `QueueWrap` (src/queue_wrap.rs): its flag check and buffer push are separate steps, so a claim would need an atomicity the code does not provide.
- Row hints on outgoing messages and in the callbacks: hints do not affect results (`SharFileModule.HintFree`), so the log and the protocol's messages carry none.
- Benchmark timing and memory figures, and the speed of the ring search.
- SharFileModule.SharFile.AddCrdt: an insert that is not anchored is modelled, but leaves the object invalid, and what later operations do to such rows is not modelled: the program's search answers (0, 0) for the sentinel wherever it stands (src/shar/core/tree.rs:170-172), while `Document.Start` goes by its place in the list.
- SharFileModule.SharFile.RemoveCrdt: needs a valid file, so the removes that follow one of the sentinel are not described; the queue's guard lets none through (src/shar/core/queue.rs:431-433).
- SharFileModule.SharFile.FindTombstone: looks up the parent's place in a method of its own (`FindBase`), and shares one scan loop (`ScanRow`) with the insert; the source writes both out in place.
- SharFileModule.SharFile.AddFile: needs the counter to stay within 32 bits; overflow of the counter is not modelled anywhere.
- SharQueueModule.SharQueue.AddNetworkOperation: describes calls in which every insert that lands is anchored; the state machine `Queue.AddNetwork` has no such limit.
- SharQueueModule.SharQueue.AddIdeOperation: the same, and an editor is taken to name only identities that have been handed out. An editor insert with neither a full parent identity nor a parent tag panics in the source and cannot be written down here.
- SharQueueModule.SharQueue.AddIdeOperationInner: a direct call is not made while something already waits for the newcomer's identity; `QueueSafety.ReceiveWithin` shows that it never is.
- SharQueueModule.SharQueue.AddNetworkOperationInner: describes calls whose inserts are anchored, like its caller.
- SharQueueModule.SharQueue.ClearNetworkBacklog: the same.
- SharQueueModule.SharQueue.DrainNetworkWorklist: the same.
- SharQueueModule.SharQueue.DrainIdeWorklist: the same, for editor inserts.
- EditorDelivery.AnyReceiptOrder: speaks of editor inserts alone; an editor's remove that misses its target waits with the network operations, which a local insert does not replay (src/shar/core/queue.rs:255-261, 452-461); see `MissedRemove`.
- Replay.EarlyIsInOrder: nothing else may wait for the identity, or for what the operations add; what they would let go comes behind all of them, which `Replay.GenerationByGeneration` describes.
- Delivery.AnyDeliveryOrder: assumes one relation per identity; replicas loaded from different texts under the same peer-0 ids are outside it.
- Broadcast.SessionIsBroadcast: speaks of editor requests alone; replicas that also receive are in `Mesh`.
- Mesh.MeshHasOneTree: editors name parents and targets that their replica has recorded already, by identity or by a confirmed tag (names that come too early are `EditorDelivery`); the replicas start from one tree with nothing waiting and keep distinct peer numbers; nobody joins or hydrates in the middle.
- Mesh.MeshHasOneDocument: starts from files that show their walk.
- EveryOrder.OneDocumentIff: inserts only, onto a file with only the sentinel; `AnyFile.OneDocumentFromAnyFileIff` takes any file, `EveryOrder.RemoveHidesDisorder` shows why removes are out.
- AnyFile.OneDocumentFromAnyFileIff: inserts only, and their parents must come too; the condition is on the states on the way, and only for a file with nothing but the sentinel is it put as one on the tree.
- Protocol: one editor and no remote peers while it types; tags are 32-bit as on the wire, and neither ids nor tags run out.
- DocMirrorModule.DocMirror.InsertChar: an offset out of range is an exception in the source and `None` here, with nothing changed.
