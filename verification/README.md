# VOLNA messaging: a Dafny model

VOLNA's messaging client keeps two encrypted durable queues, mirrors native Matrix timelines, and exchanges
events and proofs in canonical forms. This project models that code and proves what it is for.

- **Delivery** (`OutboxRecords`, `Outbox`, `OutboxRuns`, `OutboxOrder`, `Delivery`, `DeliveryRuns`, `DeliverySends`,
  `DeliveryLocks`, `DeliveryOnce`, `DeliveryFutures`, `DeliveryOrder`, `DeliveryMoves`, `DeliveryRoom`,
  `DeliveryTwice`, `DeliveryAgain`, `DeliveryLimits`): the sends and notifications of one account. `Outbox` is the
  promise chain of `mutateOutbox`, step by step between its awaits; `OutboxRuns` proves that it makes overlapping
  mutations atomic and ordered, through crashes, and `OutboxOrder` that it is exactly a line of calls of which only
  the first settles. `Delivery` builds on that: a call joins the line of its queue, its mutation is one instant, a
  crash keeps only the two queues, and records are objects with an identity, because the guarantees are about
  objects; `DeliveryOrder` ties the two levels together. `DeliveryRuns` and `DeliverySends` hold what every run
  keeps, `DeliveryLocks` who waits in the lines, `DeliveryOnce` and `DeliveryTwice` the two halves of when an id
  goes out once, `DeliveryAgain` when it can be notified again; the latter two reason about continuations, which
  `DeliveryFutures`, `DeliveryMoves` and `DeliveryRoom` build. `OutboxStore`, `OutboxMeaning` and `SealedStore` are
  what is in the slots.
- **Timelines** (`Timelines`, `TimelineRuns`, `TimelineHistory`, `Handover`, `HandoverLimits`): one room of a handle
  under opens, session refreshes and live snapshots. Other rooms share only `active`, the refresh and the supply of
  native ids.
- **Mirror** (`TimelineMirror`, `MirrorRuns`, `MirrorHistory`): the native timeline state, its listeners and their
  batches; `EndToEnd` joins it to the client.
- **Contract** (`Unicode`, `Decimal`, `JsonNumbers`, `JsonStrings`, `Json`, `JsonGrammar`, `JsonBytes`,
  `NumberValues`, `BoundedJson`, `BoundedForms`, `Validators`, `Patterns`, `CheckPatterns`, `ContentEvent`,
  `ContentRoundTrip`, `ContentSize`, `ContentMeaning`, `ContentFaults`, `Base64Url`, `CanonicalForms`,
  `CanonicalInjectivity`, `CanonicalTexts`, `Faults`): strings are sequences of UTF-16 code units, JSON text is printed
  and parsed concretely. The `...Meaning`, `...Texts` and `...Faults` modules say what is accepted, as what, and with
  which error otherwise, in terms of the properties of the input, of regular expressions (`Patterns`) and of the
  grammar of JSON; `OutboxMeaning` does so for what is in the slots.
- **Log** (`TransparencyLog`, `TransparencyGate`, `Calendar`, `EntryTexts`): the canonical-entry gate of the key
  transparency log.
- **Upload** (`UploadPool`, `UploadRuns`): the four workers of the multipart upload.

A protocol is a datatype of its state, a predicate `Enabled` and a function `Next` for its steps; a class with
the program's own fields has one method for each stretch of code between two awaits, and its `ensures` says that
the method is that step. Theorems are about `After`, the state behind a run, so they hold for every schedule.

Four places where the code gives less than one might expect have a concrete run and an exact condition:

- A successful open or refresh can miss a live snapshot that arrived meanwhile (`HandoverLimits`). It covers it
  exactly if something as new was held back and nothing dropped its timeline since, be it the end of another
  operation or a third timeline, or if the timeline came that far by itself (`Handover.OpenShowsIff`,
  `Handover.RefreshShowsIff`).
- One logical id can go out twice, as two records (`DeliveryLimits.OverlappingSendsGoOutTwice`): exactly if a send
  makes a second record, and its call can still fit, while an earlier one of the id was sent or can still be
  (`DeliveryOnce.OncePerLogicalId`, `DeliveryTwice.ReachableDuplicateGoesOutTwice`).
- A message can be notified twice (`DeliveryLimits.NotifiedTwice`): `DeliveryAgain.AskedAgainIff` says exactly when
  the endpoint can be asked again.
- Two snapshots of one revision can differ (`MirrorRuns.ShutdownReportsEmpty`): `MirrorRuns.ReportsAgreeIff`.

`dafny verify dfyconfig.toml` verifies everything.

## Model

| member | source | states |
|---|---|---|
| DeliveryRuns.NothingIsLost | packages/volna-messaging-client/src/matrix-engine-native.ts:899-949 | After any interleaving, with any crashes and restarts, every logical id that was stored before or whose enqueue completed is in the send outbox, in the notification outbox, or accepted by the notify endpoint. |
| DeliveryRuns.StaysUntilNoted | packages/volna-messaging-client/src/matrix-engine-native.ts:930-945 | Each removal of a stored send, at any step of any run, is by an acknowledgement that has stored its own note in an earlier step of the same process and has waited since; a refused note, from a full queue for instance, blocks the removal. |
| DeliveryRuns.AcceptedWasDurable | packages/volna-messaging-client/src/matrix-engine-native.ts:899-920 | The endpoint accepts only ids that were in the durable notification outbox before. |
| DeliveryRuns.StepConserves | packages/volna-messaging-client/src/matrix-engine-native.ts:899-949 | The conservation invariant (queues, acknowledgements and deliveries under way) survives every step. |
| DeliverySends.SubmitSafety | packages/volna-messaging-client/src/matrix-engine-native.ts:1044-1091 | In one process no pending record is sent twice, however send, flush on open and flush on refresh overlap; each goes to the room it recorded after its own bind to the recorded partner, and a record without a destination is never sent. |
| DeliverySends.SubmitStartsIff | packages/volna-messaging-client/src/matrix-engine-native.ts:1044-1059 | A task starts if and only if the record is unsent and has a destination, the process runs and has no task for the id, and the prepared room is the recorded one, bound to the recorded thread and partner. |
| DeliverySends.SentAsAsked | packages/volna-messaging-client/src/matrix-engine-native.ts:414-456 | Across crashes and reloads: whatever is sent was asked for with exactly that room and partner, or was already stored with them. |
| DeliveryOnce.StepOneAlive | packages/volna-messaging-client/src/matrix-engine-native.ts:1388-1413 | A step keeps at most one record of each id that was sent or can still be sent if and only if it is not a duplicating send: one of an id that is not in memory although such a record exists, whose call can still be made to fit behind those that wait in the lock. A failed enqueue, or one that can no longer fit, leaves no such record, so a plain retry is not one. |
| DeliveryOnce.OncePerLogicalId | packages/volna-messaging-client/src/matrix-engine-native.ts:1388-1413 | Without duplicating sends a process sends each logical id at most once, over all runs. |
| DeliveryTwice.ReachableDuplicateGoesOutTwice | packages/volna-messaging-client/src/matrix-engine-native.ts:1388-1413 | The other half: from every reachable state in which a duplicating send is possible, some continuation without another send of that id, in which every call settles in its turn in the lock, makes the process send it twice. |
| DeliveryTwice.DuplicateGoesOutTwice | packages/volna-messaging-client/src/matrix-engine-native.ts:1044-1091 | The same from any state with the invariants, a full send queue included: room comes only from drops that wait ahead of the call. |
| DeliveryRoom.RoomMade | packages/volna-messaging-client/src/matrix-engine-native.ts:493-506 | If the id is stored, or there is room, or one of the calls ahead drops a stored id, then the calls ahead of a put can settle so that it fits. |
| DeliveryRoom.StoringIsStored | packages/volna-messaging-client/src/matrix-engine-native.ts:1402 | A waiting send whose call can still be made to fit can be stored in its turn. |
| DeliveryLocks.SenderFitsBack | packages/volna-messaging-client/src/matrix-engine-native.ts:493-500 | The other half: a waiting call that can no longer be made to fit never comes to fit again, whatever any step of the process does. |
| DeliveryLocks.StepSendLock | packages/volna-messaging-client/src/matrix-engine-native.ts:493-500 | The lock of the sends holds exactly one call for each sender that stores, each task that marks and each acknowledgement that drops, through every step. |
| DeliveryLocks.StepNoteLock | packages/volna-messaging-client/src/matrix-engine-native.ts:573-591 | The same for the lock of the notifications. |
| DeliveryLimits.OverlappingSendsGoOutTwice | packages/volna-messaging-client/src/matrix-engine-native.ts:1388-1403 | A concrete duplicating send: a second send of the id while the first is being stored. |
| DeliveryLimits.RetryIsNoDuplicate | packages/volna-messaging-client/src/matrix-engine-native.ts:1402 | A retry behind a failed enqueue is not one. |
| DeliveryAgain.AskedAgainIff | packages/volna-messaging-client/src/matrix-engine-native.ts:899-949 | In every reachable state the endpoint can be asked for an id once more, without another send of it, if and only if something of it is left: a stored record that was offered to the native side or has a destination, a stored notification, an entry of a flush list, a request, a send that has stored its record or whose waiting call can still fit, a task that has not sent yet, or the id in memory, where it can still be sent, or was offered and is not just being forgotten. |
| DeliveryAgain.RunLeavesNothing | packages/volna-messaging-client/src/matrix-engine-native.ts:899-949 | With nothing left of an id, no run without another send of it makes another request for it. |
| DeliveryAgain.SendAsksIff | packages/volna-messaging-client/src/matrix-engine-native.ts:1402 | Where nothing is left of an id, a send of it can bring a request if and only if its call can be made to fit behind those that wait; at a full queue it cannot. |
| DeliveryAgain.SubmitBringsBackIff | packages/volna-messaging-client/src/matrix-engine-native.ts:1069-1071 | A submit brings an id that memory had lost back into it exactly when its native call succeeds. |
| DeliveryLimits.NotifiedTwice | packages/volna-messaging-client/src/matrix-engine-native.ts:1069-1074 | Exactly-once notification fails: a run with one send passes through a state in which the message is acknowledged, handed over and forgotten while its native call, which has begun, has not returned, and ends with the endpoint asked for it twice or more. |
| OutboxOrder.RunIsLine | packages/volna-messaging-client/src/matrix-engine-native.ts:488-506 | However the activations of mutateOutbox interleave, they serve a line: calls join at its end, and only the first settles, as a failure or with its mutation. |
| OutboxOrder.LivesAreLine | packages/volna-messaging-client/src/matrix-engine-native.ts:488-506 | The same with crashes, which empty the line and leave the stored list. |
| OutboxOrder.LineIsRun | packages/volna-messaging-client/src/matrix-engine-native.ts:488-506 | The converse: every line in which the first call fails, or takes effect if the list then has at most 256 records, is a run of mutateOutbox. |
| DeliveryOrder.StepIsSendEvent | packages/volna-messaging-client/src/matrix-engine-native.ts:488-506 | Every step of the delivery machine, with a send, a mark or a drop, is one event of the line of the sends. |
| DeliveryOrder.StepIsNoteEvent | packages/volna-messaging-client/src/matrix-engine-native.ts:573-591 | Every step is one event of the line of the notifications. |
| DeliveryOrder.RunIsLines | packages/volna-messaging-client/src/matrix-engine-native.ts:488-591 | Over every run of the delivery machine, crashes included, both queues are lines of the calls in the order in which they are made. |
| DeliveryOrder.ProcessUsesOutboxes | packages/volna-messaging-client/src/matrix-engine-native.ts:488-591 | Whatever one process does, two runs of mutateOutbox over the queues that it found do the same to them, with the same calls waiting at the end in the same order. |
| Delivery.MatrixHandle.SendContentEvent | packages/volna-messaging-client/src/matrix-engine-native.ts:1388-1402 | Reuses the retained record or makes a new one, and asks for its storage. |
| Delivery.MatrixHandle.FinishStore | packages/volna-messaging-client/src/matrix-engine-native.ts:1402 | The stored list after the send's mutation, and the ids whose enqueue completed. |
| Delivery.MatrixHandle.Remember | packages/volna-messaging-client/src/matrix-engine-native.ts:1403-1413 | The record enters memory and is submitted. |
| Delivery.MatrixHandle.SubmitPending | packages/volna-messaging-client/src/matrix-engine-native.ts:1044-1059 | Joins the running task of the id, returns, throws, or starts a task, on the recorded destination only. |
| Delivery.MatrixHandle.FinishBind | packages/volna-messaging-client/src/matrix-engine-native.ts:1060-1063 | The submit goes on with the recorded partner only after its own bind. |
| Delivery.MatrixHandle.FinishTransmit | packages/volna-messaging-client/src/matrix-engine-native.ts:1069-1072 | A successful native send marks the object and puts it into memory. |
| Delivery.MatrixHandle.FinishMark | packages/volna-messaging-client/src/matrix-engine-native.ts:1072-1080 | The stored record is marked and the submit leaves the table. |
| Delivery.MatrixHandle.AcknowledgeRemoteSend | packages/volna-messaging-client/src/matrix-engine-native.ts:922-936 | One acknowledgement for each id at a time. |
| Delivery.MatrixHandle.FinishNote | packages/volna-messaging-client/src/matrix-engine-native.ts:939-942 | The notification is durable before anything else happens to the send. |
| Delivery.MatrixHandle.FinishDrop | packages/volna-messaging-client/src/matrix-engine-native.ts:943 | The send is dropped from its store. |
| Delivery.MatrixHandle.ForgetPending | packages/volna-messaging-client/src/matrix-engine-native.ts:944-948 | The record leaves memory and the acknowledgement ends. |
| Delivery.MatrixHandle.FlushNotifications | packages/volna-messaging-client/src/matrix-engine-native.ts:915-916 | A flush visits the ids that are stored when it loads them, each once. |
| Delivery.MatrixHandle.DeliverNotification | packages/volna-messaging-client/src/matrix-engine-native.ts:899-920 | The next id of a flush is skipped while another one delivers it. |
| Delivery.MatrixHandle.FinishRequest | packages/volna-messaging-client/src/matrix-engine-native.ts:903-908 | A request may reach the endpoint although its response fails. |
| Delivery.MatrixHandle.FinishDropNote | packages/volna-messaging-client/src/matrix-engine-native.ts:909-912 | The notification leaves its store only after a good response. |
| Delivery.MatrixHandle.Restart | packages/volna-messaging-client/src/matrix-engine-native.ts:1301-1318 | A new process holds one new object for each stored record. |
| OutboxRuns.Linearisable | packages/volna-messaging-client/src/matrix-engine-native.ts:488-506 | Whatever overlapping calls of mutateOutbox interleave to, the store is the fold of the successful mutations in call order. |
| OutboxRuns.RunIsAtomic | packages/volna-messaging-client/src/matrix-engine-native.ts:488-506 | The steps of mutateOutbox, with loads, saves and failures in between, are a run of a store that takes each written mutation at one instant and never grows beyond 256 records. |
| OutboxRuns.CrashesAreAtomic | packages/volna-messaging-client/src/matrix-engine-native.ts:465-506 | The same with a crash between any two steps, any number of times. |
| OutboxRuns.OneInside | packages/volna-messaging-client/src/matrix-engine-native.ts:493-500 | At most one call is between its load and its write. |
| OutboxRuns.NeverBlocked | packages/volna-messaging-client/src/matrix-engine-native.ts:494-505 | While a call is not settled, some call of the chain can take a step, whatever failed before it. |
| OutboxRuns.LockExact | packages/volna-messaging-client/src/matrix-engine-native.ts:493-505 | In every run the map of locks holds the promise of the last call exactly until that call has ended. |
| OutboxRuns.OneRecordPerId | packages/volna-messaging-client/src/matrix-engine-native.ts:1402 | From an empty store there is at most one record for each id, and never more than 256. |
| OutboxRuns.NothingLost | packages/volna-messaging-client/src/matrix-engine-native.ts:1402 | No lost update: a stored record stays until a later successful call names its id. |
| OutboxRuns.ClosedKeyNeverWrites | packages/volna-messaging-client/src/matrix-key-lifecycle.mjs:28-45 | Once a key is closed and its writes are drained, it never writes again. |
| OutboxRecords.WithoutMember | packages/volna-messaging-client/src/matrix-engine-native.ts:1402 | Filtering an id keeps exactly the other records. |
| OutboxRecords.MarkedExact | packages/volna-messaging-client/src/matrix-engine-native.ts:1072-1074 | Marking changes the records of one id and nothing else, in place. |
| OutboxRecords.MutateDistinct | packages/volna-messaging-client/src/matrix-engine-native.ts:1072-1074 | Each of the three mutations keeps ids distinct. |
| Outbox.Queue.MutateOutbox | packages/volna-messaging-client/src/matrix-engine-native.ts:493-500 | The call chains behind the promise that it found and becomes the tail. |
| Outbox.Queue.AfterPrevious | packages/volna-messaging-client/src/matrix-engine-native.ts:494-495 | A call starts when the one before is settled, and fails on a closed key. |
| Outbox.Queue.LoadOutbox | packages/volna-messaging-client/src/matrix-engine-native.ts:496 | The list that was stored at that moment, or a failure. |
| Outbox.Queue.SaveOutbox | packages/volna-messaging-client/src/matrix-engine-native.ts:497-498 | The second look at the key, between load and save. |
| Outbox.Queue.SetItem | packages/volna-messaging-client/src/matrix-engine-native.ts:466-486 | A write replaces the whole list or leaves it. |
| Outbox.Queue.Finally | packages/volna-messaging-client/src/matrix-engine-native.ts:501-505 | Only the last call of the chain removes it. |
| Outbox.Queue.WithMatrixKeyWrite | packages/volna-messaging-client/src/matrix-key-lifecycle.mjs:28-37 | The mutation is computed and written only while the key is open. |
| Outbox.Queue.CloseMatrixKey | packages/volna-messaging-client/src/matrix-key-lifecycle.mjs:41-45 | The fence falls at once for the key, and for no other. |
| OutboxStore.SaveExact | packages/volna-messaging-client/src/matrix-engine-native.ts:465-486 | saveOutbox stores a list if and only if it is empty, or has at most 256 records and at most 524272 bytes of JSON; it removes the item exactly for the empty list. |
| OutboxStore.SaveNoticesExact | packages/volna-messaging-client/src/matrix-engine-native.ts:543-571 | The same for the notification outbox, with 131056 bytes. |
| OutboxMeaning.LoadExact | packages/volna-messaging-client/src/matrix-engine-native.ts:414-463 | loadOutbox returns a list if and only if the slot is empty and so is the list, or the slot opens to an array of at most 256 objects each of which says its record, property by property. |
| OutboxMeaning.LoadNoticesExact | packages/volna-messaging-client/src/matrix-engine-native.ts:508-541 | The same for the notification outbox. |
| OutboxMeaning.PendingExact | packages/volna-messaging-client/src/matrix-engine-native.ts:426-456 | A stored object is read as a record if and only if its properties say that record: identifiers and room of the right pattern, both or neither of the destination, a date, and an event that is accepted. |
| OutboxMeaning.NoticeExact | packages/volna-messaging-client/src/matrix-engine-native.ts:520-535 | The same for a notification. |
| OutboxStore.SaveThenLoad | packages/volna-messaging-client/src/matrix-engine-native.ts:414-486 | Every list of well-formed records within the two limits is stored, and loadOutbox reads it back unchanged, legacy records without a destination included; normalising the stored events again changes nothing. |
| OutboxStore.SaveThenLoadNotices | packages/volna-messaging-client/src/matrix-engine-native.ts:508-571 | The same for the notification outbox. |
| OutboxStore.PendingRoundTrip | packages/volna-messaging-client/src/matrix-engine-native.ts:426-456 | One record, from its object through the validation of loadOutbox back to itself. |
| OutboxStore.NoticeRoundTrip | packages/volna-messaging-client/src/matrix-engine-native.ts:520-535 | One notification, in the same way. |
| OutboxStore.QueuedRecordReadsIff | packages/volna-messaging-client/src/matrix-engine-native.ts:1371-1401 | A record that sendContentEvent queues reads back as itself if and only if its thread id is well formed, which is the one field that the function does not check. |
| OutboxStore.BadThreadBlocksQueue | packages/volna-messaging-client/src/matrix-engine-native.ts:426-438 | One record with a malformed thread id makes the whole queue unreadable. |
| SealedStore.SealExact | packages/volna-messaging-client/src/matrix-engine-native.ts:465-486 | A document is sealed if and only if its JSON text is within the limit in bytes of UTF-8; the stored text is JSON of version, nonce and ciphertext in base64url. |
| SealedStore.UnsealExact | packages/volna-messaging-client/src/matrix-engine-native.ts:414-424 | A stored text is opened if and only if it is JSON of such an envelope, with a nonce of 1 to 24 bytes and a ciphertext within the limit, that opens to JSON text. |
| SealedStore.SealRoundTrip | packages/volna-messaging-client/src/matrix-engine-native.ts:47-49 | The plaintext limit plus the 16-byte tag of the AEAD never exceeds the limit of the reader, and no other check of the reader refuses what was written. |
| SealedStore.ReaderLimitIsTight | packages/volna-messaging-client/src/matrix-engine-native.ts:475-481 | The two limits meet: a reader that allowed one byte less would lose a document that fills the writer's limit. |
| TimelineRuns.CommitsIncrease | packages/volna-messaging-client/src/matrix-engine-native.ts:972-977 | In every run the pair of admission epoch and revision strictly increases at each committed snapshot. |
| TimelineRuns.RetiredNeverCommits | packages/volna-messaging-client/src/matrix-engine-native.ts:1229-1248 | A timeline retired by a refresh never commits again in any continuation, although the native side may still hand out its id. |
| TimelineRuns.ReleasedIsFinal | packages/volna-messaging-client/src/matrix-engine-native.ts:1165-1167 | Once the handle is inactive nothing is committed or admitted, and no room becomes known. |
| TimelineRuns.StepKeeps | packages/volna-messaging-client/src/matrix-engine-native.ts:951-1181 | The fencing invariant: ids of fetched, admitted and retired timelines stay in order under opens, refreshes, live snapshots, native restarts and closings. |
| TimelineHistory.StagesInOrder | packages/volna-messaging-client/src/matrix-engine-native.ts:1093-1268 | In every run each step of an open and of a refresh comes in its order: a refresh retires the timelines once, when no operation is under way, restarts, visits the room once and ends; an operation binds, fetches, admits, processes and ends. |
| TimelineHistory.TimelineShowsLast | packages/volna-messaging-client/src/matrix-engine-native.ts:972-977 | In every run revision and cursor of the timeline are those of the last snapshot committed under its admission, and a timeline without one is at -1 with more history to load. |
| TimelineHistory.RevisionsIncrease | packages/volna-messaging-client/src/matrix-engine-native.ts:972-977 | Over a whole run the committed revisions of one timeline strictly increase, however often it is opened again. |
| TimelineHistory.KnownExact | packages/volna-messaging-client/src/matrix-engine-native.ts:1142-1149 | In every run a room is known exactly while it has a timeline, or while an open waits for its first one. |
| TimelineHistory.ReleasedStartsNothing | packages/volna-messaging-client/src/matrix-engine-native.ts:1209-1233 | A released handle starts no open and no refresh and retires nothing. |
| TimelineHistory.RefreshBringsIff | packages/volna-messaging-client/src/matrix-engine-native.ts:1248-1268 | A refresh hands its queue over if and only if its visit came to processing the snapshot that it fetched. |
| TimelineHistory.RetireFences | packages/volna-messaging-client/src/matrix-engine-native.ts:1229-1233 | Wherever a refresh retires the timeline in a run, no snapshot of that timeline is committed in the rest of the run. |
| TimelineHistory.OpenCanSucceed | packages/volna-messaging-client/src/matrix-engine-native.ts:1093-1161 | Whenever neither an open nor a fence is in the way, an open can succeed with any well-formed snapshot of the native timeline unless that is the retired one, and shows at least its revision. |
| TimelineHistory.RefreshCanSucceed | packages/volna-messaging-client/src/matrix-engine-native.ts:1209-1268 | A refresh can bring a known room back with a native timeline of a new id, whose snapshot is then committed. |
| Handover.QueueKeepsNewest | packages/volna-messaging-client/src/matrix-engine-native.ts:964-968 | As long as at most two timelines are seen, the queue of held snapshots has the newest revision of each. |
| Handover.HoldKeepsIff | packages/volna-messaging-client/src/matrix-engine-native.ts:964-967 | Holding a snapshot leaves something as new as `s` in the queue if and only if it is that itself, or it was there and its timeline is not the older one of two that a third evicts. |
| Handover.QueueCoversIff | packages/volna-messaging-client/src/matrix-engine-native.ts:959-970 | Over every run: the queue ends with something as new as `s` if and only if such a snapshot was held back and since then no open and no refresh ended and no third timeline evicted its own. |
| Handover.OpenShowsIff | packages/volna-messaging-client/src/matrix-engine-native.ts:1138-1161 | After a successful open, from the first state of the room on, the hand-over covers a snapshot of its timeline if and only if that condition holds, or the timeline had come that far by itself. |
| Handover.OpenHandsOver | packages/volna-messaging-client/src/matrix-engine-native.ts:1154-1161 | The queue of a successful open goes to the commit test, and whenever that runs the timeline stands at the later of its own revision, at least the admitted one, and of the queued one; with nothing queued, at its own. |
| Handover.OpenIsReady | packages/volna-messaging-client/src/matrix-engine-native.ts:1138-1141 | A successful open on an active handle ends with its admitted timeline known, unretired and at the fetched revision or a later one. |
| Handover.RefreshShowsIff | packages/volna-messaging-client/src/matrix-engine-native.ts:1260-1268 | The condition of OpenShowsIff for the end of a refresh that admitted the room. |
| Handover.RefreshHandsOver | packages/volna-messaging-client/src/matrix-engine-native.ts:1260-1268 | Such a refresh takes its queue along and hands it over with the same effect. |
| Handover.FencedHolds | packages/volna-messaging-client/src/matrix-engine-native.ts:959-970 | Behind the fence of a refresh every live snapshot of an active known room stays held until the refresh ends. |
| Handover.TwoTimelinesLoseNothing | packages/volna-messaging-client/src/matrix-engine-native.ts:964-968 | As long as at most two timelines were held back, the hand-over ends at the newest of the held snapshots of the current one. |
| HandoverLimits.FailedRefreshLoses | packages/volna-messaging-client/src/matrix-engine-native.ts:1262-1267 | A concrete loss: a refresh that fails while an open runs empties the queue, and a newer revision is not shown although the open succeeds. |
| HandoverLimits.ThirdTimelineLoses | packages/volna-messaging-client/src/matrix-engine-native.ts:966-967 | A concrete loss without any refresh: a third timeline evicts the newest revision of the first one. |
| Handover.FailedOpenCommitsNoneHeld | packages/volna-messaging-client/src/matrix-engine-native.ts:1156-1160 | After a failed open none of the held snapshots is ever committed, unless an earlier operation had posted it or it arrives again. |
| Handover.FailedRefreshCommitsNoneHeld | packages/volna-messaging-client/src/matrix-engine-native.ts:1262-1267 | The same after a refresh that did not admit the room. |
| Handover.RunMonotone | packages/volna-messaging-client/src/matrix-engine-native.ts:1174-1180 | Between two admissions a timeline keeps its id, never goes back, and stays retired once it is. |
| Timelines.RoomHandle.ProcessLive | packages/volna-messaging-client/src/matrix-engine-native.ts:951-977 | Holds back during an open or a refresh, otherwise commits only a newer revision of the current timeline. |
| Timelines.RoomHandle.CommitSnapshot | packages/volna-messaging-client/src/matrix-engine-native.ts:972-977 | The commit test and its effect. |
| Timelines.RoomHandle.AdmitNativeTimeline | packages/volna-messaging-client/src/matrix-engine-native.ts:1165-1181 | Throws on a released handle, a malformed snapshot or a retired timeline; a new id starts a new epoch. |
| Timelines.RoomHandle.AdmitFetched | packages/volna-messaging-client/src/matrix-engine-native.ts:1138 | The operation goes on only if its snapshot was admitted. |
| Timelines.RoomHandle.ProcessAdmitted | packages/volna-messaging-client/src/matrix-engine-native.ts:1139 | The admitted snapshot passes the same commit test. |
| Timelines.RoomHandle.FailOperation | packages/volna-messaging-client/src/matrix-engine-native.ts:1142-1149 | A failed open forgets a room that never had a timeline, before it waits for closeRoom; a failed reopening changes nothing. |
| Timelines.RoomHandle.FinishOpen | packages/volna-messaging-client/src/matrix-engine-native.ts:1155-1161 | The queue is handed over to the current timeline, or dropped. |
| Timelines.RoomHandle.RetireTimeline | packages/volna-messaging-client/src/matrix-engine-native.ts:1229-1233 | Every known timeline is fenced, after all opens have settled. |
| Timelines.RoomHandle.FinishRefresh | packages/volna-messaging-client/src/matrix-engine-native.ts:1260-1264 | The queue of an admitted room is taken along, any other one is dropped. |
| MirrorRuns.MirrorRefinesSource | packages/volna-matrix-native/ios/VolnaMatrixNativeModule.swift:100-175 | Once the reset of the current listener is in, the mirror equals the source vector after its last accepted batch, and the newest source vector when nothing is left to deliver, in every run with stale batches, new listeners and shutdowns. |
| MirrorRuns.DiffExact | packages/volna-matrix-native/ios/VolnaMatrixNativeModule.swift:104-127 | Each of the eleven diffs turns the items position by position into what the source means by it; one that is out of range leaves them alone. |
| MirrorRuns.RevisionCountsBatches | packages/volna-matrix-native/ios/VolnaMatrixNativeModule.swift:100-128 | The revision counts exactly the accepted batches. |
| MirrorRuns.RetiredStreamsAreFenced | packages/volna-matrix-native/ios/VolnaMatrixNativeModule.swift:772-785 | After beginListener no batch of an older subscription changes items or revision. |
| MirrorRuns.DeactivatedForever | packages/volna-matrix-native/ios/VolnaMatrixNativeModule.swift:169-175 | A deactivated mirror stays empty, at one revision and cursor, whatever is still delivered. |
| MirrorRuns.OnePageAtATime | packages/volna-matrix-native/ios/VolnaMatrixNativeModule.swift:149-160 | In every run at most one page of history is loading, and the flag says so. |
| MirrorHistory.FieldsExact | packages/volna-matrix-native/ios/VolnaMatrixNativeModule.swift:136-175 | In every run the four control fields are functions of the calls: active until a deactivation, the generation counts listeners and deactivations, the cursor is the last report before a deactivation, and paging is what was begun while active and has not ended. |
| MirrorHistory.AllowedExact | packages/volna-matrix-native/ios/VolnaMatrixNativeModule.swift:143-160 | A page may begin exactly while the mirror is active and no page is loading; a listener is current exactly while the mirror is active and nothing has begun since. |
| MirrorRuns.LiveReportsAgree | packages/volna-matrix-native/ios/VolnaMatrixNativeModule.swift:130-134 | Two snapshots taken while active at one revision show the same items, at any distance in a run. |
| MirrorRuns.ReportsAgreeIff | packages/volna-matrix-native/ios/VolnaMatrixNativeModule.swift:130-134 | Any two snapshots of one revision show the same items if and only if both or neither were taken while active, or that revision has no items. |
| MirrorRuns.ShutdownReportsEmpty | packages/volna-matrix-native/ios/VolnaMatrixNativeModule.swift:130-134 | A concrete disagreement: a shutdown between apply and snapshot reports the same revision with no items. |
| TimelineMirror.MatrixTimelineState.Apply | packages/volna-matrix-native/ios/VolnaMatrixNativeModule.swift:100-128 | The loop over the diffs, for the current generation of an active timeline only. |
| TimelineMirror.MatrixTimelineState.TakeSnapshot | packages/volna-matrix-native/ios/VolnaMatrixNativeModule.swift:130-134 | Items while active, nothing afterwards. |
| TimelineMirror.MatrixTimelineState.BeginListener | packages/volna-matrix-native/ios/VolnaMatrixNativeModule.swift:136-141 | A new generation. |
| TimelineMirror.MatrixTimelineState.IsCurrentListener | packages/volna-matrix-native/ios/VolnaMatrixNativeModule.swift:143-147 | Active and of this generation. |
| TimelineMirror.MatrixTimelineState.BeginPagination | packages/volna-matrix-native/ios/VolnaMatrixNativeModule.swift:149-154 | Refused while inactive or already paginating. |
| TimelineMirror.MatrixTimelineState.EndPagination | packages/volna-matrix-native/ios/VolnaMatrixNativeModule.swift:156-160 | Paging is free again. |
| TimelineMirror.MatrixTimelineState.SetReachedStart | packages/volna-matrix-native/ios/VolnaMatrixNativeModule.swift:162-167 | The cursor, refused once inactive. |
| TimelineMirror.MatrixTimelineState.Deactivate | packages/volna-matrix-native/ios/VolnaMatrixNativeModule.swift:169-175 | Inactive, empty, and a generation ahead of every listener. |
| EndToEnd.ViewShowsItsRevision | packages/volna-messaging-client/src/matrix-engine-native.ts:972-1022 | In every run of the client the view shows the items that the active mirror had at the revision of the timeline, however snapshots were reordered, repeated, held back or lost. |
| EndToEnd.ViewShowsItsRevisionOrNothing | packages/volna-messaging-client/src/matrix-engine-native.ts:972-1022 | With snapshots taken behind a shutdown admitted too, the view shows the items of its revision or the projection of none, according to which kind it was committed from. |
| EndToEnd.OnlyCurrentCommits | packages/volna-messaging-client/src/matrix-engine-native.ts:972-975 | Whatever is committed, an empty report included, was newer than the revision of a current and unretired timeline. |
| EndToEnd.OrderDoesNotMatter | packages/volna-messaging-client/src/matrix-engine-native.ts:973-975 | Any order and any repetition of snapshots that reach the commit test ends at the newest of them. |
| EndToEnd.ReachedIsKept | packages/volna-messaging-client/src/matrix-engine-native.ts:973-975 | A snapshot that reaches the commit test is never undercut until another timeline is admitted. |
| Unicode.Utf8ByteLength | packages/volna-messaging-client/src/index.js:776-788 | The counting loop returns the UTF-8 length of the decoded UTF-16 sequence, an unpaired surrogate counting as U+FFFD. |
| Unicode.CountsUtf8 | packages/volna-messaging-client/src/index.js:776-788 | The unit-by-unit count is the number of bytes of the encoding (section 3 of RFC 3629). |
| Unicode.Utf8LengthConcat | packages/volna-messaging-client/src/index.js:776-788 | The count is additive under concatenation, except for exactly two bytes less when the seam joins a surrogate pair. |
| Unicode.Utf8Exact | packages/volna-messaging-client/src/matrix-engine-native.ts:424-473 | The decoder of UTF-8 accepts exactly the encodings, the shortest forms of scalar values (section 3 of RFC 3629). |
| Unicode.TextRoundTrip | packages/volna-messaging-client/src/matrix-engine-native.ts:424-473 | Well-formed text survives the encoder and the decoder of UTF-8. |
| JsonGrammar.ParseExact | packages/volna-messaging-client/src/index.js:262-271 | JSON.parse accepts a text if and only if the grammar of RFC 8259 spells a value by it, with white space, escapes, exponents and repeated names, and returns that value. |
| JsonGrammar.NumberPrinted | packages/volna-messaging-client/src/index.js:256-260 | Numbers are printed as Number::toString does: an exponent exactly beyond 21 places to the right or 6 to the left, no superfluous zeros. |
| JsonGrammar.EscapeExact | packages/volna-messaging-client/src/index.js:256-260 | Exactly quotes, backslashes, control characters and lone surrogates are escaped, with the short escape where there is one. |
| NumberValues.FromDecimalExact | packages/volna-messaging-client/src/index.js:262-271 | The number that is read has the value of its digits, point and exponent. |
| Json.RoundTrip | packages/volna-messaging-client/src/index.js:256-271 | JSON.parse inverts JSON.stringify on every JSON value, for the concrete grammar of RFC 8259. |
| Json.PrintInjective | packages/volna-messaging-client/src/index.js:256-271 | Different JSON values print differently. |
| JsonBytes.DocumentRoundTrip | packages/volna-messaging-client/src/matrix-engine-native.ts:473 | A printed document survives its way through UTF-8 bytes. |
| JsonStrings.CharsRoundTrip | packages/volna-messaging-client/src/index.js:256-271 | String escaping (section 7 of RFC 8259) is undone by reading, lone surrogates and control characters included. |
| JsonNumbers.FloatRoundTrip | packages/volna-messaging-client/src/index.js:256-271 | The four layouts in which JavaScript prints a number read back as that number. |
| BoundedJson.NormalizeBoundedJson | packages/volna-messaging-client/src/index.js:150-175 | The walk with the shared counter accepts a value if and only if depth, widths, strings and keys are within bounds and the nodes fit into what is left of the budget; its result is the normal form, and the counter grows by the node count. |
| BoundedJson.NormalizeItems | packages/volna-messaging-client/src/index.js:159-162 | The same for the items of an array, which share the budget. |
| BoundedJson.NormalizeFields | packages/volna-messaging-client/src/index.js:163-174 | The same for the sorted properties of an object. |
| BoundedJson.NormalizeMetadata | packages/volna-messaging-client/src/index.js:150-175 | From a fresh budget the walk is the pure bounded form. |
| BoundedForms.CanonForgetsKeyOrder | packages/volna-messaging-client/src/index.js:163-174 | Two values have the same normal form if and only if they differ in key order only, at any depth. |
| BoundedForms.CanonNodes | packages/volna-messaging-client/src/index.js:150-153 | The normal form has as many nodes as the value. |
| BoundedForms.CanonShaped | packages/volna-messaging-client/src/index.js:150-175 | The normal form is within the bounds exactly when the value is. |
| BoundedForms.CanonFixed | packages/volna-messaging-client/src/index.js:163-174 | Normalising a normal form changes nothing. |
| BoundedForms.BoundedFormFixed | packages/volna-messaging-client/src/index.js:150-175 | Accepted metadata normalises to JSON that is accepted and normalises to itself. |
| ContentMeaning.NormalizeExact | packages/volna-messaging-client/src/index.js:137-254 | The normaliser returns an event if and only if the event is what the properties of the input say: which properties there may be, the pattern, length or range of each, and how each is read. |
| ContentMeaning.FoldIsLines | packages/volna-messaging-client/src/index.js:142 | A text is folded to the one text whose lines at line feeds are its lines at CR LF, CR and LF. |
| ContentMeaning.PrintedEvent | packages/volna-messaging-client/src/index.js:177-260 | An accepted event is printed with its properties, those of the attachment and those of the metadata in this order, and says itself again. |
| ContentMeaning.DecodeExact | packages/volna-messaging-client/src/index.js:262-271 | The decoder returns an event if and only if the text has at most 65536 bytes and is JSON that says it. |
| ContentFaults.EventFault | packages/volna-messaging-client/src/index.js:137-260 | An event is refused with the code of the first rule that it breaks, in the order of the source. |
| ContentFaults.DecodeFault | packages/volna-messaging-client/src/index.js:262-271 | The decoder refuses for the size, for the JSON, and then as the normaliser does. |
| CheckPatterns.IdIsPattern | packages/volna-messaging-client/src/index.js:21 | The check of identifiers is the regular expression of the source. |
| CheckPatterns.HashIsPattern | packages/volna-messaging-client/src/index.js:31 | So is the check of hashes. |
| CheckPatterns.EpochIsPattern | packages/volna-messaging-client/src/index.js:22 | So is the check of epochs. |
| CheckPatterns.DateIsPattern | packages/volna-messaging-client/src/index.js:24 | So is the check of dates. |
| CheckPatterns.RoomIdIsPattern | packages/volna-messaging-client/src/matrix-engine-native.ts:54 | So is the check of room ids. |
| CheckPatterns.EventIdIsPattern | packages/volna-messaging-client/src/matrix-engine-native.ts:55 | So is the check of event ids. |
| ContentRoundTrip.NormalizeIdempotent | packages/volna-messaging-client/src/index.js:221-254 | Normalising an event twice is normalising it once, nested metadata included; what the folding of line breaks means is said by FoldIsLines. |
| ContentRoundTrip.NormalizeImage | packages/volna-messaging-client/src/index.js:221-254 | The accepted results are exactly the normal events. |
| ContentRoundTrip.EventFixed | packages/volna-messaging-client/src/index.js:177-254 | Every normal event passes the normaliser unchanged. |
| ContentRoundTrip.EventNormal | packages/volna-messaging-client/src/index.js:177-254 | Whatever the normaliser returns is a normal event. |
| ContentRoundTrip.AttachmentFixed | packages/volna-messaging-client/src/index.js:177-219 | Every normal attachment of the three kinds passes its normaliser unchanged. |
| ContentSize.EncodeDecode | packages/volna-messaging-client/src/index.js:256-271 | decodeContentEvent(encodeContentEvent(e)) equals normalizeContentEvent(e) for every accepted event. |
| ContentSize.EncodeSucceeds | packages/volna-messaging-client/src/index.js:256-260 | Every event that normalises also encodes: the 64 KiB check never fires. |
| ContentSize.EventFits | packages/volna-messaging-client/src/index.js:221-260 | The size bound behind it, from 32 KiB of attachment, 1000 units of text at six bytes each and the bounded rest. |
| ContentSize.AttachmentFits | packages/volna-messaging-client/src/index.js:177-219 | No accepted attachment prints to more than 32 KiB, the unmeasured location included. |
| ContentSize.EncodeInjective | packages/volna-messaging-client/src/index.js:256-260 | Two events have the same wire form exactly when they have the same normal form. |
| Base64Url.RejectsTheRest | packages/volna-messaging-client/src/index.js:318-327 | A string is accepted if and only if it is the unpadded encoding of a non-empty byte sequence (sections 5 and 3.5 of RFC 4648). |
| Base64Url.Alphabet | packages/volna-messaging-client/src/index.js:322-325 | The alphabet, letter by letter. |
| Base64Url.AcceptsExactlyEncodings | packages/volna-messaging-client/src/index.js:318-327 | The byte sequence is unique, and the returned length is its length. |
| Base64Url.EncodeAccepted | packages/volna-messaging-client/src/index.js:318-327 | Every encoding is accepted with its length and decodes to its bytes. |
| Base64Url.AcceptedDecodes | packages/volna-messaging-client/src/index.js:318-327 | Every accepted string encodes what it decodes to. |
| Base64Url.Base64UrlToBytes | packages/volna-messaging-client/src/mls-runtime.mjs:186-211 | The bit-accumulating decoder accepts exactly the canonical strings within the limit and returns their bytes. |
| CanonicalTexts.AadExact | packages/volna-messaging-client/src/index.js:273-316 | An envelope is accepted if and only if it keeps these rules, and its additional data reads back as the array of these properties in this order, null for the absent ones. |
| CanonicalTexts.TransferExact | packages/volna-messaging-client/src/index.js:363-407 | The same for the draft of a device transfer, with the trimmed name and the capabilities ascending and without repetition. |
| CanonicalTexts.RegistrationExact | packages/volna-messaging-client/src/index.js:658-681 | The same for a registration proof. |
| CanonicalTexts.AuthorizationExact | packages/volna-messaging-client/src/index.js:683-702 | The same for a device authorization. |
| CanonicalTexts.ReceiptExact | packages/volna-messaging-client/src/index.js:86-135 | The same for a receipt of the key directory, with the dates as instants. |
| CanonicalTexts.RosterExact | packages/volna-messaging-client/src/index.js:556-592 | The same for a roster: the rows of its members, each once, in the order of the devices. |
| CanonicalTexts.TrimIs | packages/volna-messaging-client/src/index.js:376 | A trimmed name is the text without the white space around it. |
| Ordering.BeforeIsLess | packages/volna-messaging-client/src/index.js:389 | The order of strings is the one of their first different code units. |
| Faults.AadFault | packages/volna-messaging-client/src/index.js:273-300 | An envelope is refused with the code of the first rule that it breaks. |
| Faults.TransferFault | packages/volna-messaging-client/src/index.js:363-391 | So is the draft of a transfer, |
| Faults.RegistrationFault | packages/volna-messaging-client/src/index.js:658-681 | a registration proof, |
| Faults.AuthorizationFault | packages/volna-messaging-client/src/index.js:683-702 | a device authorization, |
| Faults.ReceiptFault | packages/volna-messaging-client/src/index.js:86-122 | a receipt, |
| Faults.RosterFault | packages/volna-messaging-client/src/index.js:556-580 | and a roster, with the error of its first bad member. |
| CanonicalInjectivity.CanonicalBytesInjective | packages/volna-messaging-client/src/index.js:86-135 | The six canonical encodings: equal bytes exactly when the normal forms are equal, and no two kinds collide. |
| CanonicalInjectivity.CapabilitiesAreASet | packages/volna-messaging-client/src/index.js:363-391 | A capability list counts as a set: order and duplicates disappear, and nothing else does. |
| CanonicalInjectivity.CapabilitiesSorted | packages/volna-messaging-client/src/index.js:363-391 | The printed capability list is in code-unit order, has no duplicates, and has the elements that were given. |
| CanonicalInjectivity.RosterIsASet | packages/volna-messaging-client/src/index.js:556-592 | Two accepted rosters have the same canonical text exactly when they list the same members, in any order and for any total order of devices. |
| CanonicalInjectivity.AadBinds | packages/volna-messaging-client/src/index.js:273-316 | Two envelopes have the same additional data exactly when all bound properties agree, absent and null counting as one. |
| CanonicalInjectivity.TransferBinds | packages/volna-messaging-client/src/index.js:363-407 | Two transfer drafts have the same canonical text exactly when they agree on every bound property. |
| CanonicalInjectivity.RegistrationBinds | packages/volna-messaging-client/src/index.js:636-681 | The same for registration proofs. |
| CanonicalInjectivity.AuthorizationBinds | packages/volna-messaging-client/src/index.js:683-702 | The same for device authorizations. |
| CanonicalInjectivity.ReceiptBinds | packages/volna-messaging-client/src/index.js:86-135 | The same for key directory receipts, whose dates count by the instant that they print as. |
| CanonicalInjectivity.ReceiptValid | packages/volna-messaging-client/src/index.js:86-135 | An accepted receipt has a form that JSON can print. |
| EntryTexts.GateIsReal | packages/volna-key-transparency-log/main.go:77-124 | The gate accepts a body if and only if it is the text of a real entry, letter by letter, and returns it unchanged; an entry is real with 64-bit generations, hashes, a count of 1 to 100000 and a millisecond of the Gregorian calendar. |
| EntryTexts.TimeIsReal | packages/volna-key-transparency-log/main.go:112-115 | The calendar of the gate is the one that counts days. |
| Calendar.DateOf | packages/volna-key-transparency-log/main.go:112-115 | Each day of the years 0 to 9999 has exactly one date, by a closed form without a table of months. |
| Calendar.DatesInOrder | packages/volna-key-transparency-log/main.go:112-115 | Day numbers are in the order of the dates. |
| Calendar.MonthLength | packages/volna-key-transparency-log/main.go:112-115 | From the closed form: the lengths of the months, and the leap years. |
| Calendar.Cycle | packages/volna-key-transparency-log/main.go:112-115 | Four hundred years are 146097 days. |
| TransparencyGate.GateIsExact | packages/volna-key-transparency-log/main.go:77-124 | The gate accepts a byte string if and only if it is the JSON text of a valid entry, and returns it unchanged. |
| TransparencyGate.PrintedEntryPasses | packages/volna-key-transparency-log/main.go:77-124 | Every printing of a valid entry passes. |
| TransparencyGate.PassedIsPrinted | packages/volna-key-transparency-log/main.go:90-123 | Whatever passes is the printing of the entry that it describes. |
| TransparencyGate.PrintedEntryFits | packages/volna-key-transparency-log/main.go:78-80 | The 2048-byte limit and the whitespace check reject no valid entry. |
| TransparencyGate.PrintedEntryInjective | packages/volna-key-transparency-log/main.go:116-123 | Two valid entries never share a text. |
| TransparencyGate.TimeRoundTrip | packages/volna-key-transparency-log/main.go:112-115 | Parsing inverts formatting on every real calendar millisecond. |
| TransparencyGate.GenerationExact | packages/volna-key-transparency-log/main.go:93-96 | A generation passes exactly when it is the decimal of a uint64 other than zero, without leading zeros. |
| TransparencyGate.DecodeFields | packages/volna-key-transparency-log/main.go:81-86 | The decoder of the struct reads every member back from the printed object. |
| UploadRuns.EachPartOnce | apps/mobile/src/domain.ts:727-739 | Under any schedule parts are claimed in plan order, each once, and sent to the address of the plan; at most four are in flight, and no part is in flight and received at the same time. |
| UploadRuns.CompletesWithEveryPart | apps/mobile/src/domain.ts:732-736 | The complete call carries a permutation of all parts, and the recorded progress is then the file size. |
| UploadRuns.CompletesWithItsAnswers | apps/mobile/src/domain.ts:717-736 | The complete call sends for each part the ETag with which its own request was answered, in the order of the answers, one receipt for each. |
| UploadRuns.SlicesTile | apps/mobile/src/domain.ts:707-709 | The slices tile the file: every byte is in the slice of exactly one part. |
| UploadRuns.SlicesDisjoint | apps/mobile/src/domain.ts:707-709 | Slices of different parts have no byte in common, for any plan. |
| UploadRuns.ProgressBounded | apps/mobile/src/domain.ts:711-714 | Recorded progress never exceeds the file as long as no event reports more than its body. |
| UploadRuns.SettlesIff | apps/mobile/src/domain.ts:732-746 | While an upload runs it can be aborted if and only if a request has failed, and completed if and only if all workers have left, which they only do without a failure. |
| UploadRuns.ResultIff | apps/mobile/src/domain.ts:732-748 | An upload counts as complete if and only if the complete call was answered well, and is aborted if and only if a part has failed or that call was answered badly. |
| UploadRuns.NumberedIff | apps/mobile/src/domain.ts:702-709 | The premise of these theorems: the numbers of the plan are 1 to n in some order, |
| UploadRuns.CoversIff | apps/mobile/src/domain.ts:707-709 | and every byte of the file is in a slice. |
| UploadRuns.CanComplete | apps/mobile/src/domain.ts:727-739 | From every state of every run in which nothing has failed the upload can still complete: no schedule blocks it. |
| UploadRuns.FailureNeverCompletes | apps/mobile/src/domain.ts:733-740 | Once a part has failed the complete call is never made, whatever the other workers still upload. |
| UploadRuns.ResultIsFinal | apps/mobile/src/domain.ts:733-748 | A completed upload is never aborted, and an aborted one never completed. |
| UploadPool.MultipartUpload.NextPart | apps/mobile/src/domain.ts:727-731 | The check and the increment of the shared cursor are one step. |
| UploadPool.MultipartUpload.OnProgress | apps/mobile/src/domain.ts:711-714 | The part's entry is overwritten, and the reported fraction is the sum over the size. |
| UploadPool.MultipartUpload.OnLoad | apps/mobile/src/domain.ts:717-724 | A bad status or a missing ETag rejects; otherwise the part is recorded with its body size. |
| UploadPool.MultipartUpload.Percent | apps/mobile/src/domain.ts:713 | The reduction is the sum of all entries. |
| UploadPool.MultipartUpload.OnError | apps/mobile/src/domain.ts:715-716 | A failed request ends its worker and keeps its part from being recorded. |
| UploadPool.MultipartUpload.FinishComplete | apps/mobile/src/domain.ts:734-746 | A rejected complete call aborts the upload. |
| UploadPool.MultipartUpload.Settle | apps/mobile/src/domain.ts:733-748 | Complete with what was received if no worker failed, abort otherwise. |

## Left out

- Unicode.TextOf: rejects malformed UTF-8, where TextDecoder would replace it by U+FFFD, and keeps a byte order mark, which TextDecoder drops; documents that the client wrote are always well formed.
- JsonNumbers.ReadFloat: keeps all decimal digits of a number, where JSON.parse rounds to the nearest double; negative zero is zero.
- OutboxMeaning.LoadExact: for slots that open to numbers within the precision of a double, see JsonNumbers.ReadFloat; so does ContentMeaning.DecodeExact.
- BoundedJson.NormalizeBoundedJson: an object that contains itself, a sparse array and an integer-like key (which JavaScript moves to the front) are not values of the model.
- CanonicalInjectivity.RosterIsASet: localeCompare is a parameter, any total order of device ids.
- CanonicalInjectivity.ReceiptBinds: the printing of a date as an instant is a parameter; so is Date.parse in ContentEvent.Normalize.
- SealedStore.SealRoundTrip: XChaCha20-Poly1305 is a pair of functions with the law that opening inverts sealing and the tag takes 16 bytes; confidentiality is not modelled.
- OutboxRuns.Linearisable: one account with one queue; the maps of locks by account are independent copies.
- OutboxRuns.OneRecordPerId: a save that is over the byte limit is one of the failures that may happen at any write, and is exact only in SealedStore.
- DeliveryRuns.NothingIsLost: for one account without logout, which deletes both queues on purpose; closing a handle counts as a crash.
- DeliverySends.SubmitSafety: the bind is that of the same submit; others may bind the room again in the meantime. A native send that succeeds but reports a failure counts as failed.
- Handover.OpenHandsOver: for queued snapshots with a boolean cursor; one without it replaces an older one in the queue and is then refused by the commit test. RefreshHandsOver has the same limit.
- DeliveryAgain.AskedAgainIff: a flush may start at any moment of a running process, where the client starts one at boot and behind each acknowledgement; an echo of an id may come at any moment and any number of times once its native call has begun, in this process or an earlier one; the continuations that it speaks of may use both.
- DeliveryTwice.ReachableDuplicateGoesOutTwice: a store call may fail at any time, and room in a queue is counted in records; the byte limit is one of the failures, so "can" is about records small enough for it. The same holds for DeliveryAgain.AskedAgainIff, DeliveryAgain.SendAsksIff and OutboxOrder.LineIsRun.
- OutboxStore.QueuedRecordReadsIff: the thread id is well formed because normalizeThread of the surface controller (packages/volna-messaging-client/src/messaging-surface-controller.mjs:371) checks it; that module is not part of this model.
- Handover.QueueKeepsNewest: for at most two timelines; HoldKeepsIff says what a third one does.
- EndToEnd.ViewShowsItsRevision: the projection of items to events is a parameter, and the optimistic local records that are appended to the view are not modelled.
- EndToEnd.ViewShowsItsRevisionOrNothing: the same.
- TransparencyGate.GateIsExact: Go matches member names without regard to case on all of Unicode and merges repeated members into the first; the model folds ASCII letters and lets a repeated member keep its place and take the new value. Either way the final comparison rejects everything but the canonical text.
- TransparencyGate.DecodeFields: bytes above 0x7F are code units of their own, because no canonical text has any.
- UploadRuns.CompletesWithEveryPart: part numbers 1 to n in any order and parts that reach the end of the file (NumberedIff, CoversIff) are what the server promises; the code does not check it.
- Other normalisers of the contract (envelopes, key packages, activation, transfer sessions and chunks): the same checks on other records.
- parseCheckpoint, the handlers, the Merkle log and its witnesses: the log library is not part of this model.
- HTTP requests, login, token refresh, push registration, timers and the user interface: plumbing around the protocols.
- Room security, cross-signing, recovery keys and verification by emoji: cryptography of libraries that are not part of this model.
- Regular expressions for profanity, names and links, genre tables and labels: finite tables.
