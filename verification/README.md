# Verification of the blob relay's session store

The server keeps uploaded blobs as files in one directory. Sessions own the files, a quota bounds their total
size, and an index leads from a transaction to its session. Uploads and downloads are gRPC streams. This project
models that core in Dafny and proves what it keeps, for single operations, for whole runs of operations, and for
every interleaving of threads that take one step at a time. `dafny verify dfyconfig.toml` checks everything.

## How the modules fit together

- `Words`, `Wrappers`, `Sums`: 64-bit arithmetic, options, sums over finite maps.
- `Naming`: the names of blob files and how they are read back.
- `BlobSessions`: the shared state (counter, sessions, index, files) and each indivisible action on it.
  `Streaming` adds `Put` and `Get` as sequential operations. These two are the specification layer.
- `SessionObjects` and `StreamingObjects`: the server's classes with their mutable fields and loops. Each method is
  proved to change the shared state, and to answer, as the specification layer says.
- `Removal`, `Uploads`, `Downloads`: one operation at a time. `Runs` and `Delivery`: any number of them.
- `TransactionIndex`: the index over every history. `IndexRuns`: the same in every interleaving.
- `ReserveLoop`: load, compare and exchange as separate steps of many threads, and the atomic counter it refines.
- `Interleaving`: the whole server as threads with program counters: a step is one access to the counter, to a
  session's map, to the manager's maps, to an id counter or to a file. `Threads`, `Books` and `DiskUse` prove the
  invariant, `Schedules` and `Losses` the theorems about every run, `Discipline` what holds when callers behave,
  `Overtaking` and `LateUpload` runs in which they do not, `Progress` who waits for whom. `Entries` says what a step can do to entries and files;
  `LeftBehind` which files a run leaves in the store, `EmptyStore` when there are none and `Crossing` that less will
  not do. `Contents` says what the file of an upload holds, `Charges` what its entry is charged with, and `Lookups`
  what `Get` sends when things change between its lookups, with a run in `VanishedFile` and every status in `Answers`.
  `Projection` shows that the server's reservations are runs of
  `ReserveLoop`, and `Solo` that an undisturbed thread does what the sequential model says.
- `LogPrefix`: the log prefix computed from a pretty function name. `TestClient` and `EndToEnd`: the client of the
  end-to-end tests, alone and against the server.

## What the code does that one might not expect

- `blobs_.at` can throw after the store has granted, so a removal that overtakes an upload of the same blob loses
  the grant for good: `Overtaking` gives the run, `Losses` the exact amount, `Discipline` the condition under which
  it cannot happen.
- The counter comparison wraps at 2^64. It is exact precisely when quota plus request do not reach 2^64, and the
  theorems about runs assume that of every chunk.
- The size-mismatch exit removes the file and keeps the charged entry; the exit for a message that is not a chunk
  keeps both. `Uploads.PutOutcome` has all exits side by side.
- `Put` returns a tag of one kind and `Get` expects a tag of another. A reference handed out by `Put` opens its blob
  exactly if the two happen to agree (or the mock tag is accepted).
- Two sessions may carry one transaction. The index then names the older one, and disposing either of them removes
  the entry. It is the inverse of the live transactions exactly when no such pair was ever created.
- A quota of 0 means unlimited: the counter stays at 0 while entries are still charged.
- A chunk size of 0 makes `Get` send the length and no bytes.
- The comment on `location_prefix` (lines 58 to 61 of the header) promises letters, digits, `_`, `-` and `:` only.
  The code drops brackets and what they enclose and joins colons, and lets every other character through: the prefix
  of `S::~S` is `S:~S`. `LogPrefix.PromiseIsKeptExactlyWhen` says for which names the promise holds.
- An upload that starts after a disposal has listed the session's blobs and ends before the session is gone stays
  charged and on disk with nobody to give it back: `LateUpload` gives the run, `LeftBehind` says exactly when the
  store ends up empty.
- A removal that crosses an upload of the same blob can leave its file in the store even if the upload is over when
  the entry is erased: `Crossing` gives the run, `EmptyStore` a rule for callers that keeps the store clean.
- A file that is moved away after `Get` has measured it and before it is opened makes a successful reply that announces
  bytes and sends none: `VanishedFile` gives the run, `Lookups` what keeps it from happening.
- The test client's comparison turns down correct files whose last buffer runs over the end of the reference
  period, the smallest being 54 bytes long.

## Assumptions

- Id counters do not wrap. Writes, once a file is open, succeed and reach the file at once; the code's stream buffer
  only delays them. Opening a file may fail.
- The canonical form of a path given to `add` is whatever the file system says, but does not lie in the store
  directory; nor do files created from outside. Files may be moved away at any time.
- `Get` reads a file, once open, as it is at that moment.
- An object in use by a call is not destroyed during the call: the last step of a disposal waits until no other
  thread refers to the session. Disposal may otherwise overlap anything. The code does not wait there: of two disposals
  of one session at once, which block each other here, one would destroy the object under the other.
- Tags and data store paths are arbitrary functions of their arguments.
- Sizes of literals in the logging helper fit an `int`.

## Model

| member | source | states |
|---|---|---|
| ReserveLoop.StepRefines | server/include/data_relay_grpc/common/detail/session_store.h:71-89 | each load, comparison, exchange (won or lost) and subtraction is one enabled step of an atomic "add if it fits, else refuse", or no step of it; a grant happens at the exchange that wins |
| ReserveLoop.RunRefines | server/include/data_relay_grpc/common/detail/session_store.h:71-89 | every run of any number of calls, one step at a time, is a run of that atomic counter over the same counter values and the same answers, in plain arithmetic |
| ReserveLoop.RefusalIsJustified | server/include/data_relay_grpc/common/detail/session_store.h:73-77 | a refused call saw a value that the counter really held during that call and under which the request does not fit |
| ReserveLoop.FailuresAreBounded | server/include/data_relay_grpc/common/detail/session_store.h:73-81 | lock-free progress: the failed exchanges of one call are at most the changes other threads made to the counter during it |
| Uploads.ReserveIsExact | server/include/data_relay_grpc/common/detail/session_store.h:75-79 | the wrapped 64-bit comparison decides as plain arithmetic would if and only if counter plus request stay below 2^64 |
| Uploads.NoWrapIsNeeded | server/include/data_relay_grpc/common/detail/session_store.h:75-79 | requests of a size are decided exactly for every counter within the quota if and only if quota plus size stay below 2^64 |
| SessionObjects.ReserveAmongIsJust | server/include/data_relay_grpc/common/detail/session_store.h:71-84 | whatever other threads write to the counter before each exchange, the answer is right for a value the counter held, and a grant adds to exactly that value |
| Projection.StepProjects | server/src/data_relay_grpc/common/detail/session_impl.cpp:72-95 | every step of the whole server is an enabled step of the reserve loop on the store, or leaves the store alone |
| Projection.ReservationsAreAtomic | server/src/data_relay_grpc/common/detail/session_impl.cpp:88-95 | in every run of the whole server each reservation takes effect at one instant, as the atomic counter prescribes |
| Threads.StepKeepsThreads | server/src/data_relay_grpc/common/detail/session_impl.cpp:26-95 | mutual exclusion per session, ids drawn once, entries and paths a thread relies on still there, no denial: kept by every step of every thread |
| Books.StepKeepsBooks | server/src/data_relay_grpc/common/detail/session_impl.cpp:72-95 | every step of every thread keeps the counter balanced against charges, grants, releases and losses, and within the quota |
| DiskUse.StepKeepsDisk | server/src/data_relay_grpc/blob_relay/streaming_service.cpp:175-205 | every step keeps each store file paid for by one entry whose charge covers it, write after reserve and release before unlink included |
| DiskUse.DiskWithinAccounts | server/src/data_relay_grpc/blob_relay/streaming_service.cpp:187-194 | in every sound state the bytes in the store directory are at most the counter plus the releases under way |
| Schedules.InitialIsSound | server/src/data_relay_grpc/common/detail/session_manager.cpp:25-27 | a newly constructed manager, its store directory cleared, satisfies the whole invariant |
| Schedules.StepKeepsInv | server/src/data_relay_grpc/common/detail/session_impl.cpp:26-95 | the invariant of threads, books and disk survives every step, and in it no enabled step touches a session or entry that is gone |
| Schedules.RunKeepsInv | server/src/data_relay_grpc/common/detail/session_impl.cpp:26-95 | hence it holds in every state of every run, and the quota never changes |
| Schedules.CounterIsExact | server/src/data_relay_grpc/common/detail/session_impl.cpp:72-95 | in every interleaving the counter is within the quota and equals charges plus grants not yet charged minus releases not yet erased plus losses; without a quota it stays 0 |
| Schedules.ReleaseNeverUnderflows | server/include/data_relay_grpc/common/detail/session_store.h:85-89 | in every sound state no subtraction about to be made exceeds the counter |
| Schedules.DiskNeverOutruns | server/src/data_relay_grpc/blob_relay/streaming_service.cpp:187-194 | in every interleaving store bytes are at most counter plus pending releases, and at most the counter and the quota whenever all threads are between calls |
| Schedules.BlobIdsAreFresh | server/src/data_relay_grpc/common/detail/session_impl.cpp:26-50 | in every interleaving blob ids are bounded, in one session only, never drawn twice, unused until inserted, so `find` never returns another session's blob |
| Schedules.TransactionGetIsNeverDenied | server/src/data_relay_grpc/blob_relay/streaming_service.cpp:39-64 | the two denials for a missing or different transaction are unreachable in every interleaving, a disposal between the two lookups included: the call goes on exactly if the session found is still there |
| Losses.LossesAreTold | server/src/data_relay_grpc/common/detail/session_impl.cpp:90-91 | the bytes lost are exactly those granted to ids whose entry was gone, plus the charges destroyed with a session, summed over the run |
| Losses.CounterIsAccountedFor | server/src/data_relay_grpc/common/detail/session_impl.cpp:72-95 | in every interleaving under a quota: counter = charges + grants not yet charged - releases not yet erased + bytes granted to erased ids + charges destroyed with sessions |
| Losses.QuietCounterIsChargesExactlyWhen | server/src/data_relay_grpc/common/detail/session_impl.cpp:72-95 | between calls the counter is the sum of the charges if and only if the run lost nothing |
| Overtaking.CounterCanStayTooHigh | server/src/data_relay_grpc/common/detail/session_impl.cpp:88-95 | a concrete run (quota of one byte, one upload, one removal) after which nothing is stored, all threads are idle and the counter stands at the quota |
| LateUpload.DisposalCanLeaveAll | server/src/data_relay_grpc/common/detail/session_impl.cpp:37-42 | a concrete run: an upload that starts after a disposal has listed the blobs and ends before the session goes leaves its charge on the counter and its file in the store, with no session left |
| LeftBehind.StoreFilesAreExplained | server/src/data_relay_grpc/common/detail/session_impl.cpp:72-82 | in every interleaving each store file belongs to a live entry or was left behind by a step that opened it after its entry had gone, erased the entry while the file was back, or destroyed its session |
| LeftBehind.StoreIsEmptyExactlyWhen | server/src/data_relay_grpc/common/detail/session_impl.cpp:37-42 | once all sessions are disposed, in whatever interleaving, the store is empty if and only if no such step was taken, apart from files taken back since |
| EmptyStore.NothingStays | server/src/data_relay_grpc/common/detail/session_impl.cpp:72-95 | if no blob is deleted while another thread uploads it, and sessions are disposed considerately, no file is ever left behind and no grant or charge lost, in any interleaving |
| EmptyStore.AllIsGivenBack | server/src/data_relay_grpc/common/detail/session_impl.cpp:37-42 | hence, in every such interleaving, when no session is left the store is empty and the counter back at zero |
| Crossing.CrossingLeavesAFile | server/src/data_relay_grpc/common/detail/session_impl.cpp:72-82 | a concrete run that keeps both disciplines of `Discipline` and leaves a file with no session: an upload opens its file after a removal has unlinked it and ends before the entry is erased |
| Charges.ChargeIsWhatWasTaken | server/src/data_relay_grpc/blob_relay/streaming_service.cpp:187-194 | in every interleaving, between messages and once an upload has ended well, the charge of its entry, if it still has one, is exactly the bytes taken from the stream modulo 2^64, and under a quota exactly the bytes |
| Contents.StreamIsOnDisk | server/src/data_relay_grpc/blob_relay/streaming_service.cpp:187-194 | in every interleaving, while nobody removes the blob or moves its file, the file holds at each point of the receive loop exactly the chunks taken so far, in order |
| Contents.FinishedUploadStays | server/src/data_relay_grpc/blob_relay/streaming_service.cpp:187-211 | and once the upload has ended well it stays so, under the path of every entry of that id |
| Contents.FinishedUploadIsDelivered | server/src/data_relay_grpc/blob_relay/streaming_service.cpp:109-134 | and whoever asks for it gets exactly those bytes, well cut |
| Lookups.StillGet | server/src/data_relay_grpc/blob_relay/streaming_service.cpp:21-145 | with nothing going on in between, `Get` with its lookups apart is the sequential `Get` |
| Answers.AnswerExactlyWhen | server/src/data_relay_grpc/blob_relay/streaming_service.cpp:21-145 | with each lookup in a state of its own: each status if and only if, from those states and the request alone, and what is sent |
| Lookups.DeniedForTheTagOnly | server/src/data_relay_grpc/blob_relay/streaming_service.cpp:39-107 | in every interleaving, whatever happens between the lookups of one call, access is denied for nothing but the tag |
| Lookups.FoundBlobIsDelivered | server/src/data_relay_grpc/blob_relay/streaming_service.cpp:66-134 | in every interleaving, a finished blob that is found, passes the tag and is spared until it is read arrives exactly, whatever else happens between the lookups |
| Lookups.SizeFitsExactlyWhen | server/src/data_relay_grpc/blob_relay/streaming_service.cpp:109-134 | the announced size fits the bytes sent if and only if the file is as long when read as when measured |
| Lookups.VanishedFileReadsEmpty | server/src/data_relay_grpc/blob_relay/streaming_service.cpp:109-134 | a file that goes in between makes an OK reply that announces bytes and sends none |
| Lookups.SizeFitsUnlessTouched | server/src/data_relay_grpc/blob_relay/streaming_service.cpp:109-134 | in every interleaving, an OK reply for the file of an upload delivers what it announces, as long as no step between measuring and reading opens, writes to, withdraws or removes that file |
| VanishedFile.DownloadCanComeUpShort | server/src/data_relay_grpc/blob_relay/streaming_service.cpp:109-134 | with every configuration, a concrete run and lookups along it whose reply is OK, announces one byte and sends none |
| Discipline.NothingLeaks | server/src/data_relay_grpc/common/detail/session_impl.cpp:88-95 | if no removal erases an entry that is still being uploaded to, no granted byte is ever lost, in any interleaving |
| Discipline.NothingIsOrphaned | server/src/data_relay_grpc/common/detail/session_impl.cpp:37-42 | if sessions are disposed only when no other call uses them, no entry ever goes down with its session |
| Discipline.CounterIsChargesExactly | server/src/data_relay_grpc/common/detail/session_impl.cpp:72-95 | under both disciplines the counter is charges plus grants not yet charged minus releases not yet erased, with no other term |
| Progress.StuckExactlyWhen | server/src/data_relay_grpc/common/detail/session_impl.cpp:26-95 | calls are under way and none can go on if and only if each of them is a disposal about to destroy its session while another call uses it; no mutex ever blocks the server |
| Progress.NeverStuck | server/src/data_relay_grpc/common/detail/session_impl.cpp:37-42 | if sessions are disposed considerately, some call can always go on, in any interleaving |
| Progress.DisposalsCanBlock | server/src/data_relay_grpc/common/detail/session_impl.cpp:37-42 | concretely, two disposals of one session at once, each using what the other is to destroy |
| Solo.SoloReserve | server/include/data_relay_grpc/common/detail/session_store.h:71-84 | undisturbed, the steps of the reserve loop amount to the one-step reserve of the sequential model |
| Solo.SoloRemove | server/src/data_relay_grpc/common/session.cpp:52-70 | undisturbed, the steps of a removal lead to exactly the state of the sequential removal |
| Solo.SoloDispose | server/src/data_relay_grpc/common/detail/session_impl.cpp:37-42 | undisturbed, the steps of a disposal lead to exactly the state of the sequential disposal |
| Solo.SoloUpload | server/src/data_relay_grpc/blob_relay/streaming_service.cpp:169-215 | undisturbed, the steps of an upload lead to exactly the state and give exactly the reply, status and reference, of the sequential `Put`, whichever exit it takes |
| Solo.SoloPut | server/src/data_relay_grpc/blob_relay/streaming_service.cpp:147-216 | the same for every stream; one that never gets as far as a live session takes no step on the shared state and changes none of it |
| Solo.SoloAdd | server/src/data_relay_grpc/common/detail/session_impl.cpp:26-35 | undisturbed, the steps of `add` lead to exactly the state of the sequential `add`, found file or not |
| TransactionIndex.RegistryFollows | server/src/data_relay_grpc/common/detail/session_manager.cpp:29-57 | creating and disposing a session act on ids, transactions and index alone, by non-overwriting insertion and erasure by key |
| TransactionIndex.IndexIsExplained | server/src/data_relay_grpc/common/detail/session_manager.cpp:67-73 | for every history: the session found for t is the earliest created with t since the last effective disposal of any session carrying t; none is found exactly when there is none |
| TransactionIndex.ReplayIsSound | server/src/data_relay_grpc/common/detail/session_manager.cpp:29-57 | after every history index entries name live sessions carrying that transaction |
| TransactionIndex.InverseAfterCreate | server/src/data_relay_grpc/common/detail/session_manager.cpp:29-37 | a creation keeps the index the inverse of the live transactions if and only if no live session carries that transaction |
| TransactionIndex.InverseExactlyWhen | server/src/data_relay_grpc/common/detail/session_manager.cpp:29-57 | the index is that inverse all along a history if and only if no session was ever created with a transaction a live one carried |
| TransactionIndex.SharingLosesSession | server/src/data_relay_grpc/common/detail/session_manager.cpp:47-57 | concretely, two sessions on one transaction: after the first is disposed the second is live and not found |
| IndexRuns.HistoryIsReplayed | server/src/data_relay_grpc/common/detail/session_manager.cpp:29-57 | in every interleaving the manager's maps are those of the history of its session openings and disposals |
| IndexRuns.LookupInEverySchedule | server/src/data_relay_grpc/common/detail/session_manager.cpp:67-73 | hence the exact meaning of `get_session_id` in every state of every interleaving |
| Naming.NameReadsBack | server/include/data_relay_grpc/common/detail/session_store.h:67-70 | prefix and id are recovered from every blob file name by splitting at the last underscore, underscores in the prefix included, and the id has no zeros in front |
| Naming.PathCutsAtSlash | server/include/data_relay_grpc/common/detail/session_store.h:67-70 | cut at its last separator, the path of a blob file gives the store directory and the file name; one separator, also for a directory that ends with one |
| Naming.InStoreExactlyWhen | server/include/data_relay_grpc/common/detail/session_store.h:45-51 | a path lies below the store directory if and only if it goes on after it and a separator; a sibling with a longer name does not |
| Naming.TwelfthUpload | server/include/data_relay_grpc/common/detail/session_impl.h:112 | concretely, upload 12 of /tmp/store is /tmp/store/upload_12, and /tmp/storehouse/x is outside |
| Naming.PathsAreDistinct | server/include/data_relay_grpc/common/detail/session_store.h:67-70 | two blob paths in a directory are equal if and only if prefixes and ids are, and all lie below the directory |
| BlobSessions.AscendingIsSorted | server/include/data_relay_grpc/common/detail/session_impl.h:88-95 | the list of a session's ids has each once and in strictly ascending order |
| Removal.RemoveAllIsRemoveSet | server/src/data_relay_grpc/common/session.cpp:52-70 | `remove` over any range equals removing the set of its ids once: order, duplicates and unknown ids do not matter |
| Removal.RemoveKeepsAccounted | server/src/data_relay_grpc/common/detail/session_impl.cpp:72-82 | removals keep the counter equal to the sum of all charges and within the quota |
| Removal.DisposeIsExact | server/src/data_relay_grpc/common/detail/session_impl.cpp:37-42 | disposing lowers the counter by exactly the session's charges, deletes exactly its files, drops exactly the session |
| Uploads.ReceiveOutcome | server/src/data_relay_grpc/blob_relay/streaming_service.cpp:180-195 | the receive loop in closed form: only the bytes of the leading chunks and whether anything else follows matter |
| Uploads.PutOutcome | server/src/data_relay_grpc/blob_relay/streaming_service.cpp:175-211 | `Put` in closed form for every stream of a live session: all exits, the file that cannot be opened included, with counter, entry, charge, file and reply |
| Uploads.PutStatusExactlyWhen | server/src/data_relay_grpc/blob_relay/streaming_service.cpp:147-216 | for every stream: which status, each if and only if, from the state and the stream alone; a reference with success only |
| Uploads.RemovedUploadOutcome | server/src/data_relay_grpc/blob_relay/streaming_service.cpp:180-215 | an upload whose entry has been removed: the next chunk is its last; if granted, its bytes stay on the counter and the reply is not-found |
| Uploads.NoTraceExactlyWhen | server/src/data_relay_grpc/blob_relay/streaming_service.cpp:150-176 | a stream leaves the whole state untouched if and only if it never reaches a live session, and then fails without a reference |
| Uploads.SplittingDoesNotMatter | server/src/data_relay_grpc/blob_relay/streaming_service.cpp:180-204 | two splits of the same bytes, empty chunks included, end in the same state and reply; success exactly when they fit and the announced size agrees |
| Uploads.FailureIsGivenBack | server/src/data_relay_grpc/blob_relay/streaming_service.cpp:181-204 | after any failed upload, deleting its blob restores everything but the spent id |
| Downloads.ChunksAreExact | server/src/data_relay_grpc/blob_relay/streaming_service.cpp:121-134 | with a positive buffer the read loop sends every byte once, in order, in ceil(length/size) nonempty pieces, all full but perhaps the last |
| Downloads.BytesArriveExactlyWhen | server/src/data_relay_grpc/blob_relay/streaming_service.cpp:121-134 | the bytes arrive if and only if the buffer is positive or there are none |
| Downloads.GetOutcome | server/src/data_relay_grpc/blob_relay/streaming_service.cpp:93-140 | for a blob that is there, `Get` sends it if the tag passes and is denied otherwise |
| Downloads.StatusExactlyWhen | server/src/data_relay_grpc/blob_relay/streaming_service.cpp:21-145 | for every request: each of the six statuses if and only if, among them not-found for an unknown transaction, a missing entry, a missing data store file and an entry whose file is gone; nothing is sent unless OK |
| Downloads.LedToIsDelivered | server/src/data_relay_grpc/blob_relay/streaming_service.cpp:109-134 | whichever file a request leads to, an entry's or the data store's, length and bytes are delivered exactly |
| Downloads.AddOutcome | server/src/data_relay_grpc/common/detail/session_impl.cpp:26-35 | `add` returns the id of the entry it made, under the canonical path, an id of no entry before, and changes no other entry; for a missing file only an id is spent |
| Downloads.AddedIsDelivered | server/src/data_relay_grpc/blob_relay/streaming_service.cpp:66-134 | a download by the id `add` returned sends the file |
| Downloads.RoundTrip | server/src/data_relay_grpc/blob_relay/streaming_service.cpp:109-134 | for every accepted stream and positive chunk size, `Get` with a passing tag delivers length and bytes exactly |
| Downloads.OwnReferenceOpensExactlyWhen | server/src/data_relay_grpc/blob_relay/streaming_service.cpp:206-209 | the reference `Put` returns opens its blob if and only if its tag passes as the one `Get` computes |
| Runs.StartIsSound | server/include/data_relay_grpc/common/detail/session_store.h:28-52 | the cleared store satisfies the sequential invariant, whatever the directory held |
| Runs.PutKeepsInv | server/src/data_relay_grpc/blob_relay/streaming_service.cpp:147-216 | every upload, however it ends, keeps the sequential invariant |
| Runs.OperationKeepsInv | server/src/data_relay_grpc/common/detail/session_impl.cpp:26-95 | so does every operation of the server and every allowed change from outside |
| Runs.RunKeepsInv | server/src/data_relay_grpc/common/detail/session_impl.cpp:26-95 | and every run of operations over any number of sessions |
| Runs.OwnerIsUnique | server/include/data_relay_grpc/common/detail/session_store.h:67-70 | no store file belongs to two entries |
| Runs.DiskWithinQuota | server/src/data_relay_grpc/blob_relay/streaming_service.cpp:187-194 | between operations store bytes are at most the counter, which is at most the quota |
| Runs.DisposingAllEmpties | server/src/data_relay_grpc/common/detail/session_impl.cpp:37-42 | disposing all live sessions, in any order and with repetitions, ends any run with counter 0 and no file in the store |
| Delivery.UploadIsHeld | server/src/data_relay_grpc/blob_relay/streaming_service.cpp:180-211 | a successful upload is held by its session under the next id, byte for byte |
| Delivery.RunSpares | server/src/data_relay_grpc/common/detail/session_impl.cpp:72-82 | an upload stays what it is through every run that neither removes it nor disposes its session nor moves its file |
| Delivery.RoundTripAcrossRuns | server/src/data_relay_grpc/blob_relay/streaming_service.cpp:109-134 | upload, any such run, download: the bytes come back exactly |
| Delivery.FirstOnesFit | server/src/data_relay_grpc/blob_relay/streaming_service.cpp:187-192 | of uploads of one size B > 0, each to a session of its own choice, exactly the first floor((quota - usage)/B) succeed and all later ones are refused |
| SessionObjects.OpenStore | server/include/data_relay_grpc/common/detail/session_store.h:28-52 | the construction of the store: it succeeds exactly if the path is a writable directory all of whose files can be removed, and then leaves none; each exception has its condition; files elsewhere are never touched |
| SessionObjects.ObjectionExactlyWhen | server/include/data_relay_grpc/common/detail/session_store.h:31-42 | each refusal if and only if: not there, not a directory, not writable; none exactly for a writable directory |
| SessionObjects.SessionStore.Reserve | server/include/data_relay_grpc/common/detail/session_store.h:71-84 | the compare-exchange loop, others writing the counter before each exchange, ends, with counter and answer as the specification says |
| SessionObjects.SessionStore.Remove | server/include/data_relay_grpc/common/detail/session_store.h:85-89 | the wrapped subtraction, under a quota only |
| SessionObjects.BlobSession.Find | server/include/data_relay_grpc/common/detail/session_impl.h:76-82 | the path of the session's own entry, if there is one |
| SessionObjects.BlobSession.Entries | server/include/data_relay_grpc/common/detail/session_impl.h:88-95 | the ids of the session, each once, in strictly ascending order |
| SessionObjects.BlobSession.Add | server/src/data_relay_grpc/common/detail/session_impl.cpp:26-35 | the new shared state and answer are those of the sequential model: the canonical path is recorded, and the id is spent even when the file is missing |
| SessionObjects.BlobSession.CreateBlobFile | server/src/data_relay_grpc/common/detail/session_impl.cpp:44-50 | same, for a new upload entry under its store path |
| SessionObjects.BlobSession.ReserveSessionStore | server/src/data_relay_grpc/common/detail/session_impl.cpp:88-95 | same, for reserve-then-charge, the lost grant of a missing entry included |
| SessionObjects.BlobSession.DeleteBlobFile | server/src/data_relay_grpc/common/detail/session_impl.cpp:72-82 | same, for release, unlink and erase; nothing happens for an unknown id |
| SessionObjects.BlobSession.Remove | server/src/data_relay_grpc/common/session.cpp:52-70 | the loop over any range of ids has the effect of the specification |
| SessionObjects.BlobSession.Dispose | server/src/data_relay_grpc/common/detail/session_impl.cpp:37-42 | the loop over the snapshot of ids and the manager's disposal together have the effect of the specification |
| SessionObjects.SessionManager.constructor | server/src/data_relay_grpc/common/detail/session_manager.cpp:25-27 | an empty manager over its store |
| SessionObjects.OpenManager | server/src/data_relay_grpc/common/detail/session_manager.cpp:25-27 | the server starts with no session, a counter of zero and an empty store, or not at all, on exactly the conditions of the store |
| SessionObjects.SessionManager.NewBlobId | server/src/data_relay_grpc/common/detail/session_manager.cpp:83-85 | the next id |
| SessionObjects.SessionManager.CreateSession | server/src/data_relay_grpc/common/detail/session_manager.cpp:29-37 | a new live session under the next id; an index entry already there stays |
| SessionObjects.SessionManager.Dispose | server/src/data_relay_grpc/common/detail/session_manager.cpp:47-57 | the session goes and, if it has a transaction, the index entry of that transaction |
| SessionObjects.SessionManager.GetSession | server/src/data_relay_grpc/common/detail/session_manager.cpp:59-65 | the live session of that id, or the exception |
| SessionObjects.SessionManager.GetSessionId | server/src/data_relay_grpc/common/detail/session_manager.cpp:67-73 | what the index holds, or the exception |
| StreamingObjects.StreamingService.Put | server/src/data_relay_grpc/blob_relay/streaming_service.cpp:147-216 | state and reply of the service object equal the sequential `Put` on every stream and every exit |
| StreamingObjects.StreamingService.TakeIn | server/src/data_relay_grpc/blob_relay/streaming_service.cpp:180-195 | its receive loop equals the recursive specification, reserve before write |
| StreamingObjects.StreamingService.Source | server/src/data_relay_grpc/blob_relay/streaming_service.cpp:30-92 | the lookup cascade yields the specified path or status for every context and storage, each lookup on the manager as it then is |
| StreamingObjects.StreamingService.Get | server/src/data_relay_grpc/blob_relay/streaming_service.cpp:21-145 | replies equal those of `Lookups.GetAt` for every request and whatever the manager has become by each of the seven lookups |
| StreamingObjects.StreamingService.SendChunks | server/src/data_relay_grpc/blob_relay/streaming_service.cpp:121-134 | the buffer loop ends and sends the specified pieces |
| LogPrefix.Find | server/src/data_relay_grpc/logging_helper.h:26-31 | `string_view::find`: the least occurrence from a position on, or none |
| LogPrefix.FindFullName | server/src/data_relay_grpc/logging_helper.h:23-52 | the first occurrence followed by a parenthesis, extended left to the nearest blank outside brackets; the name alone if there is none |
| LogPrefix.QualifiedNameIsFound | server/src/data_relay_grpc/logging_helper.h:23-52 | of a signature with a result type, a scope whose blanks all stand inside brackets, a name and arguments, the scope and the name are found |
| LogPrefix.FullNameIsUnique | server/src/data_relay_grpc/logging_helper.h:23-52 | the description of the full name admits one view only |
| LogPrefix.ScanLeft | server/src/data_relay_grpc/logging_helper.h:35-50 | the scan finds that blank, or the beginning |
| LogPrefix.FullNameEndsWithName | server/src/data_relay_grpc/logging_helper.h:23-52 | for every name that begins with neither a blank nor a bracket, destructors and operators included, the view lies within the signature and ends with the name |
| LogPrefix.FullNameIsBalanced | server/src/data_relay_grpc/logging_helper.h:35-50 | if the text before the name has its brackets in order, the view has if and only if the name has |
| LogPrefix.LocationPrefix | server/src/data_relay_grpc/logging_helper.h:54-85 | the one-pass filter into the fixed buffer stays in bounds and equals collapsing "::" first and dropping bracketed text second |
| LogPrefix.PrefixOf | server/src/data_relay_grpc/logging_helper.h:87-91 | both steps together fill a buffer of max(N, M) + 3, terminators counted in N and M, with the specified text and never overrun it |
| LogPrefix.TemplateArgumentsVanish | server/src/data_relay_grpc/logging_helper.h:65-81 | template arguments, however nested, disappear with their brackets |
| LogPrefix.ScopesJoin | server/src/data_relay_grpc/logging_helper.h:73-75 | a scope separator becomes a single colon |
| LogPrefix.PromiseIsKeptExactlyWhen | server/src/data_relay_grpc/logging_helper.h:58-61 | the prefix consists of letters, digits, `-`, `_` and `:` if and only if every other character of the view stands inside brackets |
| LogPrefix.OutsideIsPromisedExactlyWhen | server/src/data_relay_grpc/logging_helper.h:65-81 | the same for the rest of a scan begun at any depth |
| LogPrefix.NameComesThrough | server/src/data_relay_grpc/logging_helper.h:58-81 | a name without brackets shows in full, so any name with another character in it breaks the promise |
| LogPrefix.DestructorShowsTilde | server/src/data_relay_grpc/logging_helper.h:58-81 | concretely, the prefix of `S::~S` is `S:~S` |
| LogPrefix.PrefixHasNoBrackets | server/src/data_relay_grpc/logging_helper.h:66-71 | no angle bracket is ever emitted, balanced or not |
| TestClient.ReferenceReads | server/test/client/client.h:67 | the reference is the upper-case letters, the lower-case letters and a line feed, over and over |
| TestClient.TestBlob.Compare | server/test/client/client.h:37-56 | for every buffer and size, exactly what is accepted: the matching window within a period, or, over a period end, a buffer that is the reference up to the second period end; the position advances either way |
| TestClient.MatchesExactlyWhen | server/test/client/client.h:42-54 | for windows of at most a period within the buffer: the bytes are right, and the buffer is full if the window runs over a period end |
| TestClient.SoundExactlyWhen | server/test/client/client.h:42-54 | only right bytes, and all of them, are accepted if and only if the window ends at the second period end at the latest |
| TestClient.LongWindowsPass | server/test/client/client.h:47-53 | concretely, two periods of the reference pass for any greater number of bytes, and that number of right ones does not |
| TestClient.Client.Compare | server/test/client/client.h:154-190 | accepts a file if and only if it is empty, or a piece of the endless reference whose last, partly filled buffer does not run over a period end |
| TestClient.Client.Put | server/test/client/client.h:75-112 | the do-while loop sends the reference cut at its period: full chunks but for the last, one empty chunk for size 0 |
| TestClient.Client.Ask | server/test/client/client.h:115-123 | the request carries version, session, blob and tag; faults 1, 5 and 3 put the last three off by one |
| TestClient.Client.Get | server/test/client/client.h:125-152 | the file is the chunks in order; the call throws unless the file opens, metadata comes first, the length agrees and the status is OK |
| EndToEnd.ClientUpload | server/test/client/client.h:75-113 | the client's upload succeeds exactly when it fits and leaves the reference on disk |
| EndToEnd.UploadTestPassesExactlyWhen | server/test/client/main.cpp:33-45 | the upload test passes if and only if the blob fits and its last buffer does not run over a period end |
| EndToEnd.ClientDownload | server/test/client/client.h:115-190 | after any run that spares the blob the client, asking for it by its own request with the wanted tag, gets the reference back, and the comparison passes exactly for the same sizes |
| EndToEnd.WrongSessionIsTurnedDown | server/src/data_relay_grpc/blob_relay/streaming_service.cpp:169-214 | fault 1, the session off by one, is not found and changes nothing, unless that session is there, too |
| EndToEnd.WrongSizeIsTurnedDown | server/src/data_relay_grpc/blob_relay/streaming_service.cpp:198-204 | fault 6, a size announced one too large, is turned down as an invalid argument |
| EndToEnd.FaultsAreTurnedDown | server/src/data_relay_grpc/blob_relay/streaming_service.cpp:66-107 | of a blob the server would deliver: a wrong session is not found or an internal error, a wrong tag is denied exactly unless it passes by chance, a wrong blob the session does not have is not found |
| EndToEnd.FiftyFourBytesAreTurnedDown | server/test/client/client.h:48-53 | 54 bytes of the reference are the smallest file wrongly turned down |

## Left out

- The local service (`local_service.cpp`): a lookup, and a copy of a file into a session without any charge; its files
  are not part of the claims about disk use.
- gRPC, protobuf, server start-up, TLS, configuration and command-line handling: no algorithm of this repository.
- HMAC, random keys and the data store callbacks: uninterpreted functions here.
- Real file systems: permissions, symbolic links, subdirectories, failing writes, removals that fail once the server
  runs.
- Smoke test and ping services, logging calls, error texts, the unused `valid_` field, the template of `remove` for
  other iterators, which only throws, and the check of the vector form for a reversed range.
- SessionObjects.SessionManager.GetSession: the reference it returns is taken to stay alive while it is used.
