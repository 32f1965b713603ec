# Verified model of external-snapshot-metadata

This project models, in Dafny, the behaviour of the Kubernetes CSI changed block
tracking components and proves properties of it. `dafny verify dfyconfig.toml`
checks everything.

The core is the path of changed-block metadata. A CSI driver answers with a stream
of responses; the sidecar relays it; the iterator of a backup application numbers
the records and hands them to an emitter; the verifier emitter copies the extents
from a source to a target device in chunks of 1 MiB and then compares the devices.
The main theorem is that the verifier accepts exactly the metadata that covers every
byte in which the two devices differ (`EndToEnd.VerifierIsExact`,
`EndToEnd.VerifierJudgesMessages`, and for the tool itself `Tools.Verify`).

| file | content |
|---|---|
| `Base.dfy` | machine integers, results, records and their tuples |
| `CopyAlgebra.dfy`, `Resume.dfy` | copying byte by byte, what a list of extents does, continuing an interrupted enumeration |
| `Devices.dfy`, `VerifierEmitter.dfy` | open files with short reads, faults and growth; the chunked copy and the comparison |
| `Writer.dfy`, `Decimal.dfy`, `Json.dfy`, `JsonEmitter.dfy`, `TableEmitter.dfy` | the writer and the two printers, each with a reader that undoes it |
| `Relay.dfy` | streams, message types, the relay loops of both handlers |
| `Emitters.dfy`, `Iterator.dfy`, `EndToEnd.dfy`, `Tools.dfy` | the emitter interface, the enumeration, the composition of all hops, the two tools |
| `InformerFactory.dfy`, `FactoryProtocol.dfy`, `FactoryLiveness.dfy`, `SharedFactory.dfy` | the shared informer factory: its state, its behaviour under every interleaving, when its calls return, and its methods as steps of the protocol |
| `RequestGate.dfy`, `Server.dfy` | the gate in front of the driver under every interleaving; serving status, operation identifiers, and the server whose methods take the steps of the gate |
| `TLSConfig.dfy`, `SidecarFlags.dfy`, `JUnitFilter.dfy`, `SnapshotClasses.dfy` | list parsers, command line, JUnit merge, default class |

## How the outside world is modelled

- A device is a byte sequence, an offset and a plan that fixes what each system call
  does: fail (a write after some bytes), or transfer up to some number of bytes. Reads
  return at least one byte before the end of the device. A regular file can be positioned
  and written past its end, and grows; a block device refuses both. Source and target are
  distinct devices.
- A writer takes of each write as many characters as it has room for. The printers drop
  its errors.
- A client's own emitter is an arbitrary function of the calls it has seen.
- The Kubernetes API, the network and the driver are arbitrary answers: functions in
  `Iterators.Cluster`, payloads of steps in `RequestGate`, streams that end normally or
  with an error.
- A program point of a thread is a constructor of `FactoryProtocol.Pc` or
  `RequestGate.Pc`; a run is any sequence of possible steps, so a statement about runs
  is one about every interleaving.
- newFunc makes a new informer each time it is called. An informer runs until its stop
  channel is closed. When its cache has synced is up to the API server.
- A VolumeSnapshot or VolumeSnapshotContent that the server reads has a status.

## Where the code does less than its documentation says

- The comparison at the end demands that both devices return equal counts from each
  pair of reads. With short reads it can reject devices that hold the same bytes
  (`VerifierEmitters.ShortReadsRejectEqualDevices`). It accepts exactly when the bytes
  agree and the reads of the two devices keep in step; reads that fill the buffer always
  do (`VerifierEmitters.FillingReadsKeepStep`).
- proto/schema.proto says that the sidecar ensures the contract of the response stream,
  among other things that no tuple ends before the starting offset. The sidecar passes
  on what the driver sends, unchecked: the contract holds at the client if the driver
  keeps it, and for a call that ends without error only then
  (`EndToEnd.RelayKeepsContract`, `EndToEnd.RelayDoesNotEnforceOffset`).
- It also says that the sidecar determines a record size if the request leaves it 0. The
  sidecar passes the 0 on to the driver (`RequestGate.DriverCallIsAnswered`,
  `EndToEnd.ClientGetsContract`).
- A target that is a regular file shorter than the source can be accepted, although
  bytes of the source lie outside all extents, if those bytes are zero
  (`EndToEnd.HoleIsAccepted`; `EndToEnd.VerifierVerdict` is the exact condition for any
  two lengths).
- Both printers report success although the writer has not taken everything
  (`EndToEnd.LostOutputGoesUnnoticed`). The output is complete exactly if the writer had
  room for every piece of it (`EndToEnd.JSONOutcome`, `EndToEnd.TableOutcome`).
- Operation identifiers are called unique. For all names and numbers, two are equal
  exactly if the numbers have one magnitude and the names are equal once a dash is added
  to that of a negative number (`OperationIds.OperationIDsEqual`). Neither of the two
  names in use ends in a dash, so their identifiers collide exactly when the 64-bit
  counter has gone round completely in between (`RequestGate.OperationIDsCollide`).
- Shutdown of the informer factory returns exactly if the application closes the stop
  channels of all informers it has started (`FactoryLiveness.ShutdownReturnsIff`), and
  WaitForCacheSync exactly if its channel is closed or all informers it waits for have
  synced (`FactoryLiveness.SyncReturnsIff`). Closing them is the caller's duty; leaving it
  out blocks the call for good (`FactoryProtocol.OpenChannelBlocksShutdown`). Nothing else
  delays a call for good: left alone, the factory comes to a standstill after a bounded
  number of steps (`FactoryLiveness.UndisturbedIsShort`).
- Writing the runtime arguments and parsing them back loses an empty certificate or key
  file name exactly when the environment supplies one, and otherwise at most a timeout or
  a rate whose text the standard library does not read back (`SidecarFlags.ArgvRoundTrip`).

## Model

| member | source | states |
|---|---|---|
| CopyAlgebra.OverlayExtends | pkg/iterator/emitters.go:129-141 | writing the next chunk of an extent has the effect of copying its bytes one by one |
| CopyAlgebra.CopiedIsImage | pkg/iterator/emitters.go:151-159 | after all extents the target equals the source on their union, clipped to the source, is unchanged elsewhere, and is no longer than that requires |
| CopyAlgebra.SameCoverSameCopy | pkg/iterator/emitters.go:151-159 | the final target depends only on the set of covered bytes |
| CopyAlgebra.PermutationCopiesSame | pkg/iterator/emitters.go:151-159 | the order of the tuples does not matter |
| CopyAlgebra.SplitCopiesSame | pkg/iterator/emitters.go:151-159 | splitting an extent in two anywhere in the list does not matter |
| CopyAlgebra.RegroupOrReplayCopiesSame | pkg/iterator/emitters.go:151-159 | grouping the tuples into other records and replaying records does not matter |
| CopyAlgebra.FittingCopyKeepsLength | pkg/iterator/emitters.go:135-139 | extents that fit never change the length of a block device |
| CopyAlgebra.CopyReproducesIffCovered | pkg/iterator/emitters.go:150-197 | for equal lengths, the copy reproduces the source iff every differing byte is covered |
| CopyAlgebra.CopyReproducesAnyLength | pkg/iterator/emitters.go:150-197 | the exact condition for any two lengths, holes in a grown file included |
| Resume.ResumeYieldsTheRest | proto/schema.proto:63-76 | for ordered disjoint tuples, the tuples ending after the end of the k-th are exactly those after it |
| Resume.StoppedInside | pkg/iterator/emitters.go:123-159 | a failure inside a record leaves whole tuples and a part of the next one |
| Resume.StoppedCopyCanBeRedone | pkg/iterator/emitters.go:123-145 | wherever a copy was interrupted, even inside an extent, copying all tuples again leaves the target of an uninterrupted run |
| Resume.InterruptedRunResumes | pkg/iterator/iter.go:361-367 | an interrupted run, resumed at the end of its last whole tuple, sees every tuple once and leaves the target of an uninterrupted run |
| Devices.Device.Seek | pkg/iterator/emitters.go:111-120 | fails on faults, negative positions and, for a block device, positions past its end, else sets the offset |
| Devices.Device.Read | pkg/iterator/emitters.go:130-133 | returns the bytes at the offset, as many as the plan allows, or end of file with none |
| Devices.Device.Write | pkg/iterator/emitters.go:136-139 | writes all bytes, or a prefix of them and fails |
| VerifierEmitters.VerifierEmitter.CopyChunk | pkg/iterator/emitters.go:129-144 | one read and write extend the copied prefix of the extent by what was written, also when the write fails |
| VerifierEmitters.VerifierEmitter.CopyBlock | pkg/iterator/emitters.go:108-148 | under every pattern of short reads, success is one clipped slice copy and failure a prefix of it; without faults it succeeds iff the extent fits; the error is that of seeking iff a call to seek fails or one device cannot be positioned there, that of reading iff the last read failed, and else that of writing; how many calls a success has taken |
| VerifierEmitters.VerifierEmitter.SnapshotMetadataIteratorRecord | pkg/iterator/emitters.go:150-159 | success copies all blocks, failure stops inside one with one of its errors; without faults success iff all fit |
| VerifierEmitters.AgreeStep | pkg/iterator/emitters.go:175-196 | one round of reads preserves whether the rest of the devices agrees and is read in step |
| VerifierEmitters.RoundMeans | pkg/iterator/emitters.go:180-195 | the branches after one round of reads go on over equal bytes only, accept only at the end of both devices, report failed reads iff one failed and the other found no end, and without faults preserve whether the rest agrees |
| VerifierEmitters.VerifierEmitter.CompareChunk | pkg/iterator/emitters.go:176-195 | one round either advances over equal bytes or gives the verdict, branch by branch |
| VerifierEmitters.VerifierEmitter.SnapshotMetadataIteratorDone | pkg/iterator/emitters.go:161-197 | nil implies equal contents whatever fails; without faults nil iff the contents agree and are read in step, and the only error is the mismatch; otherwise the error tells a failed seek from failed reads and from a mismatch; the loop terminates |
| VerifierEmitters.FillingReadsKeepStep | pkg/iterator/emitters.go:173-178 | reads that fill the buffer keep devices of one length in step |
| VerifierEmitters.FillingReadSizes | pkg/iterator/emitters.go:102-178 | such reads compare the devices a MiB at a time, all but the last of that size |
| VerifierEmitters.FillingRounds | pkg/iterator/emitters.go:122-145 | and the rounds of a copy are of that size too |
| VerifierEmitters.FillingReadsAgree | pkg/iterator/emitters.go:173-196 | with such reads, agreement is equality of contents |
| VerifierEmitters.ShortReadsRejectEqualDevices | pkg/iterator/emitters.go:193-195 | two identical devices that short reads tell apart |
| Decimal.NumeralReads | pkg/iterator/emitters.go:72-82 | printing any integer in base ten and reading it is the identity, whatever follows |
| Decimal.NumeralOfTens | pkg/iterator/emitters.go:72-82 | a numeral is that of the tens and the digit of the units, after a minus sign if the number is negative |
| Json.ParsePrint | pkg/iterator/emitters.go:44-47 | the JSON parser undoes the compact printer on every value and stops at its end |
| Writers.PutAllText | pkg/iterator/emitters.go:47-56 | after a series of writes the writer holds the whole text iff it had room for every one of them |
| JsonEmitters.JSONEmitter.SnapshotMetadataIteratorRecord | pkg/iterator/emitters.go:37-50 | one write for a record, whatever becomes of it, and when the list counts as begun |
| JsonEmitters.JSONEmitter.SnapshotMetadataIteratorDone | pkg/iterator/emitters.go:52-60 | one write that closes the list, whatever becomes of it |
| JsonEmitters.PrintedIsArray | pkg/iterator/emitters.go:38-47 | the incremental output is the text of one array without its closing bracket |
| JsonEmitters.BlockDecodes | pkg/api/schema.pb.go:83-87 | a tuple is recovered from its object though zero fields are omitted |
| JsonEmitters.RecordDecodes | pkg/iterator/iter.go:165-169 | a record is recovered from its object, a nil list from null |
| JsonEmitters.DocumentReads | pkg/iterator/emitters.go:37-60 | the output for any records is one document from which exactly they are read |
| JsonEmitters.DocumentText | pkg/iterator/emitters.go:37-60 | the document in full: brackets, commas, the names of the fields, null for a nil list, and what is omitted |
| TableEmitters.TableEmitter.SnapshotMetadataIteratorRecord | pkg/iterator/emitters.go:75-86 | a write for the header, for record 1, and one per tuple, whatever becomes of them |
| TableEmitters.FlatPieces | pkg/iterator/emitters.go:75-86 | the writes for all records are the text of the table |
| TableEmitters.TypeReads | pkg/api/schema.pb.go:38-58 | the name or number printed for a block type determines it |
| TableEmitters.TypeText | pkg/api/schema.pb.go:38-58 | the names that are printed for the types |
| TableEmitters.FieldsOfColumns | pkg/iterator/emitters.go:72-82 | splitting a line at white space gives back its columns, also those wider than their width |
| TableEmitters.RowReads | pkg/iterator/emitters.go:72-83 | every number and the type are recovered from a line |
| TableEmitters.RowOfTuple | pkg/iterator/emitters.go:80-83 | the row of each tuple stands in its place and has the number of its record, counted from 1, the capacity and type of the record, and the offset and size of the tuple |
| TableEmitters.RowAligned | pkg/iterator/emitters.go:72 | values no wider than their columns end at the positions 7, 22, 40, 55 and 70 of the line, in the order of the header |
| TableEmitters.TableText | pkg/iterator/emitters.go:67-83 | the text is empty or the two lines of the header and then the lines of all rows |
| TableEmitters.TableReads | pkg/iterator/emitters.go:67-90 | the table is one header followed by exactly the rows of all tuples, recovered from the text |
| AllocatedRelay.ConvertToGetMetadataAllocatedResponse | pkg/internal/server/grpc/get_metadata_allocated.go:209-223 | type and capacity are those of the driver's message; the list is nil iff the driver's is empty, and else has its tuples in order, each with its offset and its size |
| AllocatedRelay.Forward | pkg/internal/server/grpc/get_metadata_allocated.go:169-205 | one response is noted and sent |
| AllocatedRelay.StreamGetMetadataAllocatedResponse | pkg/internal/server/grpc/get_metadata_allocated.go:134-207 | the loop implements the relay specification |
| DeltaRelay.ConvertToGetMetadataDeltaResponse | pkg/internal/server/grpc/get_metadata_delta.go:214-228 | the same for the delta message |
| DeltaRelay.Forward | pkg/internal/server/grpc/get_metadata_delta.go:174-210 | one response is noted and sent |
| DeltaRelay.StreamGetMetadataDeltaResponse | pkg/internal/server/grpc/get_metadata_delta.go:139-212 | the loop implements the same relay specification |
| RelaySpec.RelaySendsPrefix | pkg/internal/server/grpc/get_metadata_allocated.go:145-207 | sent is a prefix of received: all on a normal end or a receive failure, all but the last on a send failure; no error iff everything was passed on |
| RelaySpec.RelayStatus | pkg/internal/server/grpc/status.go:84-94 | the call fails with the status of what made it fail, the first refusal or else the end of the stream, if that has one other than Unknown, and with Internal if not |
| RelaySpec.ProgressNamesLastTuple | pkg/internal/server/grpc/get_metadata_allocated.go:166-178 | the logged position is the last tuple of all responses received, however many empty ones follow it; number, type and capacity are those of the last response |
| RelaySpec.ResumeFromLog | proto/schema.proto:63-76 | restarting at the end of the logged tuple yields exactly what is missing |
| Emitters.Emitter.SnapshotMetadataIteratorRecord | pkg/iterator/iter.go:171-174 | one contract for all emitters: what a record leaves behind, accepted or not, and when it is accepted |
| Emitters.Emitter.SnapshotMetadataIteratorDone | pkg/iterator/iter.go:176-178 | the effect of the end and when it is accepted |
| Emitters.JSONRun | pkg/iterator/emitters.go:37-50 | records numbered from 1 make the writes of the list, one each |
| Emitters.TableRun | pkg/iterator/emitters.go:75-86 | records numbered from 1 make the writes of the table |
| Emitters.VerifierRun | pkg/iterator/emitters.go:151-159 | records copy all their tuples |
| Iterators.Validate | pkg/iterator/iter.go:137-160 | no error iff there is an emitter, every client is set and all requirements on the arguments hold |
| Iterators.Iterator.PassOn | pkg/iterator/iter.go:382-391 | a record gets the next number and goes to the emitter |
| Iterators.Iterator.Deliver | pkg/iterator/iter.go:382-391 | after it the records so far are accepted and in effect, or the loop ends here with the error |
| Iterators.Iterator.ReceiveAllocated | pkg/iterator/iter.go:372-392 | the loop ends with the stream after all its records were accepted, or at the first refusal |
| Iterators.Iterator.ReceiveDelta | pkg/iterator/iter.go:408-428 | the same for the delta stream |
| Iterators.Iterator.GetAllocatedBlocks | pkg/iterator/iter.go:360-393 | the same for the call with the arguments of the iterator |
| Iterators.Iterator.GetChangedBlocks | pkg/iterator/iter.go:395-429 | the same for the delta call |
| Iterators.SessionToken | pkg/iterator/iter.go:221-253 | a session succeeds with exactly the token created for the account and driver given or looked up, the audience of that driver's service and the expiry time, 600 s if none is given, if that service can be reached |
| Iterators.SessionError | pkg/iterator/iter.go:221-253 | a session fails with exactly the error of its first step that fails |
| Iterators.EnumerationIsAnswer | pkg/iterator/iter.go:260-274 | what is enumerated is exactly the cluster's answer, field by field of the request, to the allocated call if both previous arguments are empty, and else to the delta call from the base given or looked up under the previous name; or else the error of the session or of that look-up |
| Iterators.GivenIsNotLookedUp | pkg/iterator/iter.go:79-101 | what the arguments give is not looked up, and a previous identifier overrides a previous name |
| Iterators.Iterator.Enumerate | pkg/iterator/iter.go:260-274 | the stream is received that answers the call of Iterators.EnumerationIsAnswer; without one, the error is that of the step that failed and the emitter is left alone |
| Iterators.Iterator.Run | pkg/iterator/iter.go:212-277 | the emitter is told the end exactly once, after a complete enumeration, and never otherwise |
| Iterators.GetSnapshotMetadata | pkg/iterator/iter.go:61-67 | invalid arguments change nothing; otherwise a new iterator is run |
| Iterators.ClientRunOutcome | pkg/iterator/iter.go:171-179 | a client's emitter sees the records in order, unchanged, numbered without gaps, and the end with their number iff no step failed |
| Iterators.TranscriptIsUnique | pkg/iterator/iter.go:212-277 | emitter and stream determine the calls and the error |
| EndToEnd.JSONOutcome | pkg/iterator/iter.go:218-277 | a JSON run fails only with the stream; else the output is the document, from which exactly the stream's records are read, iff the writer had room for every piece |
| EndToEnd.TableOutcome | pkg/iterator/iter.go:218-277 | the same for the table |
| EndToEnd.LostOutputGoesUnnoticed | pkg/iterator/emitters.go:47-56 | a run without error whose output is lost |
| EndToEnd.CopyingAccepts | pkg/iterator/emitters.go:151-159 | copying record by record succeeds iff all tuples so far fit the original target |
| EndToEnd.VerifierOutcome | pkg/iterator/emitters.go:150-197 | acceptance implies a complete stream whose copy reproduces the source; without faults it is equivalent to a complete stream of extents that can be copied, after which the devices agree and their reads, numbered from the calls the copy has made, keep in step; without short reads that step is no condition |
| EndToEnd.VerifierLeaves | pkg/iterator/emitters.go:109-159 | whatever fails, the source is unchanged and the target is what an interruption of the copy leaves |
| EndToEnd.VerifierVerdict | pkg/iterator/emitters.go:92-197 | on devices of any two lengths, acceptance iff the stream is complete, every extent can be copied, and all bytes that differ are covered, absent ones counting as zero and the last one covered if there are any |
| EndToEnd.HoleIsAccepted | pkg/iterator/emitters.go:135-139 | an accepted run on a short file in which a byte of the source is in no extent |
| EndToEnd.VerifierIsExact | pkg/iterator/emitters.go:92-197 | on devices of one length, acceptance iff the stream is complete, its offsets are positions of both devices, and it covers every difference |
| EndToEnd.ClientReceivesPrefix | pkg/internal/server/grpc/get_metadata_allocated.go:134-207 | no hop truncates the stream silently |
| EndToEnd.ContractHoldsOfPrefix | proto/schema.proto:87-119 | the contract of the stream holds of every prefix |
| EndToEnd.RelayKeepsContract | proto/schema.proto:70-76 | however the call ends, the sidecar's stream keeps the contract if the driver's does; a call without error keeps it only then |
| EndToEnd.ClientGetsContract | pkg/internal/server/grpc/get_metadata_allocated.go:126-131 | the contract the driver keeps for the request it gets is the one the client may expect for its own offset and record size |
| EndToEnd.RelayDoesNotEnforceOffset | proto/schema.proto:70-76 | a tuple before the starting offset that the sidecar passes on |
| EndToEnd.ClientSeesDriver | pkg/iterator/iter.go:218-277 | through both hops, whatever the driver does, an emitter sees a prefix of its responses, unchanged, in order and numbered from 1, then at most once the end, with their number and after all of them; all of it if the run succeeds; and the prefix keeps the contract if the driver does |
| EndToEnd.AllocatedCallIsMessage | pkg/internal/server/grpc/get_metadata_allocated.go:209-223 | through both hops, call i of an emitter has number i + 1 and the type, the capacity, and the offsets and sizes of the driver's message i |
| EndToEnd.DeltaCallIsMessage | pkg/internal/server/grpc/get_metadata_delta.go:214-228 | the same for the delta call |
| EndToEnd.ClientIsToldTheEndIff | pkg/iterator/iter.go:260-277 | through both hops, if nothing fails on the way, the emitter is told the end iff the driver's stream is complete and it has refused no record |
| EndToEnd.VerifierJudgesDriver | pkg/iterator/emitters.go:92-197 | through both hops, acceptance implies that the driver's metadata is complete and covers every difference, and is equivalent to that if nothing fails on the way |
| EndToEnd.VerifierJudgesMessages | pkg/iterator/emitters.go:92-197 | the same in terms of the offsets and sizes in the driver's messages: acceptance implies that each differing byte lies in one of these ranges, and is equivalent to that, to complete metadata and to positions that can be sought if nothing fails on the way |
| Tools.VerifiedMeans | tools/snapshot-metadata-verifier/main.go:172-183 | what success and failure of the tool mean, for any two devices, and exactly for any that do not fail |
| Tools.Verify | tools/snapshot-metadata-verifier/main.go:136-183 | the tool on two devices: sound always, exact on devices of any lengths that do not fail, in terms of the tuples alone if they do not cut reads short either; it never changes the source, and the target only as an interrupted or complete copy does |
| Tools.ResumedVerification | pkg/iterator/iter.go:361-367 | a second run of the tool from the end of the last whole tuple sees exactly the missing tuples and gives the verdict an uninterrupted run would have given on the original target |
| Tools.List | tools/snapshot-metadata-lister/main.go:135-165 | the tool fails only with its input; its output is complete and can be read back iff standard output had room for every piece |
| SharedFactory.SharedInformerFactory.InformerFor | client/informers/externalversions/factory.go:178-200 | steps of the protocol that create an informer once per kind; every earlier call returned the same informer iff it was for the same kind |
| SharedFactory.SharedInformerFactory.Start | client/informers/externalversions/factory.go:124-146 | steps of the protocol that launch exactly the registered kinds not started, once each and with the channel given, or nothing when shutting down |
| SharedFactory.SharedInformerFactory.StartedInformers | client/informers/externalversions/factory.go:157-169 | steps of the protocol that collect the informers started, each of which has been launched |
| SharedFactory.SharedInformerFactory.BeginShutdown | client/informers/externalversions/factory.go:148-151 | steps of the protocol after which nothing is launched in any state any run leads to |
| SharedFactory.SharedInformerFactory.FinishShutdown | client/informers/externalversions/factory.go:154 | when Shutdown returns, every informer has ended and its channel is closed |
| FactoryProtocol.NextInv | client/informers/externalversions/factory.go:124-200 | every atomic action of every thread and goroutine keeps the invariant |
| FactoryProtocol.LaunchedAtMostOnce | client/informers/externalversions/factory.go:132-145 | in every state of every run: at most one launch per kind, started within registered, the wait group counts launched and unfinished goroutines |
| FactoryProtocol.InformerIsStable | client/informers/externalversions/factory.go:180-200 | any two calls in a run return one informer per kind, the one that is run |
| FactoryProtocol.InformersDiffer | client/informers/externalversions/factory.go:182-197 | any two calls in a run for different kinds return different informers, one is created per kind, and no informer is run by two launches |
| FactoryProtocol.StartStartsAll | client/informers/externalversions/factory.go:124-146 | when Start returns, everything registered is started or the factory is shutting down |
| FactoryProtocol.SyncWaitsForStarted | client/informers/externalversions/factory.go:157-169 | the snapshot holds exactly the started kinds, each launched |
| FactoryProtocol.SyncResult | client/informers/externalversions/factory.go:171-176 | WaitForCacheSync returns a result for exactly these, true for one that has synced and false only if the channel is closed |
| FactoryProtocol.NothingRunsAfterShutdown | client/informers/externalversions/factory.go:233-243 | once Shutdown has returned no informer runs and none is ever launched again |
| FactoryProtocol.StandstillIff | client/informers/externalversions/factory.go:124-176 | no step is possible iff every call in progress waits for goroutines or for an informer to sync and the channels that would release them are open |
| FactoryLiveness.ReturnedShutdownMeansClosed | client/informers/externalversions/factory.go:238-240 | once Shutdown has returned, the channels of all informers are closed |
| FactoryLiveness.ShuttingDownLaunchesNoMore | client/informers/externalversions/factory.go:233-236 | once the flag is set nothing is launched any more, whatever is called |
| FactoryLiveness.MoveLowers | client/informers/externalversions/factory.go:124-176 | every step of a thread or goroutine uses up some of the work left |
| FactoryLiveness.UndisturbedIsShort | client/informers/externalversions/factory.go:124-176 | a stretch of a run in which the application does nothing is no longer than the work at its beginning |
| FactoryLiveness.ComesToStandstill | client/informers/externalversions/factory.go:124-176 | from every state of every run the factory, left alone, comes to a standstill |
| FactoryLiveness.ShutdownReturnsIff | client/informers/externalversions/factory.go:238-243 | a call of Shutdown, left alone, has returned at the standstill iff the channels of all informers were closed |
| FactoryLiveness.SyncReturnsIff | client/informers/externalversions/factory.go:245-247 | a waiting call of WaitForCacheSync, left alone, has returned at the standstill iff its channel was closed or all informers it waits for had synced |
| FactoryLiveness.ClosedChannelsLetGo | client/informers/externalversions/factory.go:233-247 | with the channels closed, every call has returned at the standstill |
| FactoryProtocol.OpenChannelBlocksShutdown | client/informers/externalversions/factory.go:238-240 | a run in which Shutdown waits for good because the channel is left open |
| OperationIds.OperationIDsEqual | pkg/internal/server/grpc/server.go:187-190 | for all names and numbers, when two identifiers are equal |
| OperationIds.DashlessOperationIDs | pkg/internal/server/grpc/server.go:187-190 | for names that do not end in a dash, an identifier determines operation and number |
| OperationIds.DashedOperationIDs | pkg/internal/server/grpc/server.go:187-190 | for other names it does not: two operations that share an identifier |
| Server.Server.SetReady | pkg/internal/server/grpc/health.go:46-50 | a step of the gate after which the server is serving iff it has never been shut down |
| Server.Server.SetNotReady | pkg/internal/server/grpc/health.go:52-55 | a step of the gate after which the server is not serving, shut down or not |
| Server.Server.ShuttingDown | pkg/internal/server/grpc/health.go:57-61 | a step of the gate after which the server is not serving, and SetReady no longer makes it serve |
| Server.Server.IsCSIDriverReady | pkg/internal/server/grpc/health.go:63-73 | a handler passes the readiness check of the gate iff the server is serving, and never after a shutdown; the code is Unavailable |
| Server.Server.NewOperationID | pkg/internal/server/grpc/server.go:187-190 | the identifier of an arriving handler, in full, shared only with handlers of the same kind that arrived a multiple of 2^64 earlier |
| Server.Server.AuthenticateRequest | pkg/internal/server/grpc/auth.go:58-81 | finds the user iff the review of the token for the audience, configured or looked up, says that it is authentic and names that audience; Unauthenticated iff it does not say so |
| Server.Server.AuthenticateAndAuthorize | pkg/internal/server/grpc/auth.go:34-72 | passes a handler iff its user is authentic and the access to the namespace is allowed and not denied; Unauthenticated iff the token is not, PermissionDenied iff the access is not, and Internal otherwise |
| Server.Server.CallDriver | pkg/internal/server/grpc/get_metadata_delta.go:113-137 | the driver is called with what the request asks for, field by field, on the snapshot that its namespace and name resolve to; otherwise the code is InvalidArgument for a snapshot of another driver and else Unavailable |
| Server.Server.Serve | pkg/internal/server/grpc/get_metadata_allocated.go:35-80 | a whole handler: it takes the steps of the gate, and succeeds iff the request is complete, its user permitted, the server serving, the snapshot resolved and the driver successful on the call for it; the code for each gate that stops it |
| RequestGate.AdvanceExtendsTrail | pkg/internal/server/grpc/auth.go:34-72 | one step of a handler extends its trail by one event at most and passes the readiness check only while serving |
| RequestGate.NextInv | pkg/internal/server/grpc/get_metadata_allocated.go:50-71 | every step of every handler and of the status keeps the invariant |
| RequestGate.DriverCalledOnlyThroughGate | pkg/internal/server/grpc/get_metadata_delta.go:51-79 | a driver call is preceded by validation, the look-up of the audience if none is configured, authentication of the request's token for that audience, authorization of that user for the request's namespace, readiness, and look-up of the request's snapshot, in this order and once each; it is of one kind with the request and carries its fields, and the handle found in its place |
| RequestGate.EventIsGranted | pkg/internal/server/grpc/auth.go:34-72 | every event of a handler in every run was added by a step of its own whose answer grants it, written out for each event |
| RequestGate.AuthenticatedByReview | pkg/internal/authn/token_auth.go:42-68 | a token counts as authenticated in a run only by a review that says so and names the audience |
| RequestGate.AuthorizedByReview | pkg/internal/authz/sar_authorizer.go:42-63 | a user counts as authorized in a run only by a review that allows and does not deny |
| RequestGate.DriverCallIsAnswered | pkg/internal/server/grpc/get_metadata_delta.go:113-137 | the answers behind a driver call of a run, and the call in terms of them: base from the request, target the handle found for its snapshot, offset and size of records from the request, and the secrets of the step that makes the call |
| RequestGate.CodeNamesGate | pkg/internal/server/grpc/auth.go:34-57 | a failure code belongs to the gate at which the handler stopped, and success implies a driver call |
| RequestGate.CodeHasCause | pkg/internal/server/grpc/auth.go:34-57 | a handler that ended with a code was ended by a step of its own whose answer is the cause of just that code, written out for each gate |
| RequestGate.FrozenForGood | pkg/internal/server/grpc/health.go:57-61 | the status is frozen and not serving iff a shutdown has happened |
| RequestGate.NoDriverCallAfterShutdown | pkg/internal/server/grpc/health.go:57-73 | after shutdown began no handler short of its readiness check reaches the driver |
| RequestGate.OperationIDsCollide | pkg/internal/server/grpc/server.go:187-190 | two handlers of a run have one identifier iff they are of one kind and arrived a multiple of 2^64 apart |
| RequestGate.OperationIDsAreDistinct | pkg/internal/server/grpc/server.go:187-190 | all identifiers are distinct while no more than 2^64 handlers have arrived |
| TLSConfig.JoinSplit | pkg/internal/tlsconfig/tlsconfig.go:66 | splitting cuts exactly at the commas |
| TLSConfig.TrimSpaceOf | pkg/internal/tlsconfig/tlsconfig.go:70 | trimming removes exactly the spaces around |
| TLSConfig.ParseNames | pkg/internal/tlsconfig/tlsconfig.go:93-120 | success iff every item that is not blank is in the table, then the identifiers in order, nil iff there is none; else the first unknown name |
| TLSConfig.ParseCipherSuites | pkg/internal/tlsconfig/tlsconfig.go:54-88 | the same for the table built from the safe suites |
| TLSConfig.TableHasLast | pkg/internal/tlsconfig/tlsconfig.go:61-64 | the table of that loop has the names of the list, each with its last identifier there |
| TLSConfig.ParseCurvePreferences | pkg/internal/tlsconfig/tlsconfig.go:90-120 | the same for the curves |
| TLSConfig.ParsedIsUnique | pkg/internal/tlsconfig/tlsconfig.go:56-120 | the names and the table determine the result |
| TLSConfig.JoinedNamesParse | pkg/internal/tlsconfig/tlsconfig.go:66-87 | known names joined by commas, with any blanks and blank items, parse to exactly their identifiers |
| TLSConfig.KnownNamesParse | pkg/internal/tlsconfig/tlsconfig.go:66-87 | known names with nothing but commas between them parse to their identifiers, one by one |
| TLSConfig.CurvesAreWritable | pkg/internal/tlsconfig/tlsconfig.go:31-37 | every curve name can be written in a list |
| TLSConfig.CurveGroups | pkg/internal/tlsconfig/tlsconfig.go:31-37 | the names of the curves and the numbers of their groups |
| JUnitFilter.SkipReasonRoundTrip | release-tools/filter-junit.go:63-80 | marshal then unmarshal is the identity exactly on reasons that are not empty, and unmarshal then marshal exactly on texts that are not a single blank; no element is read as that of a test that was run |
| JUnitFilter.Merge | release-tools/filter-junit.go:116-127 | per matching name the first case that was run, else the first case |
| JUnitFilter.MergeKeeps | release-tools/filter-junit.go:115-127 | in terms of the list: a name is kept iff it matches and occurs, with its first case that was run or, if none was, its first |
| JUnitFilter.Values | release-tools/filter-junit.go:128-131 | the kept cases, each once, in any order |
| JUnitFilter.Filter | release-tools/filter-junit.go:116-131 | both together |
| JUnitFilter.MergeIsUnique | release-tools/filter-junit.go:116-127 | cases and pattern determine what is kept |
| JUnitFilter.MergeIncrementally | release-tools/filter-junit.go:17-21 | filtering a filtered file with more cases equals filtering everything at once |
| SnapshotClasses.GetDefaultVolumeSnapshotClassForDriver | pkg/internal/server/grpc/snapshotter_secret.go:92-127 | a class iff exactly one is a default of the driver, one error iff several are, the other iff none is |
| SnapshotClasses.SelectionMeans | pkg/internal/server/grpc/snapshotter_secret.go:99-127 | in terms of the list: found is the only class of the driver annotated "true"; several iff two are; none iff none is |
| SnapshotClasses.SelectionIgnoresOrder | pkg/internal/server/grpc/snapshotter_secret.go:99-123 | the outcome is the same for every order of the list |
| SidecarFlags.RuntimeArgsToArgv | pkg/sidecar/sidecar.go:256-318 | the program name and two words for each argument that is not the default |
| SidecarFlags.ArgvInFull | pkg/sidecar/sidecar.go:256-318 | all words in order, with the name of each flag and the default at which it is left out |
| SidecarFlags.ParsePair | pkg/sidecar/sidecar.go:224-227 | a flag takes the next word as its value, whatever it looks like |
| SidecarFlags.ParseWords | pkg/sidecar/sidecar.go:224-235 | parsing the written words sets exactly the written flags, or fails iff a flag rejects its text |
| SidecarFlags.NoFlagsParse | pkg/sidecar/sidecar.go:180-209 | an empty command line gives these defaults |
| SidecarFlags.OtherFlags | pkg/sidecar/sidecar.go:54-66 | the flags that are read but never written, by name |
| SidecarFlags.ArgvRoundTrip | pkg/sidecar/sidecar.go:237-318 | writing and parsing back gives the same arguments iff the texts of timeout and rate, if written, are read back and no environment variable supplies a file name where there is none |

## Left out

- Kubernetes clients, token and access reviews, certificates, connection set-up: arbitrary answers.
- The checks on VolumeSnapshot and VolumeSnapshotContent objects when a previous snapshot is looked up by name: one arbitrary answer.
- Time: deadlines and cancellation are errors of a stream at any point.
- Log output and metrics; of the relay's log only the recorded position is kept.
- Error texts; an error is a kind or a gRPC code.
- JSON beyond what records need: white space, fractions, strings as values.
- Nil elements in a list of tuples, which no message from the wire contains.
- Identical source and target devices.
- SharedFactory.SharedInformerFactory.Start: a method of the class runs without interruption; other threads get their turn between methods there, and everywhere in FactoryProtocol.
- Options of the informer factory: resync periods, transforms, namespaces.
- Server.Server.Serve: the method runs one handler without interruption; handlers that interleave are runs of RequestGate.
- TLS version names: a table look-up.
- ParseCipherSuites and ParseCurvePreferences contain the same loop twice; it is modelled once, as TLSConfig.ParseNames.
- The flags of klog in the sidecar's flag set.
- The text forms of durations, floats and booleans, and of integers other than plain decimal numerals: any functions.
- The scheduler: that a step which is possible is eventually taken.
- XML decoding and encoding in filter-junit; regular expressions are arbitrary predicates on names.
- Snapshotter secrets after the class is found: substitution in their names and their retrieval.
- The HTTP server, signals and process start.
