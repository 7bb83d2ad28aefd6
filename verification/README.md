# Verified model of the WSL–Windows relay

The relay multiplexes streams, listeners and datagrams over one frame link whose transport can be replaced at any
time, and keeps Windows-side listeners in step with the sockets of WSL processes through a lease service. This project
models the parts whose correctness depends on interleavings, shared counters and wire formats, and proves what they
promise.

How the model is built:

- **Concurrent protocols are state machines.** Every section a program runs under a lock, every call to a backend or to
  the operating system and every close is one step (a two-state predicate); runs are arbitrary sequences of steps.
  `RunKeeps` lemmas carry an inductive invariant over every run and the main lemmas read the result off it.
- **Safety says what never goes wrong, the `Outcomes` modules say what is achieved:** what the steps of an operation add
  up to when nothing else gets in between, step by step, so that a machine which merely does nothing would not do.
- **Objects that change in place are classes**, loops are loops. The methods of `LeaseTable.Server`,
  `RelayTable.Registry` and `WatcherMaps.Maps` take the surrounding machine state as a ghost argument and are proved to
  make exactly one of its steps. `FramedLink.Link` computes the functions the link machine's steps are made of.
- **Wire formats are functions with loop-form methods** proved equal to them.

| module | what it covers |
|---|---|
| `Bytes`, `Sequences`, `SelfDelimiting`, `Frames` | octets, self-delimiting streams, relay frames |
| `FramedLink`, `LinkDelivery`, `LinkOutcomes` | the replaceable link, retrying writers, the reader |
| `Stream`, `StreamPipe`, `StreamSafety`, `StreamEnds`, `StreamOverdraw`, `StreamOutcomes` | flow control and the byte pipe of a stream |
| `Tracking`, `Owners`, `Ownership`, `Reaping`, `LeaseSafety`, `ReaperRace`, `LeaseOutcomes` | the interposer's descriptor list, lease owners, processes and the reaper |
| `LeaseServer`, `LeaseTable`, `LeaseBooks` | the control server's lease table, and how it refines the owner book |
| `Supervisor` | the ptrace supervisor's binding groups |
| `RelayOpen`, `SocketSafety`, `StreamReopen`, `RelayOutcomes`, `RelayTable` | how the relay server opens, owns and closes sockets |
| `Watcher`, `WatcherSafety`, `WatcherOutcomes`, `WatcherMaps`, `Retry` | the automatic-forward reconciler |
| `AttachWire`, `AttachRegistry`, `Broker` | attach/resume codecs, handshake, broker registry |
| `Runes`, `Diagnostic` | bounded UTF-8 diagnostics |

Where the code does less than one might expect, the exact condition is proved:

- The reaper lists a process's descriptors and reads their links one by one. A process that duplicates its descriptor and
  closes the old one meanwhile is taken for dead and loses its lease (`ReaperRace.LeaseDiesUnderTrackedDescriptor`, and
  from every exposed state `ReaperRace.RaceLosesLease`). A verdict is right exactly when no tracked descriptor of the
  lease was made by dup since the look began (`Reaping.VerdictIsRightIff`), and ownership holds over every run without a
  raced verdict (`LeaseSafety.TrackedDescriptorKeepsItsLease`).
- Server-to-client credit is conserved exactly when every `take` was granted in full
  (`StreamSafety.DownstreamCreditIsConservedIff`), because `copyToClient` sends all it read even when it was granted less;
  `StreamOverdraw.HonestUpdateIsRefused` is a run in which an honest window update is then refused.
- A stream's open stores its socket in whatever entry has the id. If the id was closed and opened again meanwhile, one
  socket is overwritten and never closed (`StreamReopen.ReopenedStreamLeaks`); nothing leaks exactly as long as no store
  overwrites (`SocketSafety.StoreLosesIff`). The other kinds may use ids again.
- A reservation that the backend returns together with an error is dropped unclosed; every other one is accounted for
  (`LeaseServer.ReservationsAreAccountedIff`).
- A rollback in the supervisor restores the owners exactly when the process held none of the leases before and the
  RELEASE of every adopted lease arrived (`Supervisor.RollbackRestoresIff`, `Supervisor.CompleteIffReleased`).
- A frame cut right after its header reads as a clean end of the stream, not as a truncated frame
  (`Frames.ReadCutFrame`), because the payload is read by a full read of its own.

## Model

| member | source | states |
|---|---|---|
| `LeaseSafety.TrackedDescriptorKeepsItsLease` | native/listen_interposer.c:398-464 | in every run of listening, UDP binding, dup, fcntl-dup, close, close_range, fork and exit, with lost requests, pid reuse and a reaper that looks and acts late, in which no dup raced a verdict of the reaper, a live process's tracked open descriptor has its lease in the server's book with that very process as an owner |
| `LeaseSafety.QuietLooksAreCalm` | internal/listencontrol/server.go:728-745 | no verdict is raced as long as no process duplicates a descriptor of the socket the reaper is looking for in it |
| `LeaseSafety.UnlinkedOwnerIsNeverRaced` | internal/listencontrol/server.go:719-720 | an owner recorded without a link is only reaped when its process is gone |
| `Reaping.VerdictIsRightIff` | internal/listencontrol/server.go:728-745 | when the listing and all the reads found nothing, taking the owner off the lease is right exactly when no tracked open descriptor of the lease was made by dup since the look began |
| `Reaping.WrongVerdictLosesOwner` | internal/listencontrol/server.go:718-724 | a raced verdict, carried out, takes the owner away under a tracked open descriptor |
| `Reaping.CalmVerdictKeeps` | internal/listencontrol/server.go:705-726 | an owner condemned without a race belongs to no process that still needs it, and never will |
| `Reaping.LookWatched` | internal/listencontrol/server.go:728-745 | at every step of a look each open descriptor of the target is still to be listed, still to be read, or was made since |
| `Reaping.DupWatched` | native/listen_interposer.c:905-914 | a dup during a look is known as such |
| `Reaping.OrphanKeeps` | internal/listencontrol/server.go:363-367 | removing a lease whose answer could not be written harms no process |
| `ReaperRace.RaceLosesLease` | internal/listencontrol/server.go:728-745 | from every state in which a process has one tracked descriptor on a linked lease, dup and close during a look lose the lease |
| `ReaperRace.LeaseDiesUnderTrackedDescriptor` | internal/listencontrol/server.go:728-745 | a concrete run in which a lease dies while a tracked descriptor of it is open |
| `LeaseSafety.TrackedDescriptorsAreOpen` | native/listen_interposer.c:894-999 | a tracked descriptor is open except inside the window of a close_range in progress |
| `LeaseSafety.RunKeeps` | native/listen_interposer.c:647-772 | the invariant (local lists, owned leases, fork gates, private leases, doomed owners) holds in every reachable state |
| `LeaseOutcomes.ListenOwns` | native/listen_interposer.c:647-704 | an uninterrupted listen ends with the descriptor tracked, for a new lease the process owns |
| `LeaseOutcomes.BindOwns` | native/listen_interposer.c:711-772 | so does a UDP bind, without a COMMIT |
| `LeaseOutcomes.AbandonedListenLeavesNothing` | native/listen_interposer.c:683-703 | a listen that cannot be finished leaves no lease and no entry, and closes the descriptor where the code does |
| `LeaseOutcomes.UnansweredReserveLeavesNothing` | internal/listencontrol/server.go:363-367 | a RESERVE whose answer was lost leaves the book as it was |
| `LeaseOutcomes.LastCloseReleases` | native/listen_interposer.c:894-903 | close of the last descriptor of a lease, with its RELEASE delivered, ends the ownership |
| `LeaseOutcomes.SharedCloseReleasesNothing` | native/listen_interposer.c:894-903 | close of any other descriptor sends nothing |
| `LeaseOutcomes.RangeCloses` | native/listen_interposer.c:1116-1133 | close_range closes exactly the numbers in the range |
| `LeaseOutcomes.RangeTurn` | native/listen_interposer.c:556-588 | each turn after it takes out the first entry in the range, and gives up the lease exactly with its last entry |
| `LeaseOutcomes.DupTracks` | native/listen_interposer.c:905-914 | dup of a tracked descriptor tracks the new one for the same lease on the same socket |
| `LeaseOutcomes.DupWithoutMemory` | native/listen_interposer.c:905-914 | without memory the new descriptor is closed again and nothing else changed |
| `LeaseOutcomes.ForkHandsOver` | native/listen_interposer.c:948-999 | from every calm run a fork whose ADOPTs are all answered ends with the child running and owning the lease of every descriptor it inherited |
| `LeaseOutcomes.FailedForkKillsChild` | native/listen_interposer.c:466-474 | after one unanswered ADOPT the gate never opens and the child is killed |
| `LeaseOutcomes.DeadOwnerIsReaped` | internal/listencontrol/server.go:705-726 | the reaper takes away the ownership of a process that is gone, and nobody else's |
| `LeaseOutcomes.IdleOwnerIsReaped` | internal/listencontrol/server.go:728-745 | and that of a process with no descriptor of the socket left |
| `LeaseOutcomes.BusyOwnerIsSpared` | internal/listencontrol/server.go:738-743 | a look that finds a link to the socket condemns nobody |
| `Ownership.RemoveOwnerKeeps` | internal/listencontrol/server.go:546-567 | dropping such an owner later, after any other steps, harms no live process |
| `Ownership.OpenGateKeeps` | native/listen_interposer.c:948-999 | a forked child is let through the gate only when it owns every lease it inherited |
| `Ownership.AdoptNextKeeps` | native/listen_interposer.c:398-431 | each ADOPT of the fork, answered or not, keeps the invariant |
| `Owners.AdoptOwned` | internal/listencontrol/server.go:393-430 | adoption adds or refreshes exactly one owner and no other |
| `Owners.RemoveOwnerOwned` | internal/listencontrol/server.go:546-567 | removal takes away exactly the process with that identity, and the lease with its last owner |
| `Tracking.UnlinkKeeps` | native/listen_interposer.c:538-554 | removing an entry keeps refs equal to the number of entries, and hands the id back exactly when the last one goes |
| `Tracking.AddKeeps` | native/listen_interposer.c:521-536 | a new tracked descriptor keeps the refcounts right |
| `Tracking.ShareKeeps` | native/listen_interposer.c:590-610 | a duplicate keeps the refcounts right and changes only its own lease's |
| `Tracking.TrackedList.Find` | native/listen_interposer.c:508-519 | finds a descriptor exactly when it is tracked |
| `Tracking.TrackedList.Add` | native/listen_interposer.c:521-536 | prepends the entry with a fresh cell, or changes nothing without memory |
| `Tracking.TrackedList.Remove` | native/listen_interposer.c:538-554 | removes the first entry of the descriptor and returns the lease id exactly when its refs reach zero |
| `Tracking.TrackedList.ReleaseRange` | native/listen_interposer.c:556-588 | terminates with exactly the descriptors outside the range, having released exactly the leases whose descriptors all lay inside, each once |
| `Tracking.TrackedList.Duplicate` | native/listen_interposer.c:590-610 | the duplicate shares the cell of the first entry of the old descriptor |
| `Tracking.TrackedList.Replace` | native/listen_interposer.c:612-645 | dup2: the target's old entry goes, its lease is handed back exactly when no entry left has its cell, and the new entry has the source's cell |
| `Tracking.RefsOutside` | native/listen_interposer.c:556-588 | a lease keeps a reference after a range release exactly when one of its descriptors lay outside |
| `Tracking.CellsAfterRange` | native/listen_interposer.c:556-588 | the cells left after a range release are exactly those with a descriptor outside the range |
| `LeaseServer.RunKeeps` | internal/listencontrol/server.go:333-391 | the table invariant and the slot and owner limits hold in every interleaving |
| `LeaseServer.TabledReservationIsOpen` | internal/listencontrol/server.go:602-690 | a reservation stored in a tabled lease is open, and committed exactly when the lease is |
| `LeaseServer.ReservationsAreAccountedIff` | internal/listencontrol/server.go:343-367 | a reservation the backend returned is tabled, in the hands of a step in progress, or closed at least once, exactly when it came without an error |
| `LeaseServer.QuietServerHoldsNothing` | internal/listencontrol/server.go:569-582 | with nothing in progress and an empty table every reservation is closed and no slot is pending |
| `LeaseServer.StoreKeeps` | internal/listencontrol/server.go:675-684 | a replacement is stored only where a table entry or a remover that has not read yet will find it |
| `LeaseServer.CommitLeaseKeeps` | internal/listencontrol/server.go:481-505 | COMMIT marks reservation and lease together, against any rebind |
| `LeaseServer.TakeKeeps` | internal/listencontrol/server.go:634-642 | a rebind takes the old reservation out before anyone else can close it unseen |
| `LeaseServer.SlotHeld` | internal/listencontrol/server.go:385-391 | a slot given back was held: the guard of releaseLeaseSlot never fails |
| `LeaseServer.InsertBounded` | internal/listencontrol/server.go:343-362 | a slot turns into a tabled lease without exceeding the limit |
| `LeaseServer.DropOwnerBounded` | internal/listencontrol/server.go:546-567 | a tabled lease never runs out of owners |
| `LeaseTable.Server.AcquireLeaseSlot` | internal/listencontrol/server.go:370-383 | takes a slot exactly when tabled and pending leases are below the limit, as one machine step |
| `LeaseTable.Server.ReleaseLeaseSlot` | internal/listencontrol/server.go:385-391 | gives the slot back, as one machine step |
| `LeaseTable.Server.InsertLease` | internal/listencontrol/server.go:352-362 | tables the new lease under a new id with its first owner |
| `LeaseTable.Server.Adopt` | internal/listencontrol/server.go:404-429 | succeeds exactly for a known lease and a known owner or a free owner place |
| `LeaseTable.Server.TakeOwner` | internal/listencontrol/server.go:546-561 | removes exactly the owner that registered, and the lease from the table exactly with its last owner |
| `LeaseTable.Server.RemoveLease` | internal/listencontrol/server.go:531-535 | takes the lease out of the table and says whether it was there |
| `LeaseTable.Server.CommitSection` | internal/listencontrol/server.go:487-499 | marks the lease and its reservation committed exactly when there is a reservation and its commit succeeded; without a reservation nothing happens, and a failed commit leads to the removal |
| `LeaseTable.Server.TakeReservation` | internal/listencontrol/server.go:628-644 | RetryMissing leaves a present reservation alone; otherwise the old one is taken out and closed |
| `LeaseTable.Server.StoreReplacement` | internal/listencontrol/server.go:666-684 | the replacement is kept exactly when the lease is still tabled and its commit, if needed, succeeded; else it is closed |
| `LeaseTable.Server.Rebind` | internal/listencontrol/server.go:602-690 | an uninterrupted pass: a canceled turn, or a retry that finds a reservation, leaves the lease alone; every other turn closes the old reservation, stores the new one exactly when the backend returned it without an error and a committed lease's commit succeeded, closes it when that commit failed, and leaves the lease without one otherwise; no other lease changes |
| `LeaseTable.Server.RebindOne` | internal/listencontrol/server.go:619-686 | one turn of that pass, as a path of machine steps |
| `LeaseTable.Server.Reserve` | internal/listencontrol/server.go:333-368 | an uninterrupted RESERVE: below the limit what the backend returned is tabled under a new id, and closed again if the answer cannot be written; everything else changes nothing but gives the slot back |
| `LeaseTable.Server.Commit` | internal/listencontrol/server.go:481-505 | an uninterrupted COMMIT: lease and reservation become committed, or the lease leaves the table and its reservation is closed |
| `LeaseTable.Server.Release` | internal/listencontrol/server.go:432-449 | an uninterrupted RELEASE: the owner that registered goes, and with the last one the lease and its reservation |
| `LeaseTable.Server.RemoveAndClose` | internal/listencontrol/server.go:531-544 | the lease is out of the table and exactly its reservation is closed |
| `LeaseTable.Server.CloseAll` | internal/listencontrol/server.go:569-582 | the table is empty and exactly the reservations of its leases are closed |
| `LeaseBooks.TableRefinesBook` | internal/listencontrol/server.go:343-582 | every step of the lease table is a RESERVE, ADOPT, RELEASE, removal or shutdown of the owner book, or leaves it alone |
| `LeaseBooks.TrackedLeaseIsServed` | internal/listencontrol/server.go:546-567 | with the same book, a tracked descriptor's lease is tabled with its process as an owner, and what it stores is open and committed exactly with the lease |
| `FramedLink.Link.Attach` | internal/transport/framed/link.go:39-64 | unless nil or closed the new endpoint is current in place of whatever was, and the old one is handed out to be closed; otherwise nothing changes |
| `FramedLink.Link.DetachIfCurrent` | internal/transport/framed/link.go:154-162 | detaches that endpoint only if it is still the current one |
| `FramedLink.Link.Detach` | internal/transport/framed/link.go:188-200 | acts once, answers the same ever after, and never touches a newer attachment |
| `FramedLink.Link.Close` | internal/transport/framed/link.go:164-179 | closed for good, with nothing current, and the endpoint handed out to be closed |
| `LinkDelivery.RunKeeps` | internal/transport/framed/link.go:66-133 | the link invariant over attachments, failures, retries and concurrent writers |
| `LinkDelivery.DeliveryIsInOrderAtMostOnce` | internal/transport/framed/link.go:66-133 | the frames ReadFrame returns are an in-order subsequence of those written, and no write call is written twice |
| `LinkDelivery.FrameComesFromOneConnection` | internal/transport/framed/link.go:66-89 | a returned frame was decoded wholly from one attachment and is the next one completely written there |
| `LinkDelivery.EachStreamIsInOrder` | internal/transport/framed/link.go:66-133 | the frames of each stream id arrive as an in-order subsequence of those written for it |
| `FramedLink.FailKeeps` | internal/relay/client.go:464-490 | a failed write leaves at most a cut frame, and the retry cannot duplicate it |
| `LinkOutcomes.NewestIsWritten` | internal/transport/framed/link.go:95-147 | after an attach on an open link the next writer uses that attachment |
| `LinkOutcomes.NewestIsRead` | internal/transport/framed/link.go:66-79 | and so does the next reader |
| `LinkOutcomes.ClosedIsUnused` | internal/transport/framed/link.go:135-147 | on a closed link nothing is attached, written or read any more |
| `LinkOutcomes.WaitingFrameIsWritten` | internal/transport/framed/link.go:95-133 | a valid frame waiting at an intact attachment is written whole |
| `LinkOutcomes.FailedFrameIsRetried` | internal/relay/client.go:464-490 | a frame whose write failed goes out on the next attachment as the same call |
| `LinkOutcomes.StaleWriterStartsOver` | internal/transport/framed/link.go:114-125 | a writer whose attachment was replaced cannot write on it, starts over and uses the new one |
| `LinkOutcomes.FailedReadDetaches` | internal/transport/framed/link.go:81-88 | a failed read detaches its own attachment and no newer one |
| `LinkOutcomes.FrameGoesThrough` | internal/transport/framed/link.go:66-133 | on an intact attachment current at both ends and read up to date, a frame waiting to be written is written and then returned by the other end |
| `Frames.ReadAfterEncode` | internal/protocol/frame.go:139-180 | reading what was written gives the frame and stops right after it |
| `Frames.Layout` | internal/protocol/frame.go:139-153 | magic, version, type, two zero octets, stream id, length and payload stand where the header puts them, numbers big-endian |
| `Bytes.BigEndian` | internal/protocol/frame.go:147-148 | the first octet of a number is the most significant |
| `Frames.EncodeAfterRead` | internal/protocol/frame.go:155-180 | what reads as a frame is its encoding, up to the reserved octets, and the frame is valid |
| `Frames.ReadCutFrame` | internal/protocol/frame.go:155-180 | a frame cut anywhere is never mistaken for one; the error is that of a clean end exactly at the start or right after the header |
| `Frames.ReadAllFrames` | internal/protocol/frame.go:139-180 | any list of valid frames reads back exactly; cut anywhere, it reads back as the whole frames before the cut and then an error |
| `Frames.WriteFull` | internal/protocol/frame.go:186-198 | all the bytes or a prefix of them; it stops early exactly at the first error or empty write |
| `Frames.Write` | internal/protocol/frame.go:139-153 | an invalid frame writes nothing; a valid one its encoding, or a prefix of it when the writer gave up, and for no other reason |
| `Frames.WriteAll` | internal/protocol/frame.go:139-198 | what was written reads back as the list, or as a prefix of it when the writer gave up |
| `SelfDelimiting.ReadAllOfCut` | internal/protocol/frame.go:155-180 | for any self-delimiting format, where a cut stream stops and with which error |
| `StreamSafety.UpstreamCreditIsConserved` | internal/relay/window.go:24-53 | client to server, all credit everywhere plus what was lost is the initial window at every moment, so it never exceeds it, equals it while nothing is lost, and no honest update is refused |
| `StreamSafety.DownstreamCreditIsConservedIff` | internal/relay/server.go:712-736 | server to client, the same holds exactly on runs whose takes were all granted in full |
| `StreamOverdraw.HonestUpdateIsRefused` | internal/relay/server.go:723-726 | a concrete run in which a short grant makes the sender refuse an honest update |
| `StreamSafety.RunLawful` | internal/relay/window.go:20-53 | credit is only ever lost, or made by sending beyond a grant, in both directions |
| `StreamSafety.StreamIsFifo` | internal/relay/server.go:213-234 | on an attachment that loses nothing, what came out is a prefix of what went in, and the end is passed on only after everything sent before the half-close |
| `StreamSafety.FramesAreValid` | internal/protocol/window.go:5-16 | every Data, HalfClose and WindowUpdate frame on the wire is valid and the peer decodes the count that was sent |
| `StreamSafety.RunPiped` | internal/relay/server.go:738-774 | the order of bytes and the place of the half-close in wire, queue and writer, in every run |
| `StreamOutcomes.ChunkGoesThrough` | internal/relay/server.go:712-774 | in either direction, with credit for it and nothing lost, a chunk comes out at the other end and its credit comes back |
| `StreamOutcomes.ShortTakeSends` | internal/relay/server.go:723-729 | with less credit than bytes the client sends what it was granted, copyToClient all it has |
| `StreamOutcomes.HalfCloseIsPassedOn` | internal/relay/server.go:740-749 | a half-close reaches the other end, at the place where it was sent |
| `StreamOutcomes.OverflowBreaks` | internal/relay/client.go:1148-1171 | data that finds the receive queue full is lost with its credit and breaks the stream |
| `StreamEnds.FlowWindow.Add` | internal/relay/window.go:24-40 | refuses zero and what would exceed the window, and then changes nothing |
| `StreamEnds.FlowWindow.Take` | internal/relay/window.go:42-84 | grants the request or all there is of the level it finds, at once or after the update that brought credit; takes credit only with a grant; fails only on end, new deadline or timeout |
| `StreamEnds.Write` | internal/relay/client.go:1293-1325 | the frames carry exactly the bytes reported as written, one frame for each grant whose frame the link took, in order; a send error means that the link refused the frame of the last grant, a credit error is the last take's answer, and with credit for everything and a willing link all is written |
| `StreamEnds.WriteToRemote` | internal/relay/server.go:750-769 | a prefix of the event reaches the socket, with one update for each write for what it took; a reset means that the last write failed or took nothing, and a lost update ends the loop at that very write |
| `StreamEnds.Receiver.Handle` | internal/relay/client.go:1148-1171 | data goes to the end of the queue or is refused when it is full; a half-close sets the flag |
| `StreamEnds.Receiver.Read` | internal/relay/client.go:1207-1291 | bytes come out in order without loss, from the buffer or else from the first event; the update equals what came out; an error is that of the first event; expiry, end and waiting are those of what it last woke up to; a drained end means that nothing is left |
| `Supervisor.FirstsAreDistinct` | native/strict_supervisor.c:408-431 | the leases a batch asks for are exactly the distinct non-zero ones, each once |
| `Supervisor.RollbackRestoresIff` | native/strict_supervisor.c:433-452 | a rollback restores the owners exactly when the process held none of the released leases, and had owned in the same way whatever it was given and not released |
| `Supervisor.CompleteIffReleased` | native/strict_supervisor.c:433-452 | for a process that held none, exactly when the RELEASE of every adopted lease arrived |
| `Supervisor.BatchOwns` | native/strict_supervisor.c:408-431 | after a batch the process owns every lease of it and nothing else changed |
| `Supervisor.ReleasedIsGone` | native/strict_supervisor.c:433-452 | the RELEASEs that arrive take away the process's ownership of these leases and nothing else |
| `Supervisor.ReleaseGroupOwner` | native/strict_supervisor.c:433-452 | one RELEASE per distinct lease, in order |
| `Supervisor.AdoptBinding` | native/strict_supervisor.c:363-374 | a binding's turn sends an ADOPT exactly for the first binding of a lease, and fails exactly when that ADOPT is not granted |
| `Supervisor.MigrateGroupOwner` | native/strict_supervisor.c:408-431 | it fails exactly at the first ADOPT that is not granted. Success: one ADOPT per distinct lease and all are owned; failure: one RELEASE per distinct lease, and of the adopted leases exactly those stay owned whose RELEASE was lost |
| `Supervisor.CloneGroup` | native/strict_supervisor.c:348-385 | the same for a copied group, which lists the bindings in reverse and also fails when memory runs out |
| `Supervisor.Group.LeaseIsReferenced` | native/strict_supervisor.c:286-293 | whether some binding has the lease |
| `Supervisor.Group.RemoveBinding` | native/strict_supervisor.c:542-559 | the first binding of the descriptor goes, with one RELEASE exactly when its lease has no other |
| `Supervisor.Group.RemoveBindingsRange` | native/strict_supervisor.c:561-576 | leaves exactly the bindings outside the range, with one RELEASE for each lease that lost them all |
| `Supervisor.Group.ReleaseGroup` | native/strict_supervisor.c:387-406 | empties the group with one RELEASE per distinct lease |
| `SocketSafety.RunKeeps` | internal/relay/server.go:268-305 | the socket invariant in every race of opens, closes, shutdown and listeners |
| `SocketSafety.SocketsAreOwnedOrClosed` | internal/relay/server.go:668-710 | with ids used again and no stream's store overwriting a socket: once no open or accept holds it, a socket is closed or belongs to an entry that is registered or about to be closed by whoever removed it |
| `SocketSafety.StoreLosesIff` | internal/relay/server.go:695-703 | a store loses a socket exactly when it overwrites one, and only streams can |
| `SocketSafety.SingleUseIsCalm` | internal/relay/server.go:668-710 | nothing is overwritten as long as no stream id is used twice |
| `StreamReopen.ReopenedStreamLeaks` | internal/relay/server.go:668-710 | a concrete run in which a stream id closed and opened again leaks a socket |
| `SocketSafety.RegisteredSocketsAreOpen` | internal/relay/server.go:819-833 | a registered entry's socket is open (a listener's until its context ends) and no two entries share one |
| `SocketSafety.InboundOpensFollowCommit` | internal/relay/server.go:591-622 | no InboundOpen before the listener's ListenCommit was handled, and the registries stay within their limits |
| `SocketSafety.QuietServerHasNoSockets` | internal/relay/server.go:835-875 | with empty registries and nothing in progress every socket is closed |
| `RelayOpen.StoreAccounts` | internal/relay/server.go:695-703 | the socket passes from the open to its entry, or the open closes it |
| `RelayTable.Registry.RegisterEntry` | internal/relay/server.go:675-688 | registers exactly when the id is free and the registry is not full |
| `RelayTable.Registry.StoreConn` | internal/relay/server.go:575-583 | an entry is found exactly when the id is registered, to anything for a stream, to this very entry, not canceled and the server up, for the other kinds; the socket is then in the entry registered under the id, and otherwise the caller has it to close |
| `RelayTable.Registry.RemoveEntry` | internal/relay/server.go:655-666 | takes the entry out, cancels it and closes its socket if it has one |
| `RelayTable.Registry.RegisterInboundStream` | internal/relay/server.go:624-637 | registers an accepted connection, with its socket, exactly when there is room and the id is free, and closes it otherwise |
| `RelayTable.Registry.Shutdown` | internal/relay/server.go:835-875 | the registries end empty, every entry canceled and every socket they had closed |
| `RelayOutcomes.OpenSucceeds` | internal/relay/server.go:668-710 | an uninterrupted open of any kind ends with the id leading to its entry and the open socket in it |
| `RelayOutcomes.HealthyOpenIsNeverLate` | internal/relay/server.go:572-583 | in every run: as long as its entry is registered, not canceled and the server up, an open is never told to throw its socket away |
| `RelayOutcomes.UnansweredOpenLeavesNothing` | internal/relay/server.go:705-708 | an open whose OK cannot be sent ends with the id free and the socket closed |
| `RelayOutcomes.FailedDialLeavesNothing` | internal/relay/server.go:690-694 | so does one whose dial fails |
| `RelayOutcomes.FailedDialAndTheOther` | internal/relay/server.go:564-575 | a failed listener leaves another entry under its id alone, the other kinds take it out |
| `RelayOutcomes.ClosedOpenClosesItsSocket` | internal/relay/server.go:695-701 | an open closed while it dials closes the socket it then gets |
| `RelayOutcomes.CommittedListenerAnnounces` | internal/relay/server.go:591-622 | a committed listener accepts, registers the connection as a stream and announces it |
| `RelayOutcomes.FailedAcceptEndsListener` | internal/relay/server.go:602-607 | a listener whose accept fails is removed and its socket closed |
| `RelayOutcomes.UnannouncedConnectionIsClosed` | internal/relay/server.go:616-619 | a connection that cannot be announced is removed and closed |
| `RelayOutcomes.ShutdownEndsWaitingListener` | internal/relay/server.go:592-600 | shutdown ends a listener that waits for its commit, and its socket can only be closed |
| `WatcherSafety.RunKeeps` | internal/autoforward/watcher.go:341-473 | the reconciler invariant in every interleaving of sync, opens, Reset and closeAll |
| `WatcherSafety.HandlesAreOwnedOrClosedOnce` | internal/autoforward/watcher.go:475-573 | every handle is the single active mapping of its key, on its way to be closed, or closed once; active mappings are of the current generation |
| `WatcherSafety.CloseAllClosesEverything` | internal/autoforward/watcher.go:709-727 | after closeAll every handle the opener returned was closed exactly once |
| `WatcherSafety.SyncSettlesEveryKey` | internal/autoforward/watcher.go:354-410 | a sync without Reset or cancellation leaves each desired key, and no other, active or rejected with the scanned listener, never both |
| `WatcherOutcomes.AnswerDecides` | internal/autoforward/watcher.go:475-573 | in every interleaving of a sync without Reset or cancellation: a key for which the opener returned a handle and no error ends active with exactly that handle and the scanned listener; one for which it returned an error or no handle ends rejected, and what came with the error is closed |
| `WatcherOutcomes.UnaskedKeyIsAsItWas` | internal/autoforward/watcher.go:441-453 | and a key the opener was not asked about ends as the first section of the sync left it |
| `WatcherOutcomes.HealthyMappingSurvives` | internal/autoforward/watcher.go:384-396 | a mapping that is still wanted as it is survives the sync untouched |
| `WatcherOutcomes.NewKeyIsTried` | internal/autoforward/watcher.go:441-453 | a desired key that is not mapped as it should be gets an attempt |
| `WatcherOutcomes.TriedKeyIsOpened` | internal/autoforward/watcher.go:475-517 | the attempt asks the opener, and an answer for the current session is taken up |
| `WatcherOutcomes.OpenedKeyIsMapped` | internal/autoforward/watcher.go:548-573 | and ends active, with its rejections forgotten and the sync over |
| `WatcherSafety.RejectionMapsAgree` | internal/autoforward/watcher.go:514-567 | the four rejection maps always have the same keys, and none of them is active |
| `Watcher.PublishKeeps` | internal/autoforward/watcher.go:558-571 | publishing checks the generation again, so no stale mapping gets in and none is overwritten |
| `WatcherMaps.DesiredOf` | internal/autoforward/watcher.go:354-364 | the desired map has a key exactly when some listener of it passes the filters, with the last such listener |
| `WatcherMaps.Maps.BeginSyncSection` | internal/autoforward/watcher.go:383-410 | makes the first step of a sync, with exactly the handles of the removed mappings to close |
| `WatcherMaps.Maps.Prune` | internal/autoforward/watcher.go:383-410 | its two loops keep exactly the mappings wanted as they are, and forget in all five maps exactly the rejections of removed mappings and those no longer wanted as they were |
| `WatcherMaps.Maps.RecordRejection` | internal/autoforward/watcher.go:518-526 | all rejection maps get the key together, with one failure more than before, as the machine's step |
| `WatcherMaps.Maps.PublishMapping` | internal/autoforward/watcher.go:560-567 | publishes exactly in the same generation and for the wanted listener, as the machine's step |
| `WatcherMaps.Maps.CollectOne` | internal/autoforward/watcher.go:441-453 | a key is tried unless its mapping is in order or its retry is not due yet |
| `WatcherMaps.Maps.ClearRejection` | internal/autoforward/watcher.go:548-554 | all rejection maps lose the key together |
| `WatcherMaps.Maps.OpenOne` | internal/autoforward/watcher.go:497-573 | an uninterrupted openOne after the opener answered: a stale or canceled attempt is closed and changes nothing, a refusal is recorded and what came with it closed, a handle without an error is published and the rejections of its key are forgotten |
| `WatcherMaps.Maps.ResetSection` | internal/autoforward/watcher.go:731-751 | everything is forgotten, the generation moves on and the handles are returned, as the machine's step |
| `WatcherMaps.Maps.CloseAllSection` | internal/autoforward/watcher.go:709-727 | the same, except that the set of reported keys stays |
| `Retry.BackoffGrows` | internal/autoforward/watcher.go:692-707 | the delay is monotone in the number of failures and stays within the bounds |
| `Retry.BackoffDoubles` | internal/autoforward/watcher.go:692-707 | the first delay is the lower bound and every further failure doubles it up to the upper one |
| `Retry.Policy.Normalise` | internal/autoforward/watcher.go:329-339 | defaults for bounds that are not positive, and the upper bound at least the lower |
| `Retry.Policy.Delay` | internal/autoforward/watcher.go:692-707 | equals min(RetryMin * 2^(k-1), RetryMax) in 64-bit arithmetic that never overflows |
| `AttachWire.DecodeAfterAttach` | internal/transport/attach/wire.go:139-160 | decoding an encoded ATTACH gives it back |
| `AttachWire.AttachAfterDecode` | internal/transport/attach/wire.go:139-160 | an accepted ATTACH payload re-encodes to the same bytes |
| `AttachWire.DecodeAfterSummary` | internal/transport/attach/wire.go:255-300 | decoding an encoded summary gives it back |
| `AttachWire.SummaryAfterDecode` | internal/transport/attach/wire.go:255-300 | an accepted summary payload is valid and re-encodes to the same bytes |
| `AttachWire.DecodeAfterAck` | internal/transport/attach/wire.go:302-338 | decoding an encoded acknowledgement gives it back |
| `AttachWire.AckAfterDecode` | internal/transport/attach/wire.go:302-338 | an accepted acknowledgement payload is valid and re-encodes to the same bytes |
| `AttachWire.AttachOKRoundTrip` | internal/transport/attach/wire.go:162-195 | both forms of ATTACH_OK are read back, the short one with instance 0 |
| `AttachWire.AttachOKAfterDecode` | internal/transport/attach/wire.go:162-195 | only the two lengths are accepted, and an accepted payload is what its encoder writes |
| `AttachWire.SummaryLayout` | internal/transport/attach/wire.go:255-277 | epoch, count and the id, kind and state of each entry stand where the format puts them |
| `AttachWire.AckLayout` | internal/transport/attach/wire.go:302-318 | the same for epoch, count and ids of an acknowledgement |
| `AttachWire.AttachLayout` | internal/transport/attach/wire.go:139-177 | the same for the fields of ATTACH and ATTACH_OK |
| `AttachWire.MessageLayout` | internal/transport/attach/wire.go:80-95 | the same for the message header |
| `AttachWire.MakeSummary` | internal/transport/attach/wire.go:255-277 | the encoding loop accepts exactly the valid summaries |
| `AttachWire.ParseSummary` | internal/transport/attach/wire.go:279-300 | the decoding loop computes the decoder |
| `AttachWire.MakeAck` | internal/transport/attach/wire.go:302-318 | the encoding loop accepts exactly the valid acknowledgements |
| `AttachWire.ParseAck` | internal/transport/attach/wire.go:320-338 | the decoding loop computes the decoder |
| `AttachWire.SubsetIsNoLonger` | internal/transport/attach/wire.go:344-346 | the early length check never rejects a true subset |
| `AttachWire.ValidateResumeAck` | internal/transport/attach/wire.go:340-358 | the single scan accepts a strictly increasing list exactly when the epochs match and every id is known |
| `AttachWire.ReadAfterEncode` | internal/transport/attach/wire.go:80-120 | reading a written message gives it back and stops right after it |
| `AttachWire.EncodeAfterRead` | internal/transport/attach/wire.go:97-120 | what reads as a message is valid and was written as one, up to the reserved octets |
| `AttachWire.ReadCutMessage` | internal/transport/attach/wire.go:97-120 | a cut message is never mistaken for one |
| `AttachWire.ReadAllMessages` | internal/transport/attach/wire.go:80-120 | any conversation of valid messages is read back exactly |
| `AttachRegistry.Registry.Attach` | internal/transport/attach/registry.go:79-97 | the right token on an open registry installs a new, non-zero generation; anything else changes nothing |
| `AttachRegistry.Registry.Close` | internal/transport/attach/registry.go:100-105 | closed, with nothing current |
| `AttachRegistry.Registry.CurrentEpoch` | internal/transport/attach/registry.go:110-117 | zero exactly when nothing is attached |
| `AttachRegistry.Attachment.Detach` | internal/transport/attach/registry.go:139-150 | afterwards this attachment is not current, a newer one is untouched, and the answer never changes |
| `AttachRegistry.ClientResume` | internal/transport/attach/wire.go:367-394 | the connector succeeds exactly on an ATTACH_OK and a summary of the same epoch, and acknowledges every entry |
| `AttachRegistry.CheckAck` | internal/transport/attach/wire.go:434-448 | the broker accepts exactly an acknowledgement of its epoch with known ids only |
| `AttachRegistry.HonestResume` | internal/transport/attach/wire.go:367-394 | an honest connector reads what the broker wrote, ends with its epoch and summary, and is accepted |
| `AttachRegistry.ServerResume` | internal/transport/attach/wire.go:416-450 | whatever other attachments and the registry do in between, the connector is sent the epoch, the capabilities, the instance and the summary of this epoch, the session is given exactly for a proper acknowledgement of it, and any failure after Attach leaves the attachment detached and not current |
| `Broker.SummaryIsCanonical` | internal/broker/broker.go:124-135 | the summary does not depend on map iteration order |
| `Broker.Registrar.Register` | internal/broker/broker.go:64-85 | a new non-zero id within the limit; refusals leave the entries alone |
| `Broker.Registrar.SetState` | internal/broker/broker.go:87-103 | changes exactly the state of a known entry to a valid one |
| `Broker.Registrar.Remove` | internal/broker/broker.go:105-116 | removes exactly a known entry |
| `Broker.Registrar.Sink` | internal/broker/broker.go:130-134 | one round of the insertion sort keeps the entries and extends the sorted part |
| `Broker.Registrar.MakeSummary` | internal/broker/broker.go:118-136 | exactly the registered entries in strictly increasing order, hence encodable and read back |
| `Broker.Registrar.Close` | internal/broker/broker.go:379-391 | closes the broker and its registry once |
| `Broker.Registrar.Accept` | internal/broker/broker.go:141-169 | a closed broker attaches nobody, one that closes meanwhile detaches again, otherwise the session is the handshake's |
| `Broker.Registrar.AcceptHonest` | internal/broker/broker.go:141-169 | from every state of an open broker a connector with the right token that acknowledges what the broker sent gets its session under the epoch Attach issued |
| `Diagnostic.Sanitised` | internal/diagnostic/text.go:15-15 | sanitised text is valid UTF-8, valid text is unchanged, and no line break comes in |
| `Diagnostic.FromTheFront` | internal/diagnostic/text.go:15-15 | a character is kept, and a whole run of octets that belong to none becomes one replacement character |
| `Diagnostic.UTF8` | internal/diagnostic/text.go:11-24 | the longest prefix of whole characters of the sanitised text within the bound, at most three bytes short of it |
| `Diagnostic.SingleLine` | internal/diagnostic/text.go:28-31 | the same, without any line break |
| `Diagnostic.WriteError` | internal/listencontrol/server.go:769-774 | for any errno and message, one newline, at the end, and at most 255 bytes |
| `Diagnostic.PrefixReads` | internal/listencontrol/server.go:769-774 | the line starts with ERR, the errno in decimal and a space |
| `Diagnostic.NativeRead` | native/listen_interposer.c:273-296 | returns the first line if it fits the buffer, and otherwise nothing |
| `Diagnostic.ErrorReachesClient` | native/listen_interposer.c:273-296 | every error line is read whole into the 256-byte buffer |
| `Runes.BoundaryIsNear` | internal/diagnostic/text.go:19-22 | some whole-character prefix ends at most three bytes below any bound |
| `Runes.CleanIsValid` | internal/diagnostic/text.go:15-15 | replacing every run of stray bytes by the replacement character gives valid text |

## Left out

- Command entry points, configuration, installers, process supervision, status files and log text.
- SOCKS5 and HTTP proxying, upstream dialing, DNS, TLS, datagram payload handling: mostly library calls and byte copying.
- Real sockets, pipes, ptrace, procfs and timers: they are the nondeterministic steps of the machines. Deadlines, wake-ups,
  partial writes, lost answers and scheduling are arbitrary.
- Token generation and constant-time comparison: tokens are compared as byte sequences.
- Freedom from receive-queue overflow: the queues count events, not bytes, so an honest sender can overflow them; both
  outcomes are steps of `Stream`.
- dup2 and dup3 over the last tracked descriptor of a shared lease, which send CLOSE instead of RELEASE, vfork, raw clone
  and the supervisor's exec splitting are outside the cross-process claim; dup2 is inside the refcount claim.
- Wrap-around of lease ids at 2^64: they are taken to be new. Epochs and broker ids do wrap in the model and skip zero.
- Memory that a failing call of the supervisor leaks.
- LinkDelivery.DeliveryIsInOrderAtMostOnce: assumes that each endpoint is a FIFO byte pipe delivering a prefix of what it
  accepted, that a failed write leaves the frame incomplete and the endpoint accepts nothing afterwards, and that both
  ends install connections in the order they were made. A frame that is not valid is refused and retried as the code does.
- LeaseSafety.TrackedDescriptorKeepsItsLease: assumes single-threaded processes, atomic control requests, that a pid is
  never used again with the same start time, and that procfs answers about a process that exists; a restart of the daemon
  is not modelled. It speaks of descriptors still open: close_range closes in the kernel before the list is updated.
- LeaseServer.ReservationsAreAccountedIff: says closed at least once, because a rebind racing with a removal may close a
  reservation twice.
- LeaseTable.Server.Rebind: covers a pass that no other request interrupts; the interleaved pass is the machine's, step by
  step.
- LeaseBooks.TrackedLeaseIsServed: relates a state of the processes and a state of the server that have the same book; the
  two machines are not run together.
- Supervisor.MigrateGroupOwner: requests of other clients between those of the batch are not modelled.
- Supervisor.CloneGroup: the same, and only descriptor and lease of a binding are modelled; the address fields are copied
  along.
- WatcherSafety.SyncSettlesEveryKey: scan errors, which leave everything as it was, and the addresses of a mapping are left out.
- Broker.Registrar.Accept: Accept sorts with a library sort; the same sorted list is taken from the summary.
