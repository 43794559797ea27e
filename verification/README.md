# Verification of adb-hub

adb-hub lets adb clients see the devices of many adb servers as one list and opens
streams to the right one. On a shared host a daemon serves every user; an agent per
user keeps that user's private backends and pair codes and talks to the daemon over
one control connection, on which all streams of the user are multiplexed.

This project models that system in Dafny and proves what it promises. The modules,
from the wire up:

| files | what they model |
|---|---|
| `Packet`, `Ipc`, `PeerCred`, `ByteStreams`, `Bytes` | the three binary readers: smart-socket packets, control frames, the netlink reply that names a connection's owner |
| `Streams`, `StreamProofs`, `StreamEnds`, `StreamRuns` | one multiplexed stream as two endpoints and two FIFOs: what every step keeps, how it ends, whole runs |
| `Mux`, `MuxEnds`, `MuxLocks`, `MuxMaps` | many streams on a shared pair of FIFOs refining it; when the two read loops wait, and when they wait for ever; the maps updated in place |
| `Wire`, `Cuts` | the FIFOs as bytes, and frames cut short |
| `Text`, `Registry`, `MergeNames`, `ListText`, `Policy`, `Selections`, `Config` | parsing, merging, printing and filtering device lists; where backend names come from |
| `Session`, `Routing`, `Services`, `AgentRoutes` | choosing a device, rewriting a service, service by service what is asked of whom, and the way from a listed serial back to its backend, directly or through the agent |
| `Watchers`, `Staleness`, `HubView` | the watchers' shared map, when the registry shows its newest lists, and the tracking clients of the single-user hub |
| `Tenant`, `TornViews`, `Wakeups`, `Daemon`, `Tunnel` | the multi-user registry, its trackers, the views they are sent and how often they are woken, agents that come and go, scrcpy tunnels |

Concurrent code is a step system: a state value, a type of atomic actions, `Enabled`
and `Step`, and theorems about every run. A step is a stretch of code between two
awaits. Code that changes state in place is also a class or a method with a loop,
whose contract equates the new state with the step or with a specification
function; the theorems are about those.

Some promises are false of the code as written. For each there is a lemma that says
exactly when the promise holds:

- Public serials are meant to be unique, but the second choice of a name is not
  looked up again (`src/registry.rs:151-155`): `MergeNames.NamesDistinctExactly`;
  counterexample `ListText.MergeCanRepeatNames`.
- Offline entries can change the preferred device in the daemon, whose search order
  is read off the list: `Routing.DaemonOfflineIrrelevantExactly`; counterexample
  `Routing.DaemonOfflineEntryMatters`.
- A registry write happens after the lock that ordered its copy is released
  (`src/backend.rs:307-327`), so the registry can stay behind:
  `Staleness.QuietRegistryExactly`, in terms of the order of the writes;
  counterexamples `Staleness.RegistryCanStayStale`, `Staleness.StaleRunExists`. The
  same for what a client is shown: `HubView.QuietClientExactly`.
- A tracking client is sent a shared and a private list read at two moments
  (`src/tenant.rs:94-105`): `TornViews.PairIsOneMomentExactly`, in terms of the
  changes in between; counterexample `TornViews.ViewMayBeTorn`.
- A replaced agent's read loop may publish after its successor has left
  (`src/daemon.rs:447-449`): `Daemon.CoveredExactly`; counterexample
  `Daemon.ReplacedAgentCanLeaveDevices`.
- A client that connects between the last poll of a stopped tunnel and its close is
  not accepted (`src/tunnel.rs:86-98`): `Tunnel.StopDrainsBacklog`; counterexample
  `Tunnel.LateClientIsLost`.
- A read loop holds the lock of its sender map while it waits for room in a channel
  (`src/daemon.rs:465-467`, `src/agent.rs:306-310`), and the task behind a full channel
  needs that lock to leave: `MuxLocks.DaemonWaitsForEverExactly` and
  `MuxLocks.AgentWaitsForEverExactly` say when the connection stops for good;
  counterexamples `MuxLocks.DaemonCanStick`, `MuxLocks.AgentCanStick`.
- A client task that returns an error leaves its map entry and sends no close
  (`src/daemon.rs:761-773`): `MuxEnds.NoEntryIsLeftExactly`.
- The agent's write of a data frame is dropped when the other half of its select
  finishes (`src/agent.rs:399-421`): `Cuts.DownReadsInStepExactly`;
  `Cuts.CutFrameMixesStreams` shows what is read instead, `Cuts.CutsOccur` that it happens.

Three more carry the failing inputs in the condition itself: `host-serial:` never
finds a serial with a colon (`src/session.rs:200-203`, `Routing.HostSerialLooksUp`),
a payload longer than 65535 bytes does not read back (`Packet.ReadsBackExactly`), and
on a clash of serials the shared device answers (`src/tenant.rs:94-105`,
`AgentRoutes.PrivateSerialRoutesHomeExactly`).

## Model

| member | source | states |
|---|---|---|
| `StreamProofs.StepKeepsInv` | src/daemon.rs:704-803 | every step of either end of a stream keeps the invariant on frames written, handshake state and bytes in flight |
| `StreamProofs.ByteIntegrity` | src/agent.rs:384-433 | in every state the invariant allows, what reached the client is a prefix of what was read from upstream, and the other way round |
| `StreamEnds.ClientCloseIsComplete` | src/daemon.rs:791-802 | once a client task has left an open stream and the agent's task is over, everything the client sent is written upstream, or upstream ended or failed |
| `StreamEnds.ToldCanLeave` | src/agent.rs:388-396 | a loop that has read the other side's close and passed everything on can leave |
| `StreamProofs.UpstreamCloseIsComplete` | src/daemon.rs:776-787 | a client loop that ended because the channel closed wrote everything upstream sent before its own end of file |
| `StreamProofs.FailedOpenCarriesNothing` | src/daemon.rs:737-753 | without a successful outcome no byte was read or written, and at most the open was framed |
| `StreamRuns.SessionsComplete` | src/daemon.rs:704-803 | for any chunk each way there are runs, closed from either side, that open, copy both chunks, close both ways and leave nothing behind |
| `StreamRuns.DaemonCanEnd` | src/daemon.rs:726-802 | every way a client task can end occurs, with exactly these frames written |
| `StreamRuns.AgentCanEnd` | src/agent.rs:323-432 | every way an agent's task can end occurs, with exactly these frames written |
| `StreamRuns.ClosesCanFail` | src/daemon.rs:794-801 | a run in which both closes are lost with the connection and neither log has one |
| `Mux.StepRefinesStream` | src/daemon.rs:439-488 | a step of the shared connection is, for each stream id, a step of that stream's own system or invisible to it |
| `Mux.StepKeepsConnInv` | src/agent.rs:294-321 | the invariant of all streams at once is kept by every step of the shared connection |
| `Mux.StreamsKeepBytes` | src/daemon.rs:755-789 | in every run, bytes of each stream arrive in order, none lost in between, none of another stream |
| `MuxEnds.ClientCloseDeliversAll` | src/agent.rs:384-433 | in every run in which the close itself did not fail, a stream its client left has been written upstream completely once the agent's task is over, unless upstream ended or failed first |
| `MuxEnds.LeavingIsAnnouncedExactly` | src/daemon.rs:791-802 | in every run, whoever left an open stream has written its close, if and only if the connection did not fail that write; both sides |
| `MuxEnds.AnnouncedCanLeave` | src/daemon.rs:776-787 | in every run, a loop that has read the other side's close and holds nothing more can leave |
| `MuxEnds.NoEntryIsLeftExactly` | src/daemon.rs:726-791 | in every run a client task that is gone leaves no waiter, and leaves its sender exactly if it was aborted by an error and the agent has not closed the stream; a finished agent task leaves none |
| `MuxEnds.ReadLoopsWaitExactly` | src/daemon.rs:465-467 | in every run no channel holds more than 32 chunks, and a read loop waits exactly for a frame, for room in that frame's channel or, at the agent, for the one open it serves |
| `MuxEnds.FirstIds` | src/daemon.rs:720 | the ids a stream can be given are those from 1 that fit 32 bits |
| `MuxLocks.LockedRunsAreRuns` | src/daemon.rs:465-467 | what holds in every run of the connection holds in every run with the map locks |
| `MuxLocks.DaemonWaitsForEverExactly` | src/daemon.rs:465-467 | in every run, a daemon read loop that waits for room never reads another frame if and only if the stream it waits for has a full channel and its client task has left its loop; otherwise at most five steps of that stream bring it on |
| `MuxLocks.AgentWaitsForEverExactly` | src/agent.rs:306-310 | the same for the agent's read loop and a copy task that has stopped, with three steps |
| `MuxLocks.DaemonStuckForEver` | src/daemon.rs:791 | from then on the daemon reads no frame of any stream, opens no stream and lets no client task leave |
| `MuxLocks.AgentStuckForEver` | src/agent.rs:423 | from then on the agent reads no frame and lets no copy task leave |
| `MuxLocks.DaemonCanStick` | src/daemon.rs:465-467 | a run from the empty connection that gets there |
| `MuxLocks.AgentCanStick` | src/agent.rs:306-310 | a run from the empty connection that gets there at the agent |
| `Mux.UpstreamEndDeliversAll` | src/daemon.rs:776-787 | in every run, a stream ended by upstream and left because of the agent's close gave the client every byte |
| `Mux.FramesFollowProtocol` | src/daemon.rs:457-478 | in every run and for each id: open, then data, then at most one close; result, then data, then at most one close; data only after an ok result; a waiter is resolved at most once, with the agent's answer |
| `Mux.FailedOpensAreSilent` | src/daemon.rs:737-753 | in every run, a refused, lost or expired open moved no byte |
| `MuxMaps.AgentConn.Resolve` | src/daemon.rs:457-463 | removing a waiter sends it exactly one outcome; without a waiter nothing changes |
| `MuxMaps.AgentConn.HandleAgentFrame` | src/daemon.rs:457-478 | the daemon's handler of a frame is the receive step of the stream it names and leaves every other stream alone; a close removes the sender and refuses a waiting open |
| `MuxMaps.AgentConn.RegisterStream` | src/daemon.rs:720-724 | the two inserts of a new stream are the registration step |
| `MuxMaps.AgentConn.AbandonOpen` | src/daemon.rs:726-744 | the clean-up after a failed write or an expired wait is that step, for its stream alone |
| `MuxMaps.AgentStreams.HandleDaemonFrame` | src/agent.rs:306-315 | the agent's handler of data and close is the receive step of the stream it names and leaves every other stream alone |
| `MuxMaps.AgentStreams.InsertStream` | src/agent.rs:381-382 | the insert after an answered open is the insert step |
| `MuxMaps.AgentStreams.RemoveStream` | src/agent.rs:423 | the removal after copying is the remove step |
| `Wire.DataFrameFits` | src/agent.rs:399-408 | a data frame made from a 64 KiB buffer is far below 16 MiB and its length is not truncated |
| `Wire.LogsAreSmall` | src/daemon.rs:756-773 | in every run every frame in either FIFO has a 32-bit id and data of at most one read buffer |
| `Wire.NextFrame` | src/ipc.rs:127-152 | decoding the bytes of the frames still on the way gives the next frame and the bytes of the others |
| `Wire.WireCarriesFrames` | src/ipc.rs:115-152 | in every run of the multiplexer the bytes of each FIFO decode to exactly its frames, in order, and a read loop's next frame is the one decoded next |
| `Cuts.DownReadsInStepExactly` | src/agent.rs:399-421 | in every run, with any part of the frame in hand left behind by each stop, the agent's bytes are read in step with its frames if and only if no stop leaves any |
| `Cuts.CutsOccur` | src/agent.rs:415-421 | for every length short of a data frame, a run from the empty connection that leaves just that much of it |
| `Cuts.StopLeaves` | src/agent.rs:399-421 | a stop leaves any part of the frame in hand, and nothing when none is in hand |
| `Cuts.WholePartsAreFrames` | src/agent.rs:384-433 | the frames written whole in such a run are those of the multiplexer's FIFO |
| `Cuts.CutFrameMixesStreams` | src/agent.rs:399-421 | a frame cut after its stream id is read as data of that stream filled up with the bytes that follow on the connection |
| `Ipc.BigEndianReadsBack` | src/ipc.rs:120-130 | a 32-bit length or id reads back from its four big-endian bytes |
| `Ipc.TypesOnTheWire` | src/ipc.rs:23-50 | the nine type numbers, written and read, and that no other number is a type |
| `Ipc.BytesOnTheWire` | src/ipc.rs:115-125 | a data frame, a ping and a pong byte by byte |
| `Ipc.MessageReadsBack` | src/ipc.rs:154-201 | every message decodes from its payload under its own type |
| `Ipc.WriteMessage` | src/ipc.rs:115-125 | the writes append the encoding of the message |
| `Ipc.ReadMessage` | src/ipc.rs:127-152 | the reads give the decoding of the front of the input, with each error case, and leave the rest |
| `Ipc.ErrorsExactly` | src/ipc.rs:127-201 | for every input, exactly when each of the six errors is reported |
| `Ipc.ReadsBackExactly` | src/ipc.rs:115-152 | a message and any bytes after it read back exactly when the frame is at most 16 MiB, wrapped lengths included |
| `Ipc.SequenceReadsBack` | src/ipc.rs:115-152 | any sequence of messages that fit reads back in order |
| `Ipc.SequenceReadsBackExactly` | src/ipc.rs:136-141 | with lengths 32 bits hold, a sequence reads back only if every frame fits |
| `Packet.HeaderSpellings` | src/protocol.rs:70-77 | a four-byte header is accepted as `n` exactly when lower-casing it and reading a plus sign as a zero gives the header written for `n` |
| `Packet.WritePacket` | src/protocol.rs:17-22 | appends the header and the payload |
| `Packet.ReadPacket` | src/protocol.rs:6-15 | gives the decoding of the front of the input, with each error case, and leaves the rest |
| `Packet.ErrorsExactly` | src/protocol.rs:6-15 | for every input, exactly when the stream ended early and exactly when the header is refused |
| `Packet.ReadsBackExactly` | src/protocol.rs:6-22 | a packet and any bytes after it read back exactly when the payload is at most 65535 bytes |
| `Packet.SequenceReadsBackExactly` | src/protocol.rs:6-22 | a sequence of packets reads back exactly when every payload is at most 65535 bytes |
| `Packet.WriteOkayPayload` | src/protocol.rs:45-51 | appends the okay reply |
| `Packet.WriteFail` | src/protocol.rs:39-42 | appends the fail reply |
| `Packet.ReadOkayPayload` | src/protocol.rs:54-68 | gives the decoding of a reply, a failure as its reason |
| `Packet.ReplyErrorsExactly` | src/protocol.rs:54-68 | for every input, exactly when the status is refused and exactly when a refusal is reported with its reason |
| `Packet.ReplyReadsBackExactly` | src/protocol.rs:39-68 | a reply comes back as its payload or as its reason exactly when that fits a packet |
| `Packet.RepliesOnTheWire` | src/protocol.rs:17-51 | a packet and both replies byte by byte: status text, four lower-case digits, payload |
| `ByteStreams.Reader.ReadExact` | src/protocol.rs:8-12 | the next bytes and the rest, or nothing at the end of the stream |
| `PeerCred.ParseInetDiagUid` | src/peercred.rs:354-400 | the walk ends on every buffer, reads headers and records only inside it and at offsets divisible by four, and gives the verdict on the message list |
| `PeerCred.OwnerExactly` | src/peercred.rs:354-400 | an owner is named exactly when no error header is reached and exactly one record matches, and it is that record's |
| `PeerCred.DumpReadsBack` | src/peercred.rs:354-387 | messages laid out by the kernel's rules, followed by anything at which the walk stops, are seen in order up to the first error, in either byte order |
| `PeerCred.WantedExactly` | src/peercred.rs:286-312 | in either byte order a record matches exactly when its family, network-order ports and address octets are those asked for |
| `PeerCred.UidExactly` | src/peercred.rs:354-387 | the owner of a record is n exactly when bytes 64 to 67 of its body are n in native order |
| `PeerCred.OwnerOfDumpExactly` | src/peercred.rs:354-400 | for any series of messages laid out in native order and anything after them: an owner is answered exactly when no error comes and exactly one body has the family, ports and octets asked for, and it is that body's bytes 64 to 67; not found exactly when none has them |
| `PeerCred.EndStops` | src/peercred.rs:366-369 | nothing after an end-of-dump message is looked at |
| `PeerCred.AddressMatch` | src/peercred.rs:403-409 | comparing words compares the octets: the first four for IPv4, all sixteen for IPv6 |
| `Registry.FormatDevices` | src/registry.rs:35-52 | the loop prints one line per device in order, extras only in the long form |
| `Registry.CountSerials` | src/registry.rs:128-139 | the first pass yields every parsed line with its backend, in order, and how often each serial occurs |
| `Registry.MergeDeviceLists` | src/registry.rs:127-169 | the two passes compute the specified merge |
| `Registry.RowBackend` | src/registry.rs:132-138 | each line is attributed to a backend that is in the lists |
| `Registry.RowAt` | src/registry.rs:132-138 | the lines are those of the first list, then those of the second, and so on, each at its place with its own backend |
| `Registry.FindIsFirst` | src/registry.rs:54-56 | a lookup answers the first entry of that serial, and nothing exactly when there is none |
| `Registry.FindAt` | src/registry.rs:54-56 | with distinct public serials, looking up a listed serial gives that device |
| `Registry.DeviceRegistry.UpdateFromBackendLists` | src/registry.rs:92-104 | the list becomes the merge and a notification goes out exactly when it changed |
| `MergeNames.NamesDistinctExactly` | src/registry.rs:144-155 | public serials are pairwise distinct if and only if no second choice in use is the first choice of an earlier line |
| `MergeNames.ColonFreeIsEnough` | src/registry.rs:144-155 | colon-free names and serials never lead to a repeated public serial, even with repeated lines |
| `MergeNames.QualifiedIsEnough` | src/registry.rs:144-155 | distinct lines with colon-free names and no serial that looks qualified keep their first choices, all distinct |
| `MergeNames.MergeKeepsRows` | src/registry.rs:144-168 | one entry per parsed line, in order, with that line's serial, state and extras, its backend's name, address and code, and no route |
| `MergeNames.NameMeans` | src/registry.rs:141-155 | an entry is named by its bare serial if no other line has it, else by backend and serial, and with its index added exactly if that name was taken by an earlier entry |
| `MergeNames.MergeDistinctExactly` | src/registry.rs:127-169 | the exact condition carried over to the merged list |
| `ListText.ListReadsBackExactly` | src/registry.rs:35-52 | the printed merged list parses to its serials, states and extras in order, if and only if every public serial is a plain word |
| `ListText.PrintedLines` | src/registry.rs:35-52 | the lines of the printed list, one per device: serial, tab, state, and in the long form a blank and the extras if there are any |
| `ListText.ListedColumns` | src/registry.rs:113-169 | end to end, with plain backend names the printed merge parses to the states and extras of the lines that went in |
| `ListText.NoticesAreIgnored` | src/registry.rs:113-117 | lines that start with a star or with the list heading, and blank ones, are no devices |
| `ListText.PlainBackendsReadBack` | src/registry.rs:113-125 | it does whenever backend names have no white space and do not start with a star |
| `ListText.RemergeKeepsNamesExactly` | src/registry.rs:127-169 | merging the printed list as the only backend keeps every name if and only if they were distinct |
| `ListText.MergeCanRepeatNames` | src/registry.rs:151-155 | a concrete list from one backend whose merge repeats a public serial |
| `Policy.FromEntries` | src/policy.rs:25-31 | the table holds exactly the listed serials, the last entry winning |
| `Policy.FilterMembers` | src/config.rs:345-355 | the filtered list holds exactly the devices whose backend and serial are enabled |
| `Policy.FilterSnapshotIs` | src/config.rs:345-355 | the filtered list is the enabled devices in their order, each as often as it was listed |
| `Policy.FilterKeepsDistinct` | src/config.rs:345-355 | filtering keeps public serials distinct |
| `Policy.FilterDevicesBody` | src/policy.rs:68-88 | the loop keeps exactly the lines the specification keeps |
| `Policy.FilterCommutesWithParse` | src/policy.rs:68-88 | parsing the filtered text is filtering the parsed text, for every text and every predicate |
| `Policy.FilteredTextExactly` | src/policy.rs:68-88 | the lines of the filtered text are, in order, the notices and the lines of enabled serials of the raw text, less one carriage return each |
| `Config.HubConfig.UpsertBackend` | src/config.rs:251-263 | update by name, else by address, else append |
| `Config.HubConfig.SetBackendEnabled` | src/config.rs:220-226 | the first backend of that name gets the switch; no such name is reported and changes nothing |
| `Config.UpsertTakesEffect` | src/config.rs:251-263 | afterwards the name leads to the given address and code, and pairing again changes nothing |
| `Config.UpsertKeepsNames` | src/config.rs:249-263 | names stay distinct, other backends and all switches stay as they were |
| `Config.PairingKeepsNames` | src/config.rs:249-263 | no series of pairings makes two backends share a name |
| `Config.UpsertKeepsAddrsExactly` | src/config.rs:251-263 | addresses stay distinct exactly unless a known name moves to another backend's address |
| `Config.DefaultNameIsColonFree` | src/config.rs:427-432 | a default name has no colon |
| `Config.DefaultNamesDifferExactly` | src/config.rs:427-432 | default names are equal exactly when addresses are, across IPv4 and IPv6 |
| `Session.PickOneOnBackend` | src/session.rs:324-332 | the loop collects the online devices of one backend in order |
| `Session.OnlineOnIs` | src/session.rs:272-296 | what is collected is exactly the entries of that backend in state `device`, in their order |
| `Session.SearchOrder` | src/session.rs:283-302 | the deduplicated order finds the same first backend with an online device as local, configured order, list order |
| `Session.PickPreferred` | src/session.rs:277-317 | the loops compute the specified choice |
| `Session.BackendOrder` | src/daemon.rs:651-662 | the loop computes the daemon's search order |
| `Routing.PickMeans` | src/session.rs:272-317 | the choice is the only online device of the first backend that has any; no devices is reported exactly when none is online; otherwise that backend has several |
| `Routing.NothingLiveBefore` | src/session.rs:304-313 | backends before the chosen one have nothing online |
| `Routing.OfflineIrrelevantExactly` | src/session.rs:297-302 | offline entries leave the choice unchanged if and only if a listed backend is live or the first live backend of the list is that of its first online device |
| `Routing.ConfiguredOrderIgnoresOffline` | src/session.rs:272-317 | when the order lists every backend, offline entries never change the choice |
| `Routing.DaemonPick` | src/daemon.rs:651-662 | the daemon's order makes the choice that of the list alone |
| `Routing.DaemonOfflineIrrelevantExactly` | src/daemon.rs:651-662 | the exact condition for the daemon, whose order itself depends on offline entries |
| `Routing.DaemonOfflineEntryMatters` | src/daemon.rs:651-662 | an offline entry that changes the daemon's choice |
| `Routing.TransportRewrites` | src/session.rs:192-198 | for every serial, `host:transport:` looks up an online device by all that follows |
| `Routing.TportRewrites` | src/session.rs:184-190 | the same for `host:tport:serial:` |
| `Routing.HostSerialRewrites` | src/session.rs:200-209 | `host-serial:` is never taken for another kind of service |
| `Routing.HostSerialLooksUp` | src/session.rs:200-209 | the lookup key is the serial itself if and only if the serial has no colon; the rest is passed on |
| `Routing.LegacyRewrites` | src/session.rs:211-224 | `host-usb:` and `host-local:` requests are asked of the preferred device by its own serial |
| `Routing.QueryRewrites` | src/session.rs:235-246 | so are the four bare device queries |
| `Routing.SerialThenTransportExactly` | src/session.rs:161-198 | naming the serial that get-serialno answers is the same as the selector of that form, exactly when that serial finds the device |
| `Routing.UnnamedIsPreferredExactly` | src/session.rs:200-246 | a request for no particular device is the same request through `host-serial:` for the preferred one, exactly when its colon-free serial finds it |
| `Routing.RewriteNamesItsDevice` | src/session.rs:161-249 | a rewrite that succeeds names a device of the caller's list by its own serial; without a serial it is the preferred, online one |
| `Services.LocalFirst` | src/session.rs:276-283 | the backend named local is asked first, whatever the order says |
| `Services.ConfiguredNext` | src/session.rs:284-290 | then the configured backends, in order: the first that has anything online decides |
| `Services.ListedLast` | src/session.rs:291-296 | then the backends of the list, by first appearance |
| `Services.PassedOnExactly` | src/session.rs:161-249 | a service goes on unchanged to the default if and only if it is none of the listed device services, and not one of the two features requests with a preferred device |
| `Services.PassedOnGoesToDefault` | src/session.rs:137-155 | then the hub opens the default backend with its code, and the daemon the shared server if there is one |
| `Services.FeaturesFollowPreferred` | src/session.rs:226-230 | both features requests reach the preferred device's backend unchanged, with its code; without a preferred device they go to the default |
| `Services.ScopedGoesToDevice` | src/session.rs:137-155 | a rewritten service reaches the backend of the device it names: with its code from the hub, by its route or at its address from the daemon |
| `Services.NamedByCase` | src/session.rs:184-198 | both selectors by serial, by case: unknown, not online with its state, or rewritten |
| `Services.HostSerialByCase` | src/session.rs:200-209 | host-serial requests by case: no colon, unknown, or rewritten, online or not |
| `Services.UnnamedByCase` | src/session.rs:211-246 | requests for no particular device by case of the preferred one |
| `Services.SelectorByCase` | src/session.rs:167-182 | the six selectors without a serial, each to its own form |
| `Routing.ListedSerialRoutesHome` | src/session.rs:137-198 | naming a listed online device reaches the backend that listed it, with its pair code and its own serial |
| `AgentRoutes.RouteTable.Publish` | src/agent.rs:256-286 | the loop builds the route table and the message; the counter grows by one |
| `AgentRoutes.RouteComesFrom` | src/agent.rs:256-280 | the table's entry for an id is address, code and serial of the last device with that id |
| `AgentRoutes.ResolvesExactly` | src/agent.rs:256-280 | every published route id leads to its device's address, code and serial if and only if devices that share an id share those |
| `AgentRoutes.WellNamedIdentifies` | src/agent.rs:256-280 | with distinct colon-free backend names they always do |
| `AgentRoutes.MergedDeviceBackend` | src/registry.rs:156-165 | a merged device carries name, address and code of one configured backend and no route |
| `AgentRoutes.FindPublished` | src/ipc.rs:212-232 | looking up a serial in what the daemon received is looking it up in what the agent published |
| `AgentRoutes.PublishedColumns` | src/agent.rs:256-286 | every entry the daemon receives has the serials, state, extras and backend name of the agent's entry, its route id, a placeholder address and no code |
| `AgentRoutes.PublishedPrintsAlike` | src/ipc.rs:212-232 | a client is shown of a private device exactly what the agent would print |
| `AgentRoutes.PrivateSerialRoutesHomeExactly` | src/daemon.rs:621-649 | an online private device, named by either of the two forms, is opened through its own agent's route to the backend that listed it, if and only if no shared device has its serial |
| `AgentRoutes.SharedSerialRoutesHome` | src/daemon.rs:621-649 | an online shared device is reached at the shared server under its own serial, whatever private devices the caller has |
| `Tenant.TenantRegistry.UpdateShared` | src/tenant.rs:42-50 | the shared list is replaced and one notification sent exactly when it changed |
| `Tenant.TenantRegistry.UpdateSharedFromLists` | src/tenant.rs:53-56 | the same with the merge of the lists |
| `Tenant.TenantRegistry.UpdateAgentDevices` | src/tenant.rs:62-82 | one user's list is replaced and a notification sent exactly when it is new or changed |
| `Tenant.TenantRegistry.RemoveAgent` | src/tenant.rs:84-90 | one user's list goes, with a notification exactly when there was one |
| `Tenant.TenantRegistry.SnapshotFor` | src/tenant.rs:94-105 | shared devices, then the user's own |
| `Tenant.NoLostUpdate` | src/daemon.rs:805-834 | in every run, a listening client was last sent its user's current list, or a notification or lag is queued for it, or one is owed |
| `Wakeups.QuietAfter` | src/tenant.rs:29 | a client is woken once per notice it has not seen, and at most 65 times however many there are, before it is quiet |
| `Wakeups.WakesAreBounded` | src/daemon.rs:812-826 | in every run a client is woken at most once per notice sent since it subscribed |
| `Wakeups.HubWakesAreBounded` | src/session.rs:370-399 | the same for the clients of the hub |
| `TornViews.HeldExactly` | src/tenant.rs:94-105 | over any series of moments, the pair of the first shared and the last private list held at one of them if and only if no shared change came before a private one, or a list came back |
| `TornViews.PairIsOneMomentExactly` | src/daemon.rs:813-826 | from any state and whatever happens between a client's two reads, the body it sends is of a view that held at one moment exactly under that condition; when no list returns to an earlier value, exactly when private changes came first |
| `TornViews.ViewMayBeTorn` | src/tenant.rs:94-105 | a run in which a client is sent a body that was its user's view in no state, and is then woken |
| `TornViews.TraceAt` | src/tenant.rs:42-90 | the states spoken of are those after each prefix of the run |
| `Daemon.DaemonState.HandleRegister` | src/daemon.rs:394-416 | registration replaces the user's connection and changes nothing else |
| `Daemon.DaemonState.HandleSnapshot` | src/daemon.rs:446-456 | a device list replaces that of the connection's user |
| `Daemon.DaemonState.HandleDisconnect` | src/daemon.rs:418-434 | only the connection whose token is current takes its user's agent, list and tunnels away |
| `Daemon.DaemonState.HandleOpenTunnel` | src/tunnel.rs:59-80 | a port of another owner or device is refused; otherwise the user holds the port that was bound |
| `Daemon.DaemonState.HandleCloseTunnel` | src/tunnel.rs:169-183 | exactly the user's own listener for that device goes |
| `Daemon.DaemonState.PollSharedOnce` | src/daemon.rs:261-277 | the shared list becomes the merge of the local server's |
| `Daemon.SharedIsLastPolled` | src/daemon.rs:261-277 | in every history the shared list is the merge of what the local server listed last, and empty before that |
| `Daemon.PublishShows` | src/daemon.rs:446-456 | after a publish its user sees the shared devices and then those published, column by column |
| `Daemon.TenantsAreIndependent` | src/daemon.rs:402-434 | histories that agree without other users' agent events give a user the same list, the same route for every service and the same agent connection |
| `Daemon.HistoryIsClean` | src/ipc.rs:212-232 | in every history no daemon entry has a pair code, no shared one a route, every private one has one |
| `Daemon.RoutesAreOwn` | src/daemon.rs:446-456 | in every history a private route handed out to a user's client is in a list that an agent of that user published |
| `Daemon.ForeignSerialIsNotFound` | src/session.rs:259-270 | a serial neither shared nor one's own is reported as not found |
| `Daemon.DisconnectRemovesOnlyItsUser` | src/daemon.rs:418-434 | in every history whose tokens tell connections apart, a replaced connection's end changes nothing, and the current one's removes exactly its user's agent, list and tunnels and nothing anybody else sees |
| `Daemon.DisconnectByToken` | src/daemon.rs:418-434 | a connection's end takes its user's agent, list and tunnels away exactly if the current connection has the same token, and otherwise changes nothing |
| `Daemon.CoveredExactly` | src/daemon.rs:447-449 | private lists belong to users with agents throughout a run if and only if no publish arrives while its user has none |
| `Daemon.QuietReplacedAgentsAreCovered` | src/daemon.rs:402-434 | they do when only current connections publish |
| `Daemon.ReplacedAgentCanLeaveDevices` | src/daemon.rs:447-449 | a history that leaves a private list without an agent |
| `Tunnel.HandshakesAreSerial` | src/tunnel.rs:84-154 | in every schedule at most one handshake is in progress, and streams are opened in the order accepted, for exactly the connections of the owner |
| `Tunnel.StopDrainsBacklog` | src/tunnel.rs:84-98 | in every schedule a loop that ended without an accept error had been stopped and had accepted exactly what arrived by its last poll, which includes all that was pending at the stop; that is everybody if and only if nobody connected after that poll |
| `Tunnel.LateClientIsLost` | src/tunnel.rs:86-98 | a schedule whose last client is never accepted |
| `Tunnel.DrainingEnds` | src/tunnel.rs:86-98 | a loop that was told to stop can always step until it is closed, and each of its steps shrinks what is left unless somebody connects |
| `Tunnel.StopIsTakenFirst` | src/tunnel.rs:86-90 | in every schedule, once the stop is sent nothing is accepted before the loop takes it |
| `Tunnel.DrainIsBounded` | src/tunnel.rs:86-98 | in every schedule after the stop is sent, the loop takes at most one step per pending or new connection and three more |
| `Tunnel.AcceptAllAccepts` | src/tunnel.rs:84-113 | the loop run alone accepts the whole backlog in order, each with its own answer of the uid lookup |
| `Tunnel.AcceptAllStarts` | src/tunnel.rs:99-113 | it opens a stream for exactly those connections that the owner made, or for all if there is no owner, in order |
| `Tunnel.AdmittedAt` | src/tunnel.rs:99-109 | a connection is let through exactly if there is no owner or the lookup answered the owner; those let through keep their order |
| `Tunnel.StopAndDrain` | src/tunnel.rs:36-43 | stopping returns only after the loop has ended, with every pending connection accepted and streams opened for exactly the owner's |
| `Tunnel.TunnelManager.RemoveOwner` | src/tunnel.rs:52-57 | exactly one owner's listeners go |
| `Tunnel.TunnelManager.Add` | src/tunnel.rs:59-167 | a port of another owner or device is refused and nothing changes; otherwise one's own old listener is drained before the new one is entered |
| `Tunnel.TunnelManager.Remove` | src/tunnel.rs:169-183 | true exactly for one's own listener and only after it has drained and closed |
| `Tunnel.OthersKeepTheirListener` | src/tunnel.rs:52-183 | after any series of calls by other users, a listener is still in its owner's hands, untouched |
| `Watchers.SharedBodies.Seed` | src/backend.rs:151-173 | every configured backend has an entry, with the list fetched or an empty one |
| `Watchers.SharedBodies.Insert` | src/backend.rs:297-300 | in the lists of every configuration that has the backend, its own list is the new one, every other stays, and the map stays complete |
| `Watchers.SharedBodies.CopyLists` | src/backend.rs:307-325 | nothing while a backend is missing, otherwise all lists in configured order |
| `Watchers.WritesAreConsistent` | src/backend.rs:295-327 | in every interleaving each value written to the registry is the merge, in configured order, of one complete map that held at one instant |
| `Watchers.CopyIsNeverSkipped` | src/backend.rs:315-317 | after seeding no watcher skips its publish |
| `Staleness.RegistryShowsLastWritten` | src/backend.rs:307-327 | in every run the registry shows the copy the schedule wrote last |
| `Staleness.QuietRegistryExactly` | src/backend.rs:307-327 | with nothing pending the registry shows the current map if and only if the copy written last is the one taken last, or merges to the same list |
| `Staleness.QuietRegistryIsCurrent` | src/backend.rs:307-327 | when copies are written in the order taken, it is and it does |
| `Staleness.RegistryCanStayStale` | src/backend.rs:325-326 | two watchers whose writes swap end with nothing pending and a registry that is not the merge of the current map, whenever the second list has a new number of devices |
| `Staleness.StaleRunExists` | src/backend.rs:325-326 | such a run of a concrete poller: one device on show, two listed |
| `Watchers.PollBackendsOnce` | src/backend.rs:111-139 | appending incompatible backends last leaves the merge that of all backends in configured order, the incompatible and unreachable ones with an empty list |
| `HubView.NoLostUpdate` | src/session.rs:370-399 | in every run of watchers, registry and clients, a listening client was last sent the printed list of the enabled devices on show, or a notification or lag is queued, or one is owed |
| `HubView.NoticesCountChanges` | src/registry.rs:92-104 | in every run there is one notification, sent or owed, for each change of the list on show and for nothing else |
| `HubView.QuietClientExactly` | src/session.rs:370-399 | with nothing under way a client shows the printed, filtered merge of each backend's latest list if and only if the copy written last is the one taken last, or looks the same to it |
| `HubView.QuietClientShowsBackends` | src/session.rs:370-399 | with writes in copy order, it does |
| `Text.FieldsOfJoin` | src/registry.rs:119-123 | words joined by spaces split into those words |
| `Text.LinesCons` | src/registry.rs:133 | a complete first line is the first line, less one carriage return |
| `Text.LineEndings` | src/registry.rs:133 | which endings a line loses: one line feed with one carriage return before it, and nothing at the end of the text |
| `Text.WhiteSpace` | src/registry.rs:119 | the characters that separate words |
| `Text.DecimalInjective` | src/registry.rs:153 | different numbers print differently, so second choices never collide with each other |
| `Text.DecimalReadsBack` | src/registry.rs:153 | a printed number is digits and reads back as itself |

## Left out

- `MuxLocks` takes writes on the connection and to its two ends to complete: socket buffers that stay full, and the lock of the shared writer, are not modelled. A step that needs a map lock is one step, so a clean-up that already removed its waiter when it starts to wait for the other lock is shown before it.
- In `Mux` frames are written in one step. On the daemon's side the write runs in the body of a chosen select arm (`src/daemon.rs:760-773`); on the agent's side it can be dropped half-way (`src/agent.rs:384-421`). `Cuts` says exactly when that matters for the bytes; what the daemon's read loop does after it has lost step is not followed further.
- Stream ids stay below 2^32 opens; the counter's wrap-around (`src/daemon.rs:720`) is not modelled.
- Ping, pong and device lists on the control connection are not steps of `Mux`; they carry no stream id. Their framing is in `Ipc`.
- `forward_private` and the agent's copy task are steps on values in `Streams`, one record per stream, because they run concurrently; only their map operations are methods (`MuxMaps`). The same holds for the accept loop next to other tasks, for tracking clients and for the watchers.
- The end of a control connection and the daemon's handling of it are one event in `Daemon`; the two map updates in between are not separated.
- Tunnels are part of the daemon's state but not of `TenantsAreIndependent`: all users share one space of ports, so one user's listener can make another's bind fail.
- `StopAndDrain` and the methods that use it run with no new arrivals; `StopDrainsBacklog` covers those.
- The uid check on tunnel connections exists on Linux only; the model has it always.
- `poll_accept` is taken to answer Pending only on an empty backlog.
- Distinct tokens and distinct backend names are hypotheses where a theorem needs them: tokens are random, and a configuration file may repeat a name (`src/config.rs:137-155`); `Config.PairingKeepsNames` covers what pairing can do.
- JSON is a pair of functions assumed to be inverse; `to_json` never fails for these structs. A control message about a stream is assumed to stay under 16 MiB in `Wire`.
- `read_exact` at the end of a stream consumes what is left; partial data after an error is not looked at again.
- Byte strings stand for the text of replies; replacing invalid UTF-8 in a failure reason is not modelled. Text is a sequence of characters, and white space is the set named in `Text.IsSpace`.
- The netlink buffer is aligned as the walk assumes; offsets are relative to its start. Building and sending the request, and all socket calls, are left out.
- Policy and configuration files are read once: reloading by modification time is file-system timing.
- `set_enabled`, `to_disabled_entries`, `explicit_serials` and TOML text: straight table operations and a library's format.
- Version gates, pair codes and their authentication, the local adb process, the command line, logging and start-up order: foreign calls or a few straight branches.
