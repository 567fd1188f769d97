# Net Conductor: a verified model

Net Conductor is a control server that joins machines into a WireGuard network, forwards
ports to them, routes their traffic through exits, and opens remote sessions to them from a
browser. This project models its own state machines and wire formats in Dafny and proves what
they promise, over every run and every interleaving.

Each concurrent part is a step relation on immutable states (`Step`, `ExecFrom`), in which an
event is one critical section or one blocking action of one goroutine and an event that cannot
happen changes nothing. Beside it stands a class with the fields the program mutates; its
methods are the program's critical sections, and each is proved to make exactly the step of
the relation (through the ghost field `m`). Loops of the program are loops here, proved against a
recursive function, about which the properties are proved.

Two kinds of theorems meet on each relation: what no run ever violates, and what the run of an
operation achieves from any reachable state, stated as the whole state it leads to, with the
numbers and bytes written out. The methods state their results in the same terms.

Outcomes of dials, listens, saves, WireGuard commands and socket operations are arguments of
the events, so a theorem over all event sequences covers every pattern of failures. Random tokens
are fresh values, time only moves forward, JSON is an abstract injective encoding, and base64
is modelled byte by byte (section 4 of RFC 4648). Strings stand for Go's byte strings: one
character is one byte.

| file | part |
|---|---|
| `TcpForward.dfy`, `UdpForward.dfy` | the two port forwarders |
| `Model.dfy`, `Mappings.dfy` | policies and mappings as entities, the table of port mappings above the forwarders |
| `WireGuard.dfy`, `Reconcile.dfy`, `ReconcileRace.dfy` | the peer table, its textual listing and search, reconciliation, joins during a pass |
| `Enrollment.dfy`, `EnrollmentServer.dfy` | codes, address allocation, adoption, joining |
| `Login.dfy` | the login throttle |
| `Policy.dfy` | exit policies and the failover dialler |
| `SaveFile.dfy`, `WriteThrough.dfy`, `StateStore.dfy` | atomic save, write-through persistence, the list edits in place |
| `RemoteModel.dfy`, `RemoteServer.dfy`, `RemoteRouting.dfy` | routing between browsers, server and agents: the steps, what the server's side keeps, and what holds in every run |
| `RemoteSessions.dfy`, `RemoteLimit.dfy` | what sessions achieve from end to end, the limit of 32 browser sessions |
| `RemoteHub.dfy`, `RemoteHandlers.dfy` | the hub's tables, and the read loops at both ends |
| `SessionQueue.dfy` | the request queue of a session |
| `Base64.dfy`, `Chunks.dfy` | framing and reassembly |
| `FileTransfer.dfy` | upload and download |
| `Desktop.dfy` | the desktop job bridge |
| `Shares.dfy` | the agent's share listeners |
| `Socks.dfy` | the SOCKS5 entry (RFC 1928, sections 3 to 6) |
| `Prelude.dfy`, `Text.dfy` | sums over maps, decimal numerals |

Where the code does less than one would expect of it, the exact condition is proved, and an
instance of the exception:

- The search for an address in the listing of peers also hits every longer address that ends in
  it, and nothing else (`WireGuard.RouteContains`, `WireGuard.RenderContains`,
  `WireGuard.SearchMeans`); it is right exactly if no peer has such an address
  (`WireGuard.SearchIsRightIff`), as inside one /24 (`WireGuard.SameNetworkExact`). A joining key
  that is in the table under 110.77.0.5 is therefore taken as adopted for 10.77.0.5 and gets no
  route (`Enrollment.JoinGivesRoute`, `Enrollment.AdoptedWithoutRoute`).
- A reconciliation pass changes an existing route exactly when it gives an address that is not
  shadowed in this way to a key that is in the table under another one
  (`Reconcile.PassKeepsRoutes`), and a second pass issues commands exactly when the first left
  some device's address open (`Reconcile.SecondPassSilent`): inside one /24, when a command failed
  or a key gave up another device's address (`Reconcile.SecondPassInNetwork`,
  `Reconcile.KeysMayMove`). A join moves a key in the same way (`Enrollment.JoinKeepsRoutes`,
  `Enrollment.JoinMovesKey`), although the comment at internal/server/server.go:299 says that
  another peer's route is never overwritten: the joining peer's own earlier route is.
- A message that arrives over the data channel after one over the relay is dropped while the
  session goes on (`SessionQueue.LateChannelMessageIsDropped`); in a run that ends uncancelled
  exactly these messages are lost (`SessionQueue.UntilCancelledNothingIsLost`). Both ways in let go
  of the lock before they enqueue, so a relayed message can overtake one of the channel
  (`SessionQueue.RelayOvertakes`); in an uncancelled run the order of arrival is kept exactly if
  that never happens (`SessionQueue.OrderIsKept`).
- A dial may report an exit that its source's policy has lost since the dial began, and Active
  then names it (`Policy.ReportAfterReplacement`). Active is always empty, DIRECT or an exit of the
  current policy exactly in the runs without such a report (`Policy.ActiveIsCurrent`).
- The limit of 32 browser sessions holds while at most one browser at a time is between count and
  table (`RemoteLimit.LimitHolds`), and with two of them 33 get in (`RemoteLimit.LimitExceeded`).
- The directory of the state file is not synced, so a change that was saved and acknowledged is
  safe from a machine stop exactly when its rename has been flushed
  (`WriteThrough.SettledMeansSafe`, `WriteThrough.AcknowledgedCanBeLost`).
- A restore leaves a mapping running with an error exactly when it ran before, having been put
  while the restore had not begun, or when it comes with an error from the file
  (`Mappings.MarkedThoughRunning`, `Mappings.PutBeforeRestoreIsMarked`).

## Model

| member | source | states |
|---|---|---|
| TcpForward.EveryRunIsSafe | internal/server/forward.go:183-229 | over every interleaving of accept, dial, bridge and stop: an open socket is registered or in a named transit state, clients are at most 512, `active` at most 1024, each backend has its own registered client, and a stopped forwarder without handlers has no open socket |
| TcpForward.StoppedForwarderDrains | internal/server/forward.go:221-229 | after stop, in any reachable state, only boundedly many actions remain, and when none can be taken every socket is closed and `active` is empty |
| TcpForward.ClientIsServed | internal/server/forward.go:192-217 | from any reachable state with room, a client whose backend answers ends bridged to it, both registered and open, and nothing else has changed |
| TcpForward.ServedClientLeavesNothing | internal/server/forward.go:201-217 | when that bridge is over, the forwarder is as it was before the client came |
| TcpForward.FailedDialLeavesNothing | internal/server/forward.go:201-206 | so it is after a client whose backend cannot be reached |
| TcpForward.FullForwarderTurnsAway | internal/server/forward.go:192-199 | with 512 registered connections a client is closed at once, and nothing else changes |
| TcpForward.StopCloses | internal/server/forward.go:221-229 | stopping closes the listener and exactly the registered connections, for good |
| TcpForward.Forwarder.AdmitClient | internal/server/forward.go:192-199 | the locked test of the accept loop admits the client exactly if the forwarder is not stopped and fewer than 512 connections are registered, and then registers it and starts its goroutine |
| TcpForward.Forwarder.RegisterBackend | internal/server/forward.go:207-215 | the locked test after the dial registers the backend exactly if the forwarder is not stopped; nothing else changes |
| TcpForward.Forwarder.Unregister | internal/server/forward.go:201-216 | the deferred deletions take out exactly the one connection that is leaving |
| TcpForward.Forwarder.Stop | internal/server/forward.go:221-229 | exactly what is registered is closed, and the table itself is unchanged |
| UdpForward.EveryRunIsSafe | internal/server/forward.go:245-301 | at most 256 peers; the entry of a client address is exactly the one relay that has not unregistered; every reply went to the address that created its relay and carries what that upstream socket delivered; a stopped forwarder without relays has no open socket |
| UdpForward.LeavingRemovesOnlyItself | internal/server/forward.go:273-275 | deletion by key removes the finishing relay's own entry and never a successor's |
| UdpForward.StoppedForwarderDrains | internal/server/forward.go:293-301 | after stop no relay is created, only boundedly many actions remain, and at their end every upstream socket is closed and `peers` is empty |
| UdpForward.NewClientIsAnswered | internal/server/forward.go:245-290 | from any reachable state with less than 256 peers, the first datagram of a client opens a relay of its own and goes upstream through it, and the answer from there goes back to that client |
| UdpForward.KnownClientIsForwarded | internal/server/forward.go:259-290 | every further datagram goes through the socket that its relay has, and nothing else changes |
| UdpForward.FailedRelayLeavesNothing | internal/server/forward.go:273-287 | a relay whose read or write fails takes its entry out and closes its socket, and nothing else changes |
| UdpForward.StopCloses | internal/server/forward.go:293-301 | stopping closes the listener and exactly the sockets in the table, for good |
| UdpForward.Forwarder.HandleDatagram | internal/server/forward.go:255-290 | a datagram is dropped exactly if the forwarder is stopped, or its client is unknown and there are 256 peers or the dial fails; a known client keeps its socket, a new one gets the dialled one and an entry |
| UdpForward.Forwarder.Forget | internal/server/forward.go:275 | exactly the relay's own entry is deleted |
| UdpForward.Forwarder.Stop | internal/server/forward.go:293-301 | exactly the sockets in `peers` are closed, the table itself is unchanged |
| Mappings.EveryRunAgrees | internal/server/forward.go:41-146 | in every run, with puts before and after the restore and with failed starts and saves: ids and listen ports within UDP and within TCP/HTTP are distinct, bound sockets are exactly those of `forwards` (and of the put in progress), forwards belong to enabled mappings, and after the restore an enabled mapping that does not run has an error |
| Mappings.EveryRunBindsItsPorts | internal/server/forward.go:16-161 | in every run each listen port is used at most once for UDP and once for TCP or HTTP, and whenever the lock is free exactly the ports of the running mappings are bound |
| Mappings.DeviceJoins | internal/server/server.go:317-328 | a device that joins is known with its address unless it was known before, and nothing else changes |
| Mappings.PutIsAllOrNothing | internal/server/forward.go:41-87 | a put adds mapping, forwarder and socket together, or leaves the state as it was; a helper of `Mappings.MappingTable.PutMapping`, whose steps `Mappings.EveryRunAgrees` covers |
| Mappings.DeleteIsAllOrNothing | internal/server/forward.go:88-122 | a delete takes out mapping, forwarder and socket together, or leaves the state as it was |
| Mappings.MarkedThoughRunning | internal/server/forward.go:129-144 | an enabled mapping is left running with an error if and only if it ran before the restore reached it, or starts now with an error it was loaded with |
| Mappings.PutBeforeRestoreIsMarked | internal/server/forward.go:41-146 | a run that gets there: put without a failure, then the restore |
| Mappings.RestoreEnds | internal/server/forward.go:123-146 | when the restore is through its list every enabled mapping runs or has an error, and mappings changed in nothing but their error |
| Mappings.RestoreStartsMappings | internal/server/forward.go:123-146 | from any reachable state a restore starts exactly the enabled mappings with a known device and a free port whose start meets no fault, each on its own port and with the error it had; every other enabled one gets its error, and nothing else changes |
| Mappings.MappingTable.Validate | internal/server/forward.go:16-40 | accepts exactly the mappings within the limits on ports, name, protocol and domain, with an existing target other than themselves and a port that no mapping has, UDP apart from TCP and HTTP |
| Mappings.MappingTable.PutMapping | internal/server/forward.go:41-87 | the handler makes exactly the four steps of a put, reports success exactly if all succeeded, and then list, forwards and bound ports have the new mapping; otherwise nothing has changed |
| Mappings.MappingTable.DeleteMapping | internal/server/forward.go:88-122 | exactly the first mapping of the id, its forwarder and its port go, or nothing after a failed save |
| Mappings.MappingTable.Remove | internal/server/forward.go:95-101 | the loop takes out exactly the first mapping of the id and keeps the order of the others |
| Mappings.MappingTable.RestoreMappings | internal/server/forward.go:123-146 | the loop over the snapshot starts and marks exactly as `Mappings.RestoreStartsMappings` says, with the faults it meets |
| WireGuard.RouteContains | internal/server/server.go:285 | for any two addresses, the text of one with its mask contains that of the other if and only if the address ends in it |
| WireGuard.SameNetworkExact | internal/server/server.go:285 | inside one /24 that means that they are equal |
| WireGuard.OtherNetworkNotExact | internal/server/server.go:285 | across networks it does not: 110.77.0.5 ends in 10.77.0.5 |
| WireGuard.RenderContains | internal/server/server.go:285 | for every table, the substring test on the whole listing hits if and only if some peer's address ends in the one looked for |
| WireGuard.RenderExact | internal/server/server.go:285 | inside one /24, if and only if some peer has it |
| WireGuard.RowsOfRender | internal/server/server.go:301-302 | for every table, splitting the listing into lines and fields gives back the table row by row |
| WireGuard.SearchMeans | internal/server/server.go:301-310 | for every table, the line search says "present" exactly if the key's peer has an address that ends in the one looked for, and "conflict" exactly if another key's has |
| WireGuard.SearchIsRightIff | internal/server/server.go:566-576 | for a table with one peer per key, these answers are right for every key if and only if no peer has another address that ends in the one looked for |
| WireGuard.SearchExact | internal/server/server.go:301-310 | inside one /24 they are right |
| WireGuard.Search | internal/server/server.go:566-576 | the loop over lines and fields computes those two flags for any text |
| Enrollment.Allocate | internal/server/server.go:275-294 | the loop returns the first candidate of 2 to 254, or nothing |
| Enrollment.InsideMeans | internal/server/server.go:289 | the network contains a host if and only if they agree in the bits of the mask, for every length of mask |
| Enrollment.CandidateMeans | internal/server/server.go:284-292 | for every table, a host passes the handler's test if and only if it is free and no peer has another address that ends in its own |
| Enrollment.AllocationIsLeastCandidate | internal/server/server.go:275-316 | for every table, the automatic address is the least such host of 2 to 254, there is none exactly when none passes, and an allocated address is neither adopted nor in conflict |
| Enrollment.AllocationIsLeastFree | internal/server/server.go:275-316 | inside one /24 it is the least host that is free of peers, server and devices and inside the network, and there is none exactly when no host is free |
| Enrollment.EveryRunEnrollsSafely | internal/server/server.go:194-328 | in every run of code creation, joining and expiry: ids, addresses and non-empty keys stay distinct, the device list only grows by devices that joined, each with a code of its own issued at most ten minutes before and gone afterwards, and at most 100 codes are pending |
| Enrollment.CodeIsIssued | internal/server/server.go:209-223 | while fewer than 100 codes can be used a code is issued, for ten minutes, and exactly the expired ones go on the way |
| Enrollment.NoCodeIsIssued | internal/server/server.go:200-219 | with 100 of them, or for an address that may not be requested, none is issued |
| Enrollment.FreshCodeEnrolls | internal/server/server.go:194-328 | within ten minutes a device with a new valid key and a fresh code gets the least free host of the network and its route, and the code is used up; after that nothing happens |
| Enrollment.JoinKeepsRoutes | internal/server/server.go:299-327 | for every table, a join, whether it fails or not, leaves every owner of an address in place if and only if it does not set a key that is in the table under another address |
| Enrollment.JoinGivesRoute | internal/server/server.go:300-316 | after a successful join the device's key owns the device's address if and only if its peer did not have another address that ends in it |
| Enrollment.JoinGivesHost | internal/server/server.go:300-316 | inside one /24 it always does |
| Enrollment.FailedSaveTakesRouteBack | internal/server/server.go:320-325 | a join whose save fails takes the route back that it had set and changes nothing else but that the address is nobody's |
| Enrollment.AdoptedWithoutRoute | internal/server/server.go:300-316 | a join that succeeds without a route, by such an adoption |
| Enrollment.JoinMovesKey | internal/server/server.go:311-316 | a join that takes away the address its own key had |
| EnrollmentServer.Registry.CreateCode | internal/server/server.go:194-223 | success exactly if the requested address is allowed and fewer than 100 codes can be used; then exactly those codes and the new one with its ten minutes are left |
| EnrollmentServer.Registry.Expire | internal/server/server.go:211-215 | exactly the expired codes are deleted |
| EnrollmentServer.Registry.Taken | internal/server/server.go:259-264 | finds whether the key or the requested address belongs to a device |
| EnrollmentServer.Registry.Join | internal/server/server.go:252-328 | a device comes out exactly if key, code, address, peer table and every operation allow it, with the chosen address and the live code used up; every failure exit leaves devices and codes as they were |
| Reconcile.Pass | internal/server/server.go:555-581 | the pass issues the commands that the single stale listing calls for, and the table is what those that work make of it |
| Reconcile.PassOwns | internal/server/server.go:563-578 | for every table, who owns what after a pass: what it gave, and what was there of keys it did not move |
| Reconcile.PassRoutes | internal/server/server.go:563-578 | for every table, a device with a valid key and address is routed after the pass if and only if it was before, or no peer's address ends in its own and its command worked |
| Reconcile.PassKeepsRoutes | internal/server/server.go:555-581 | for every table, a pass changes no existing route if and only if it moves no key |
| Reconcile.SecondPassSilent | internal/server/server.go:555-581 | for every table, a second pass issues nothing if and only if the first left no valid device's address open, told from the table before it |
| Reconcile.SecondPassInNetwork | internal/server/server.go:555-581 | for a table of one /24 with one owner per address, if and only if no command failed and no key gave up another device's address |
| Reconcile.KeysMayMove | internal/server/server.go:563-578 | a concrete table on which a pass moves a route and a second pass is not silent |
| ReconcileRace.PassSparesDevices | internal/server/server.go:555-581 | with any joins and code creations between a pass's listing and its commands, and between any two of them, a device that has its address keeps it, whether it was listed before the pass or joined during it, and whichever commands fail |
| ReconcileRace.JoinDuringPassKeepsRoute | internal/server/server.go:555-581 | a device that joins during a pass and is not mistaken for adopted still has its route when the pass is over |
| Login.EveryRunFollowsTheRule | internal/server/server.go:132-153 | with the trimmed lists and any pruning the server admits an attempt exactly if the full history of its address has fewer than ten admitted ones in the last minute, and its list holds exactly those, in order |
| Login.EveryDecision | internal/server/server.go:132-153 | in every run and with any pruning a request is let through if and only if fewer than ten requests of its address in the last sixty seconds were |
| Login.PruningNeverDecides | internal/server/server.go:136-142 | two runs that prune at different requests decide alike |
| Login.AtMostTenInAnyMinute | internal/server/server.go:143-153 | at every instant at most ten attempts not answered 429 lie in the preceding minute |
| Login.Throttle.Prune | internal/server/server.go:136-142 | exactly the addresses without a time in the last sixty seconds are deleted |
| Login.Throttle.Trim | internal/server/server.go:143-148 | the loop keeps the times of the last minute in order |
| Login.Throttle.Admit | internal/server/server.go:132-153 | the handler lets an attempt through exactly if fewer than ten of its address were in the last sixty seconds, and touches other addresses only when there are more than 4096 |
| Policy.EveryRunKeepsPolicies | internal/server/server.go:422-467 | in every run from any loaded file, with policies replaced while dials are under way: one policy per source, at most 20 different exits that are existing devices, and Active empty, DIRECT or an existing device; and what is saved at any point can be loaded again |
| Policy.EveryDialIsJustified | internal/server/server.go:486-520 | the outcome of every dial follows from its attempts: the first exit that works after all before it failed, a direct dial only after all exits failed under "direct", otherwise a block |
| Policy.SnapshotIsThePolicy | internal/server/server.go:486-500 | a dial works with all exits of its source's policy, in order, and without a policy it blocks at once |
| Policy.EveryDialEnds | internal/server/server.go:486-529 | from any reachable state a dial ends, for any pattern of working connections: through the first exit of its source's policy that works, or directly or blocked as the policy says, and with the report that belongs to it |
| Policy.DevicesChange | internal/server/server.go:402-413 | a new device comes last and without a proxy, an update changes the proxy of its own device if the save works |
| Policy.ReportChangesActiveOnly | internal/server/server.go:521-529 | the report of a dial changes nothing but Active, only in the policy of its source, and only to a permitted value |
| Policy.ActiveIsCurrent | internal/server/server.go:486-529 | in a run from any loaded file in which it holds at first and no device is named "" or DIRECT, Active is empty, DIRECT or an exit of the current policy after every event if and only if no dial reports an exit that its source's policy has lost meanwhile |
| Policy.StepIsCurrent | internal/server/server.go:521-529 | of single events, exactly such a report makes that false |
| Policy.ReportAfterReplacement | internal/server/server.go:486-529 | a run with such a report: a dial begins, the policy is replaced by one without its exit, the dial reports |
| Policy.Dialling | internal/server/server.go:501-519 | the dial loop goes through the first exit that works, and otherwise directly or not at all as the policy says; the outcome is justified by its log |
| Policy.CheckExits | internal/server/server.go:440-448 | accepts exactly the lists of different existing devices with a proxy |
| Policy.PolicyServer.PutPolicy | internal/server/server.go:434-466 | success exactly for at most 20 different existing exits with a proxy and an existing source, if the save works; then the policy of the source is the requested one with Active cleared and every other is as it was, otherwise all are |
| Policy.PolicyServer.Overwrite | internal/server/server.go:450-456 | the loop replaces every policy of the source in place |
| Policy.PolicyServer.Snapshot | internal/server/server.go:487-500 | the lookup loops give the snapshot of the step relation |
| Policy.PolicyServer.Report | internal/server/server.go:521-529 | Active of the source's policy is the exit that worked, DIRECT, or empty after a block, and unchanged after a failed direct dial; nothing else changes |
| SaveFile.SaveIsAtomic | internal/core/model.go:137-167 | whatever fails, wherever the machine stops and however many unflushed renames are lost, the path has the new value whole, or the old one whole (none at a first save), or what stood there before earlier lost renames: the new one exactly if the rename was done and is not lost; a call that returns reports whether it was done |
| SaveFile.SaveCleansUp | internal/core/model.go:145-150 | a call that returns has removed its own temporary file and left every other file alone, such as those an earlier crash left over |
| SaveFile.SaveMeans | internal/core/model.go:137-167 | for any pattern of failures the steps of a call end with the new value whole and synced under the path, or with nothing changed: the former exactly if all eight operations work |
| SaveFile.Directory.Save | internal/core/model.go:137-167 | success exactly if all eight operations work, and then only the target file changed, otherwise nothing did; the early exits and the deferred removal come to what the steps come to |
| WriteThrough.EveryRunAgrees | internal/server/server.go:317-467 | in every run with failing saves, stops, crashes and lost renames, whenever the state lock is free, the file is whole and memory and disk agree entry by entry on the stable part, which is the changes in effect replayed |
| WriteThrough.AcknowledgedMeansLogged | internal/server/server.go:415-420 | a handler reports success exactly with its change the last one in effect, and after a failure memory and the changes in effect are as before; it says what the log of `WriteThrough.AcknowledgedSurvives` holds |
| WriteThrough.ChangeIsSaved | internal/server/server.go:402-420 | from any reachable state with a free lock, a change to something that exists, saved without a failure, is acknowledged: it is in memory, on disk and last in effect |
| WriteThrough.PlainSaveWrites | internal/core/model.go:137-167 | a save that nobody asks about writes the whole memory, volatile fields included, and adds no change |
| WriteThrough.SmallSteps | internal/server/server.go:398-401 | what does not exist is not changed, and a volatile update is in memory at once and only there |
| WriteThrough.FlushSettles | internal/core/model.go:163-167 | flushed renames settle the changes up to the next rename, and all changes once all are flushed |
| WriteThrough.StopAndStart | internal/core/model.go:130-136 | a server that is stopped and started again has in memory what is in its file |
| WriteThrough.ChangeMeans | internal/server/server.go:402-456 | entry by entry and field by field what each change does: a device update changes the four settings of the first device of the id and nothing else, a policy takes the place of its source's, a deletion takes out the first mapping of the id, new devices and mappings come last |
| WriteThrough.TouchMeans | internal/server/server.go:521-529 | which entries the volatile updates write, and that nothing else changes |
| WriteThrough.StableMeans | internal/server/server.go:317-467 | agreement on the stable part is equality of every entry in every field but SSH settings, heartbeat data, Active and mapping errors |
| WriteThrough.SettledMeansSafe | internal/core/model.go:163-167 | the first n changes survive every continuation, with any failures, stops and crashes, if and only if the renames up to them have been flushed |
| WriteThrough.AcknowledgedSurvives | internal/server/server.go:320-328 | from end to end: changes that were flushed, or all of them if no later crash loses a rename, are still in effect in memory and on disk after any later events |
| WriteThrough.AcknowledgedCanBeLost | internal/core/model.go:163-167 | a run in which an acknowledged mapping is gone after a crash |
| WriteThrough.RestartFindsTheLog | internal/core/model.go:130-136 | a restart after a crash at any point loads the changes up to the last rename that is not lost, all of them if none is |
| WriteThrough.UndoIsExact | internal/server/server.go:461-465 | each handler's way of undoing (cut the list, put the old device back, put the copy back) gives back exactly the state before its change; a helper of `WriteThrough.EveryRunAgrees` |
| WriteThrough.StableApply | internal/server/server.go:407-413 | what a change does to the persisted part does not depend on the volatile fields |
| WriteThrough.TouchIsInvisible | internal/server/server.go:521-529 | setting Active, a mapping's error, heartbeat data or SSH fields changes nothing of the stable part; a helper of `WriteThrough.EveryRunAgrees` |
| StateStore.Append | internal/server/server.go:318 | appending in place or in a larger copy gives the old elements and the new one |
| StateStore.RemoveAt | internal/server/forward.go:97 | shifting in place gives the list without the element |
| StateStore.Store.AddDevice | internal/server/server.go:317-327 | on arrays edited in place: the device comes last on success, the exact old list stands after a failed save, memory and disk agree either way |
| StateStore.Store.AddMapping | internal/server/forward.go:68-82 | the same for a new mapping |
| StateStore.Store.CutMapping | internal/server/forward.go:95-98 | the shift in place deletes exactly the mapping at the index found |
| StateStore.Store.RemoveMapping | internal/server/forward.go:92-116 | exactly the first mapping of the id goes, in the same order, or the copy taken before the shift comes back |
| StateStore.Store.ChangeDevice | internal/server/server.go:402-419 | the first device of the id has the given name, proxy port, proxy type and SSH settings and is otherwise as it was, and so are all others; after a failed save the old device is back |
| StateStore.Store.SetPolicy | internal/server/server.go:449-465 | every policy of the source is the given one, or it comes last if there was none, and the others stay; after a failed save the copy taken before is back |
| RemoteRouting.EveryRunRoutes | internal/server/remote.go:38-222 | in every run with any number of browsers, agents, reconnects and misbehaving agents: a relayed request reaches only the session its own browser's offer created, a browser sees only messages of its own device's connections and, unless forged by that agent, of its own session, and an agent connection serves at most eight sessions |
| RemoteRouting.EveryRunKeepsTheHub | internal/server/remote.go:52-73 | the agent entry of a device is its latest registration until that connection has cleaned up, and a browser is listed exactly from registration to removal |
| RemoteRouting.CleanUpSparesSuccessor | internal/server/remote.go:61-73 | the clean-up of a replaced agent connection removes no registration and closes no browser |
| RemoteRouting.EveryRunHasAReceiver | internal/server/remote.go:124-213 | a serving browser handler always holds an agent connection of its device, or, for the server itself once offered, its local session |
| RemoteSessions.AgentComesOnline | internal/server/remote.go:38-60 | from any reachable state a new agent connection gets the device's entry, and exactly the connection it replaces is closed |
| RemoteSessions.AgentGoesOffline | internal/server/remote.go:61-73 | when the current connection ends, the entry goes and exactly the browsers listed for the device are closed |
| RemoteSessions.BrowserGetsEntry | internal/server/remote.go:124-146 | with less than 32 sessions a browser gets an entry of its own and the agent connection of the time |
| RemoteSessions.OfferOpensSession | internal/agent/remote.go:87-109 | its first offer opens one session for it at that agent, if the agent has less than eight |
| RemoteSessions.OfferIsRefused | internal/agent/remote.go:88-106 | otherwise the offer comes back as an error under the same session id |
| RemoteSessions.RequestArrives | internal/server/remote.go:206-213 | a request of a browser with a session reaches that session, once |
| RemoteSessions.MessageIsShown | internal/server/remote.go:91-101 | an answer, relayed result or error for a browser that is listed for the agent's device is written to that browser, once, and nothing else happens |
| RemoteSessions.MessageToClosedBrowserIsLost | internal/server/remote.go:95-101 | for a browser whose connection is closed meanwhile it is lost, and nothing else happens |
| RemoteSessions.ResultComesBack | internal/server/remote.go:75-102 | so whatever a session sends comes to the browser it was made for |
| RemoteSessions.MessageIsDropped | internal/server/remote.go:91-101 | any other message is read and dropped |
| RemoteSessions.BrowserLeavesNothing | internal/server/remote.go:151-165 | when the browser leaves, its session at the agent ends and its entry goes |
| RemoteSessions.LocalSessionWorks | internal/server/remote.go:190-213 | for the server itself the handler holds the session, which gets the requests and whose output is written to the browser |
| RemoteSessions.BrowsersInTurn | internal/server/remote.go:151-221 | a browser that is not served or whose connection is closed sends nothing, and the agent is told before the entry goes |
| RemoteSessions.AgentsInTurn | internal/server/remote.go:52-103 | a connection registers once, closes its predecessor before it reads, finishes a message before the next, and is cleaned up after it has ended |
| RemoteLimit.LimitHolds | internal/server/remote.go:124-146 | at most 32 browsers are listed in every run in which at most one at a time has been counted in and not yet listed |
| RemoteLimit.LimitExceeded | internal/server/remote.go:124-146 | a run with two such browsers that ends with 33 listed |
| RemoteHub.Hub.RegisterAgent | internal/server/remote.go:54-60 | the new connection stands in the table and exactly the replaced one is returned for closing |
| RemoteHub.Hub.CleanUpAgent | internal/server/remote.go:61-73 | only the own registration is withdrawn, and exactly then the browsers of the device are closed |
| RemoteHub.Hub.FindBrowser | internal/server/remote.go:91-101 | a browser is found exactly for an answer, a relayed result or an error whose session id is listed for the device, and it is the one listed |
| RemoteHub.Hub.AddBrowser | internal/server/remote.go:143-146 | the registration of a fresh session id |
| RemoteHub.Hub.RemoveBrowser | internal/server/remote.go:159-161 | the deferred removal of exactly that entry |
| RemoteHandlers.BrowserHandler.Request | internal/server/remote.go:170-221 | exactly when the handler goes on (a ping, one offer, relays only after it, a reachable receiver), what it writes to the agent, always under its own session id, and which step of the routing this is |
| RemoteHandlers.AgentLoop.Take | internal/agent/remote.go:87-116 | for each message of the server: which sessions there are afterwards, that a relayed request reaches the session of its own sender only, when an offer is refused with an error, at most eight sessions |
| RemoteHandlers.TakeEffects | internal/agent/remote.go:87-116 | the agent's step hands a relayed request to the session of the message's own sender only, keeps the invariant and at most eight sessions |
| SessionQueue.EveryRunKeepsAccount | internal/remote/session.go:124-258 | accepted messages are those handled, then at most one in hand or given up, then those queued; at most 64 wait, none above 64 KiB; results are one for each handled request, in order, with its id |
| SessionQueue.MessageIsQueued | internal/remote/session.go:88-137 | from any reachable uncancelled state a message over the relay, or over the channel before the switch, is queued last if it has at most 64 KiB and less than 64 wait, and otherwise cancels the session |
| SessionQueue.OldestIsAnswered | internal/remote/session.go:237-257 | the oldest request in the queue gets its one result, whatever it comes to, and nothing else changes |
| SessionQueue.MalformedEndsSession | internal/remote/session.go:237-257 | a message that is no request ends the session |
| SessionQueue.TerminalComesBetween | internal/remote/session.go:320-331 | terminal output goes out between two results and leaves them as they are |
| SessionQueue.CancelEndsSession | internal/remote/session.go:237-257 | a session that is cancelled while it waits ends, and so does one whose result cannot be written |
| SessionQueue.UntilCancelledNothingIsLost | internal/remote/session.go:88-95 | in a run that ends uncancelled, with the two ways in interleaved anywhere between lock and queue, every message is enqueued once or on its way, except exactly those over the data channel that took the lock after one over the relay; so nothing is lost if and only if there is none of these |
| SessionQueue.OrderIsKept | internal/remote/session.go:88-137 | in a run that ends uncancelled, messages are enqueued in the order in which they took the lock if and only if no relayed one is enqueued while one of the channel is between lock and queue |
| SessionQueue.RelayOvertakes | internal/remote/session.go:88-137 | a concrete run in which the queue has the later, relayed message first and nothing is lost |
| SessionQueue.LateChannelMessageIsDropped | internal/remote/session.go:88-95 | a concrete run in which such a message is dropped and the session goes on |
| SessionQueue.Session.Switch | internal/remote/session.go:124 | under the lock, the switch to the relay is for good; nothing is enqueued yet |
| SessionQueue.Session.Test | internal/remote/session.go:89-91 | under the lock, a data-channel message counts exactly before the switch; nothing is enqueued yet |
| SessionQueue.Session.Accept | internal/remote/session.go:125-137 | the select, after the lock: the message is enqueued exactly if it is short enough and finds room, otherwise the session is cancelled |
| SessionQueue.Session.Round | internal/remote/session.go:237-257 | one round takes the oldest message and either sends the one result with its id or cancels |
| Base64.RoundTrip | internal/remote/session.go:163 | decoding undoes encoding for every byte sequence |
| Base64.EncodedLength | internal/remote/session.go:163 | the length of the encoded text |
| Base64.PaddingEndsText | internal/remote/session.go:163 | padding is accepted at the end of a text only |
| Base64.Alphabet | internal/remote/session.go:163 | the symbols in order, as table 1 of section 4 of RFC 4648 has them |
| Base64.TestVectors | internal/remote/session.go:163 | the padding, as the test vectors of section 10 of RFC 4648 have it |
| Chunks.Send | internal/remote/session.go:153-170 | the position loop cuts a message into the frames of the specification |
| Chunks.FramesMean | internal/remote/session.go:153-170 | a message of at most 40000 bytes travels as it is, a longer one in as many pieces of 24000 bytes as it takes, in order, of which exactly the last is marked |
| Chunks.EveryFrameIsSmall | internal/remote/session.go:155-163 | every frame of every message is below 48 KiB, with any 64-bit id |
| Chunks.OneMessage | web/static/remote-ui.js:131-156 | a link with room receives a message exactly if it has at most 4 MiB and is otherwise unchanged, else it closes |
| Chunks.SequentialRoundTrip | web/static/remote-ui.js:131-156 | messages sent one after the other arrive exactly and in order, even with equal ids or ids that the browser rounds to the same number |
| Chunks.InterleavedRoundTrip | web/static/remote-ui.js:131-156 | any order-preserving interleaving of up to four unfinished messages with different ids and any number of short ones delivers exactly the finished messages and keeps nothing of them |
| Chunks.MessageIsSent | internal/remote/session.go:153-170 | any message of up to 4 MiB can be sent to its end, a long one beside up to three others: on the wire are exactly its frames, and it is the last that was finished |
| Chunks.FifthStreamFails | web/static/remote-ui.js:140-143 | the first chunk of a fifth unfinished message closes the link |
| Chunks.WriteTerminal | internal/remote/session.go:320-331 | the pieces sent decode to exactly the counted bytes, also when a send fails, and are short enough to travel unchunked |
| Chunks.Link.Join | web/static/remote-ui.js:147-152 | the copy loop gives the concatenation of the buffers |
| Chunks.Link.Gather | web/static/remote-ui.js:133-156 | the browser's object does with a decoded chunk what the specification does |
| Chunks.Link.Receive | web/static/remote-ui.js:131-156 | the same for every frame |
| FileTransfer.Remote.Create | internal/remote/session.go:378-383 | creation is exclusive and leaves an existing file alone |
| FileTransfer.Remote.Write | internal/remote/session.go:384-395 | a valid chunk of at most 24000 bytes is written at its offset, anything else is refused without effect |
| FileTransfer.WrittenMeans | internal/remote/session.go:394 | byte by byte what a write leaves: the new bytes at their place, the old ones everywhere else, zeros in a gap |
| FileTransfer.Remote.Read | internal/remote/session.go:366-377 | the piece read decodes to the bytes at the offset; the end is reported on every short read and perhaps on a full last one |
| FileTransfer.Upload | web/static/remote-ui.js:384-402 | create and the upload loop leave the file equal to the source, or to the chunks sent before the dialog closed, and touch no other file |
| FileTransfer.Download | web/static/remote-ui.js:334-351 | the loop ends and returns the file exactly if it has at most 128 MiB, however the end is reported |
| FileTransfer.UploadThenDownload | web/static/remote-ui.js:384-402 | the round trip for every file up to 128 MiB, empty files and multiples of 24000 included |
| Desktop.EveryRunAnswersItsOwn | internal/agent/remote.go:171-233 | over all interleavings of request, fetch, reply and timeout: a request returns only a posted reply with its own id, `pending` is exactly the requests in progress and so empty without any, each job is handed out at most once, at most 32 wait |
| Desktop.RequestIsAnswered | internal/agent/remote.go:171-233 | from any reachable state with an empty queue, a new request whose job is fetched and answered returns that very answer, its job having been handed out once, and leaves no entry |
| Desktop.RequestIsQueued | internal/agent/remote.go:177-184 | a new request is queued last if less than 32 jobs wait |
| Desktop.RequestGivesUp | internal/agent/remote.go:183-196 | a request that times out returns, and says whether its job had been queued |
| Desktop.FetchEnds | internal/agent/remote.go:198-214 | a fetch without a job ends without one; one that has taken a job drops it only if its request is over |
| Desktop.AnswersAreFinal | internal/agent/remote.go:188-196 | a decided request takes no second reply |
| Desktop.HandedWhilePending | internal/agent/remote.go:203-210 | a job is handed out only if its request is still in progress and it was not handed out before |
| Desktop.UnwelcomeRepliesAreDropped | internal/agent/remote.go:217-233 | the reply handler always finishes, and the reply matters if and only if its request is known, still waits and has none yet; otherwise no later event of any run can tell that it was sent |
| Desktop.RequestsAlwaysReturn | internal/agent/remote.go:175-196 | in every run, a request whose timeout has fired and that has had its turn to clean up has returned and left no entry, whatever all other handlers do before and in between |
| Desktop.RequestsComeToAnEnd | internal/agent/remote.go:171-197 | from any reachable state and through any later events a request makes at most three moves of its own, it has none left if and only if it has returned, and then it has no entry |
| Desktop.Bridge.Open | internal/agent/remote.go:177-181 | channel and entry of a fresh id |
| Desktop.Bridge.Offer | internal/agent/remote.go:183-184 | the job is queued last exactly if less than 32 wait |
| Desktop.Bridge.Receive | internal/agent/remote.go:188-193 | what is received is what the channel holds, carries the request's own id, and is taken out |
| Desktop.Bridge.Close | internal/agent/remote.go:182 | exactly the own entry is deleted |
| Desktop.Bridge.Next | internal/agent/remote.go:203-210 | the oldest job leaves the queue and is handed out exactly if it is still pending |
| Desktop.Bridge.Put | internal/agent/remote.go:223-231 | a reply is kept exactly if the channel that was found is empty, and it is that of its own id |
| Shares.EveryRunIsSafe | internal/agent/agent.go:435-560 | in every interleaving: configured ports are distinct, a cached listener belongs to its port and has not run its clean-up, no open listener is lost, and whenever the lock is free memory equals disk and cached ports are configured |
| Shares.CleanUpSparesReplacement | internal/agent/agent.go:523-530 | the clean-up of a dead listener evicts itself and never its replacement |
| Shares.InHandIsNotCleaned | internal/agent/agent.go:481-492 | a listener that was just opened cannot run its clean-up before the lock's holder caches it |
| Shares.RestoreFillsTheCache | internal/agent/agent.go:500-512 | a restore in which every listen succeeded leaves every configured port cached, whatever the listeners did meanwhile |
| Shares.ShareIsMade | internal/agent/agent.go:435-498 | from any reachable state with a free lock, a new share for permitted ports, when nothing fails, has an open listener in the cache and is configured last, in memory and on disk |
| Shares.ShareIsRefused | internal/agent/agent.go:441-478 | a share for other ports or for a configured one, or whose preparation fails, is not begun |
| Shares.FailedSaveClosesListener | internal/agent/agent.go:486-492 | if the file cannot be written the new listener is closed, and nothing else has changed |
| Shares.DeadListenerGoes | internal/agent/agent.go:513-530 | a listener whose accept loop ends closes its socket and takes itself out of the cache |
| Shares.ShutDownClosesAll | internal/agent/agent.go:160-168 | at shutdown every open listener is closed |
| Shares.ShareCache.Find | internal/agent/agent.go:457-466 | finds the share of a port exactly if there is one |
| Shares.ShareCache.Add | internal/agent/agent.go:435-498 | success exactly if the share existed or every step worked, and then configuration, file and cache hold it; otherwise nothing changed |
| Shares.ShareCache.Keep | internal/agent/agent.go:486-497 | a failed save leaves configuration, file and cache as they were |
| Shares.ShareCache.Restore | internal/agent/agent.go:500-512 | cached listeners stay, and the other configured ports are cached exactly if their listen succeeded |
| Shares.ShareCache.CleanUp | internal/agent/agent.go:523-530 | a dead listener's clean-up takes out its own entry or nothing |
| Socks.HandshakeUnderstood | internal/core/localproxy.go:83-166 | every greeting that offers no authentication followed by a CONNECT request, encoded as sections 3 to 5 of RFC 1928 say, leads to a dial of the encoded address and port, the reply bytes 5 0 0 1 or 5 1 0 1 followed by six zeros as the dial works or not, and a bridge that gets exactly the bytes after the handshake |
| Socks.HandshakeOnTheWire | internal/core/localproxy.go:83-166 | the same byte by byte: version, methods, CONNECT, type and bytes of the address, port in network order |
| Socks.NoMethodRefused | internal/core/localproxy.go:90-104 | a greeting without that method is answered 5 255 |
| Socks.RequestRefused | internal/core/localproxy.go:109-142 | any command but CONNECT is refused with code 7, any other type of address with code 8 |
| Socks.PortZeroRefused | internal/core/localproxy.go:143-150 | port 0 is refused with code 1 and nothing is dialled |
| Socks.EveryOutcome | internal/core/localproxy.go:83-166 | there is no other answer to any input |
| Socks.DialMeansHandshake | internal/core/localproxy.go:83-166 | conversely, whenever anything is dialled the input is such an encoding followed by the bridged rest |
| Socks.EffectsInOrder | internal/core/localproxy.go:144-165 | at most one dial; ten written bytes whose second is 0, or a bridge, only after a dial that worked |
| Socks.Conn.ReadFull | internal/core/proxy.go:75-80 | reads exactly the next n bytes however the stream is fragmented and leaves the rest |
| Socks.Conn.Peek | internal/core/localproxy.go:62-67 | shows the first byte and consumes nothing |
| Socks.Conn.ServeSocks | internal/core/localproxy.go:83-166 | the handler's effects depend on the concatenated stream only |
| Socks.Conn.Serve | internal/core/localproxy.go:60-79 | a stream that does not start with 5 goes to the HTTP proxy untouched, any other is served here |

## Left out

- WireGuard keys: the table holds key texts as given, so a key written in a non-canonical base64 form, which `wg` prints differently, is not modelled; nor is the check that a key is a point of X25519.
- WireGuard.RenderContains: needs at most one allowed address per peer, with the mask /32; several addresses of a peer are compared through the first listed field only.
- ReconcileRace.JoinDuringPassKeepsRoute: a join's own listing and its command, which run under the state lock but take time, are one step here.
- Reconcile.Pass: valid addresses are dotted quads; `net.ParseIP` also accepts IPv6 texts.
- Parsing of CIDR texts is abstract: whether a requested address lies in the network is a parameter of the event. Length checks of device names and the parameter checks of a device update only refuse requests and are left out.
- TcpForward: half-closed connections, keep-alive and the byte copying of the bridge; a handler's deadline is its failure event.
- UdpForward: the 30 second deadline is a read failure that may come at any time; the sizes of datagrams are not modelled.
- HTTP mappings: the reverse proxy with its host check; only their listener and port are modelled.
- Mappings: stopping an HTTP mapping can return before its server has taken over the listener, so after a failed save the port may stay bound for a moment; the model frees it at once. The system refuses a second bind of a port (that is an assumption of `Starts`), the shutdown that stops all forwarders, and puts after it; starting a forwarder and recording it is one step of a restore.
- The statement that a mapping's error is empty exactly when it runs is false of the code; the direction that holds is in `Mappings.EveryRunAgrees`.
- SaveFile.SaveIsAtomic: a file that was synced is intact as long as its directory entry is there; renames reach the disk in the order they were done.
- WriteThrough: a run begins with a file that has been loaded; the first start, which saves the server's own device, is a first save of `SaveFile` only.
- WriteThrough.EveryRunAgrees: SSH user and fingerprint set by a heartbeat, whose save result is ignored, the audit events, Active, mapping errors and statistics are not part of the agreement; JSON encoding is assumed to be faithful.
- StateStore: the save is one step that works or does not; its inner steps are those of `SaveFile`. Sharing of spare array room between the list and a copy of it is modelled only in so far as copies are fresh arrays, as they are in the code.
- RemoteSessions.RequestArrives: the agent's connection has no other message under way (so for offers and leaving); with a backlog the messages in front are taken first, in order, as `RemoteHandlers.AgentLoop.Take` says for each.
- Reassembly across a switch from the data channel to the relay in the middle of a chunked message is excluded: chunks are assumed to arrive in order.
- A chunk whose text does not decode raises an exception in the browser: over the relay that closes the link, as modelled; over the data channel nothing catches it.
- A send that fails in the middle of a chunked message is not modelled, nor which of data channel and relay carries a frame.
- Chunks.SequentialRoundTrip: holds of messages up to 4 MiB; beyond that `Chunks.OneMessage` says that the link closes. A reassembled message that is itself a chunk is not modelled: the sender makes none.
- Base64.RoundTrip: line breaks and spaces that decoders tolerate are refused by the model's decoder, which is only given encoder output.
- FileTransfer.Download: the file is assumed not to be written meanwhile and the dialog to stay open; a dialog closed during an upload is modelled by `rounds`.
- FileTransfer: list, mkdir, rename and remove, SFTP errors other than a missing or existing file, and partial writes.
- SessionQueue: the operations themselves, SSH and WebRTC; an outcome is any value.
- Desktop: job contents, the size limit of a reply, and agents without a desktop queue.
- Shares: forwarding of accepted connections, its limit of 128 and the check of the peer's address.
- Socks.EffectsInOrder: deadlines and cancellation end the handler early and are not modelled; the result of writing a later reply is ignored, as in the code.
- Login: password comparison, cookies and sessions.
- Policy: the proxies' own protocols, and heartbeats that read the policy.
- Authentication tokens, origin checks, probes, diagnostics, the recovery back-off, the user interface, terminal emulation, installers and scripts.
