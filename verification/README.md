# A verified model of vpn-passthrough

The daemon creates tunnels (a network namespace, a veth pair, firewall tables, an optional VPN
session with forwarded ports) and runs processes inside them; clients talk to it over a Unix
socket. This project models the daemon's concurrent core in Dafny and proves what its design
relies on. It has four parts.

**The tunnel service** (`service.py`). Each await-free segment of a handler is one step; the
scheduler, the outcome of every acquisition and what other handlers do in between are arbitrary.
`Tunnels` is the registry machine (setup, rebind, destroy, teardown), `Ownership` who owns what
the host holds, `Holdings` which resources those are, `Rebinding` the contexts, `Leasing` the port leases,
`Filing` the ports under their names (`TunnelRuns` has the runs that
show what their conditions are for), `Starts` the handlers that wait for their started
tunnel's destroy, `Shutdown` run requests and rebind signals against destroys, `Renewal` which of the
ports a running process was started with, `Supervision` the
properties of one run request's log of actions. `Service` is the object itself: its dictionaries
as fields and its segments and loops as methods, each tied to the step of the machines above.

**The IPC stack** (`transport.py`, `protocol.py`, `client.py`, `server.py`). `Transport` holds the
framing and the connection object, `Stream` what arrives for every way the stream is cut,
`Protocol` the type checks, `Client` and `Server` the two objects, `EventIndex` the event index
against a scan of the pending requests, `Exchange` and `ExchangeEvents` client and server together
(`MissedEvents` has two runs in which an event is missed).

**The firewall** (`internet.py`, `kill_switch.py`). `Firewall` is the packet filter as a function on
packets, `Sharing` any number of tunnels changing it command by command, `KillSwitch` what a kill
switch is worth in every such run (`FilterRun` has a run that leaves a rule behind and one that
leaks), `Internet` the loops.

**Addresses and the OpenVPN pipe** (`network_interfaces.py`, `_openvpn.py`): `Addresses` and
`OpenVpnPipe`.

## Hypotheses

The code does not enforce these; the theorems that need one say so in their `requires`.

- Frame sends on one connection do not overlap (`send_frame` takes no lock): a send is one step of
  the exchange, and a list of sends in `Stream` takes its turns.
- A `request` is neither cancelled by its caller nor given a payload that cannot be encoded: both
  leave its entry among the pending ones (`client.py:84-88`), and `Exchange` ends every call by a
  result or an error (`Exchange.Enabled`).
- Request ids are fresh, a handler answers with its request's id, an event object is not also
  shaped like a response, and a declared event union names no class twice (`Exchange.Enabled`).
- Callbacks of the client may raise. A response callback that does leaves its request without an
  answer (`Exchange.StuckIffCallbackRaised`); an event callback that does costs the requests behind
  it that event (`ExchangeEvents.EventsComeBeforeTheResponse`).
- The payloads of the wire are free of NUL: JSON text escapes control characters (section 7 of
  RFC 8259).
- Entering a context manager is one step: it either enters or leaves nothing behind. `Sharing` and
  `Addresses.Links` look inside two of them.
- Releases succeed: leaving a context manager gives back what entering it took, although the
  commands that do so run unchecked (`network_interfaces.py:80`, `kill_switch.py:52`). `Sharing` and
  `KillSwitch` let them fail.
- `Leasing` assumes that calls on one name do not overlap (`Calm`), where the rebind of a started
  tunnel is part of the call that started it; `Rebinding.RunApart` that setups of one name do not overlap;
  `Shutdown.SingleSteps` that at most one destroy of a name is in flight. What happens otherwise is
  stated where it is known: `Rebinding.ContextMissingIffSetupFailed`,
  `Leasing.DestroyComesToNothingIffRebindFailed`, `Ownership.IdleHoldsNothingIffNoLateLease`,
  `Shutdown.LateSpawnIsNotAwaited`, and the runs of `TunnelRuns`.
- Process ids are unique while they matter: no other handler enters a pid that belongs to this
  request (`Supervision.Foreign`).
- The host's own tables are not named `vpt_...` or `kill_switch_...`.

## Where code and documentation differ

- `README.md:22` and `README.md:264` of the repository promise a DNS leak guard;
  `_setup_tunnel` never activates it, so the model has none.
- `_setup_tunnel` pops the context of its name when it fails, also when that context belongs to a
  tunnel which has won the name meanwhile (`Rebinding.ContextMissingIffSetupFailed`,
  `TunnelRuns.LosingSetupTakesTheContext`).
- A destroy re-raises the exception that a rebind task has died of, and then leaves the tunnel
  registered (`Leasing.DestroyComesToNothingIffRebindFailed`, `TunnelRuns.FailedRebindStopsDestroy`).
- An event of a subclass of a declared class passes the server's check, but the client routes by
  the exact class, so its own request does not receive it
  (`ExchangeEvents.EventsReachTheirDeclarers`, `MissedEvents.SubclassEventReachesNobody`).
- The client's guard against a raising callback encloses the whole loop over the receivers of an
  event, so those behind it miss the event (`MissedEvents.EarlierCallbackCostsTheEvent`).
- A kill switch promises that nothing but its server and routes is reached. The deletion of its
  table runs unchecked, and rules loaded into a table that is still there come too late: the next
  switch on that veth then keeps its predecessor's promise instead of its own
  (`KillSwitch.PromiseKeptIffFirstWithin`, `FilterRun.LeftTableLetsThrough`).
- A rebind restarts the processes that wait for it; one whose command was rendered before the new
  ports were published and that joins the waiters after the signal keeps the old ports until the next
  round (`Renewal.OldPortsKeptIffRoundMissed`, `Renewal.RoundMissed`).
- The handler of a started tunnel clears its two table entries last, by name: it leaves them behind
  when its rebind task has died (`Starts.EntryOutlivesHandlerIffItRaised`), and takes those of a
  successor that has entered meanwhile (`Starts.DestroyReleasesIffNotDisplaced`,
  `Starts.FormerHandlerTakesEntry`).
- A host rule whose handle the echo does not report is never deleted
  (`Sharing.ChainRestoredIffNothingLeftBehind`, `FilterRun.UnreportedRuleStays`).

## Checking

`dafny verify dfyconfig.toml` checks the whole project with Dafny 4.11.

## Model

| member | source | states |
|---|---|---|
| `Transport.Extract` | app/packages/ipc/src/radium226/vpn_passthrough/ipc/transport.py:30-34 | a buffer without a delimiter is handed back untouched; otherwise the first frame is cut off, without a delimiter in it, and delimiting it again gives the buffer back |
| `Transport.FirstCut` | app/packages/ipc/src/radium226/vpn_passthrough/ipc/transport.py:27-34 | `extract` undoes `delimit`, whatever follows in the buffer |
| `Transport.Connection.SendFrame` | app/packages/ipc/src/radium226/vpn_passthrough/ipc/transport.py:93-106 | for every schedule of partial writes and would-blocks the wire gains a prefix of the frame, all of it exactly when the call returns, with the descriptors on its first byte only |
| `Transport.Connection.GatherRights` | app/packages/ipc/src/radium226/vpn_passthrough/ipc/transport.py:136-142 | the descriptors of exactly the rights-carrying control messages, in order, whatever other messages are in between |
| `Transport.RightsIffCarried` | app/packages/ipc/src/radium226/vpn_passthrough/ipc/transport.py:136-142 | what is gathered is what the kernel carried: the rights-carrying messages together, in order, hold exactly those descriptors |
| `Transport.Connection.ReceiveFrame` | app/packages/ipc/src/radium226/vpn_passthrough/ipc/transport.py:108-142 | one call consumes the head of what the connection delivers over its whole life, or says why there is none, and never lets the buffer exceed the peak of the run |
| `Transport.Connection.ReceiveAll` | app/packages/ipc/src/radium226/vpn_passthrough/ipc/transport.py:144-149 | the iterator yields all frames delivered, in order, and ends as the delivery ends |
| `Stream.DeliverRefinesSplit` | app/packages/ipc/src/radium226/vpn_passthrough/ipc/transport.py:108-134 | for every chunking the frames are those of the undivided stream cut at its delimiters, and nothing within the limit is rejected |
| `Stream.BatchGoesToOpenFrame` | app/packages/ipc/src/radium226/vpn_passthrough/ipc/transport.py:108-142 | for every chunking a descriptor batch goes to the frame whose number is the count of delimiters in the chunks before its own |
| `Stream.LeftOverIsTheOpenFrames` | app/packages/ipc/src/radium226/vpn_passthrough/ipc/transport.py:108-142 | descriptors that no completed frame has received are those of the frame still open, for every chunking |
| `Stream.DeliveryEndsWithThePeer` | app/packages/ipc/src/radium226/vpn_passthrough/ipc/transport.py:118-134 | unless the limit is exceeded, receiving ends exactly when there is a reset or an empty read before the socket falls quiet, and otherwise waits on |
| `Stream.StreamRoundTrip` | app/packages/ipc/src/radium226/vpn_passthrough/ipc/transport.py:26-34 | every list of delimiter-free payloads within the limit is read back, in order, and a prefix of the next one stays buffered |
| `Stream.BufferStaysBounded` | app/packages/ipc/src/radium226/vpn_passthrough/ipc/transport.py:112-134 | over any run of reads of at most 4096 bytes the buffer never exceeds the limit by more than one read, no accepted payload exceeds it by a read, and an overflow is reported exactly when the buffer is over the limit |
| `Stream.PayloadsArrive` | app/packages/ipc/src/radium226/vpn_passthrough/ipc/transport.py:93-142 | frames sent one after the other, cut in any way on the wire, arrive with all their payloads in order |
| `Stream.FramesArriveIffAligned` | app/packages/ipc/src/radium226/vpn_passthrough/ipc/transport.py:93-142 | and each frame arrives with precisely its own descriptors if and only if no chunk holds a delimiter ahead of a descriptor-bearing byte |
| `Stream.SendInTurn` | app/packages/ipc/src/radium226/vpn_passthrough/ipc/transport.py:100-106 | a list of sends, each begun when the one before has returned, puts on the wire the whole frames of those that return and part of the one that does not |
| `Stream.SerialSendsArrive` | app/packages/ipc/src/radium226/vpn_passthrough/ipc/transport.py:93-142 | for any list of sends in turn, any schedules of partial writes and any reads: the payloads of the finished sends arrive, in order, and the frames with precisely their own descriptors if and only if the reads are aligned |
| `Protocol.FlattenEventTypes` | app/packages/ipc/src/radium226/vpn_passthrough/ipc/client.py:13-25 | the recursive accumulation computes the flattening of a nested union, without `Never` and non-classes |
| `Protocol.InstanceIffLeaf` | app/packages/ipc/src/radium226/vpn_passthrough/ipc/protocol.py:66-97 | for types built of classes and unions the check never raises and accepts exactly the subclasses of the classes named at any depth |
| `Protocol.UnionTakesFirst` | app/packages/ipc/src/radium226/vpn_passthrough/ipc/protocol.py:76-97 | any union is decided by its first member whose check does not say no: it accepts if that one does, and raises if that one does; it refuses if all do |
| `Protocol.SubclassIffLineage` | app/packages/ipc/src/radium226/vpn_passthrough/ipc/protocol.py:76-97 | a class is a subclass of another exactly if a chain of bases leads from it to that one |
| `Protocol.DeclaredDecides` | app/packages/ipc/src/radium226/vpn_passthrough/ipc/protocol.py:66-97 | responses are checked against the declared response type, events against the event type, nothing passes undeclared, and events are routed by the classes of the event type |
| `Protocol.InstanceOfFlattened` | app/packages/ipc/src/radium226/vpn_passthrough/ipc/protocol.py:83-97 | what passes the event check is an instance of one of the flattened classes |
| `Protocol.FlattenedAreLeaves` | app/packages/ipc/src/radium226/vpn_passthrough/ipc/client.py:13-25 | the flattened classes are exactly those that the type names |
| `Protocol.FlattenJoins` | app/packages/ipc/src/radium226/vpn_passthrough/ipc/client.py:13-25 | in the order of the members of the union |
| `Client.Client.RegisterEventRouting` | app/packages/ipc/src/radium226/vpn_passthrough/ipc/client.py:50-56 | a request's id is appended to the entry of each of its event classes, nothing else changes |
| `Client.Client.UnregisterEventRouting` | app/packages/ipc/src/radium226/vpn_passthrough/ipc/client.py:58-67 | the id is filtered out of those entries, and emptied entries are deleted |
| `Client.Client.EnterRequest` | app/packages/ipc/src/radium226/vpn_passthrough/ipc/client.py:82-83 | the table step of `request` before it sends |
| `Client.Client.LeaveRequest` | app/packages/ipc/src/radium226/vpn_passthrough/ipc/client.py:87-88 | the table step of its `finally` |
| `Client.Client.PopPending` | app/packages/ipc/src/radium226/vpn_passthrough/ipc/client.py:97 | pops the entry of that id, if there is one, and nothing else |
| `Client.Client.RouteEvent` | app/packages/ipc/src/radium226/vpn_passthrough/ipc/client.py:109-118 | the callbacks an event leads to: through the index entry, to the ids still pending, in order, up to the first that raises |
| `EventIndex.StepKeeps` | app/packages/ipc/src/radium226/vpn_passthrough/ipc/client.py:50-68 | each await-free step keeps the index a faithful copy of what a scan of the live requests would find |
| `EventIndex.RunRefines` | app/packages/ipc/src/radium226/vpn_passthrough/ipc/client.py:70-116 | so does every run with fresh ids |
| `EventIndex.ReceiversAreTheNaiveScan` | app/packages/ipc/src/radium226/vpn_passthrough/ipc/client.py:109-116 | in every reachable state the receivers looked up through the index are those of the naive scan of pending requests still inside `request`, in the same order; no entry is ever empty |
| `EventIndex.ReceiversAreExactlyTheDeclarers` | app/packages/ipc/src/radium226/vpn_passthrough/ipc/client.py:109-116 | without duplicates, and exactly the pending requests that declare the class |
| `Server.Server.Disconnect` | app/packages/ipc/src/radium226/vpn_passthrough/ipc/server.py:80-82 | it leaves the list, if it is still in it |
| `Server.RemoveUndoesAppend` | app/packages/ipc/src/radium226/vpn_passthrough/ipc/server.py:27-82 | leaving undoes joining |
| `Server.RemoveTakesFirst` | app/packages/ipc/src/radium226/vpn_passthrough/ipc/server.py:81-82 | leaving takes out the first occurrence and nothing else |
| `Server.HandlingsAreTheRequests` | app/packages/ipc/src/radium226/vpn_passthrough/ipc/server.py:31-79 | every request frame is handled with its own descriptors, after those ahead of it, whatever undecodable or other frames there are, and nothing else is |
| `Server.Server.HandleFrames` | app/packages/ipc/src/radium226/vpn_passthrough/ipc/server.py:31-79 | every decodable request is handled, in frame order, and nothing else; a frame that cannot be decoded does not end the loop |
| `Server.Server.HandleRequest` | app/packages/ipc/src/radium226/vpn_passthrough/ipc/server.py:43-74 | what is sent for one request is what the exchange model sends for that conduct of its handler; the events that pass the check, then one reply with the request's own id; a connection is closed without that reply exactly when a failure cannot be encoded |
| `Server.Server.Aclose` | app/packages/ipc/src/radium226/vpn_passthrough/ipc/server.py:94-98 | every connection is closed once and the list emptied |
| `Exchange.ReplyTo` | app/packages/ipc/src/radium226/vpn_passthrough/ipc/server.py:53-72 | one reply, with the request's own id, whatever the handler does |
| `Exchange.StepConserves` | app/packages/ipc/src/radium226/vpn_passthrough/ipc/server.py:43-76 | every step keeps each issued request in exactly one place: under way, with its handler, on its way back, ended or stuck |
| `Exchange.ClientCheckNeverFails` | app/packages/ipc/src/radium226/vpn_passthrough/ipc/client.py:96-108 | a reply always finds its entry, and the client's second type check never rejects what the server let through |
| `Exchange.RequestsEndAsEarned` | app/packages/ipc/src/radium226/vpn_passthrough/ipc/client.py:95-108 | over every run a request ends at most once, with a result exactly when its handler returned a plain response of the declared type, else with the failure error |
| `Exchange.StuckIffCallbackRaised` | app/packages/ipc/src/radium226/vpn_passthrough/ipc/client.py:95-118 | over every run a request is left without an answer exactly when its own response callback raised |
| `Exchange.EveryRequestEndsExactlyOnce` | app/packages/ipc/src/radium226/vpn_passthrough/ipc/client.py:70-118 | with empty wires and no handler running, every request issued has ended exactly once, except those whose own response callback raised in the run |
| `ExchangeEvents.ReceiversDeclare` | app/packages/ipc/src/radium226/vpn_passthrough/ipc/client.py:109-116 | the requests looked up for an event are, once each, exactly the pending ones that declare its class |
| `ExchangeEvents.SoleDeclarerReceives` | app/packages/ipc/src/radium226/vpn_passthrough/ipc/client.py:109-116 | if only one pending request declares the class, it alone receives the event |
| `ExchangeEvents.EventsComeBeforeTheResponse` | app/packages/ipc/src/radium226/vpn_passthrough/ipc/client.py:109-118 | by the time a request ends its callback has been called with every declared event its handler emitted while running, once each and in order, if and only if no callback of a receiver ahead of it has raised for one of them; otherwise exactly those are missing |
| `ExchangeEvents.EventsReachTheirDeclarers` | app/packages/ipc/src/radium226/vpn_passthrough/ipc/client.py:109-118 | over every run the next event is offered to exactly the declarers, in order, up to the first callback that raises; its own request is called if and only if it declares that very class and is not behind that callback |
| `MissedEvents.EarlierCallbackCostsTheEvent` | app/packages/ipc/src/radium226/vpn_passthrough/ipc/client.py:109-118 | a run in which a request ends without its own event because the callback of another raised |
| `MissedEvents.SubclassEventReachesNobody` | app/packages/ipc/src/radium226/vpn_passthrough/ipc/client.py:109-110 | a run in which an event of a subclass passes the server's check and is offered to nobody |
| `Ownership.RegisterNeverOverwrites` | app/packages/server/src/radium226/vpn_passthrough/server/service.py:255-256 | however setups of one name overlap, registering never overwrites a registered stack |
| `Ownership.StepKeeps` | app/packages/server/src/radium226/vpn_passthrough/server/service.py:190-260 | every await-free segment of setup, rebind and destroy keeps the ownership invariant, whatever fails |
| `Holdings.CompleteSetupHoldsWhatWasAsked` | app/packages/server/src/radium226/vpn_passthrough/server/service.py:195-221 | over every run, a setup that can be registered holds one namespace, one link, which is its name's, one share, one forward and one DNS server, a session exactly with a VPN, a kill switch exactly if one is wanted with a VPN whose session reports its server, above the DNS server and below the leases, and one lease per port asked for |
| `Holdings.RegisteredHoldsWhatWasAsked` | app/packages/server/src/radium226/vpn_passthrough/server/service.py:195-256 | over every run, that is what the stack of a registered tunnel holds for as long as it is registered, but for more leases on top |
| `Ownership.EveryResourceHasOneOwner` | app/packages/server/src/radium226/vpn_passthrough/server/service.py:190-260 | over every interleaving each held resource is at one place of one stack, and each stack has at most one owner: an in-flight setup, the registry, or an in-flight teardown |
| `Ownership.RegistriesAgree` | app/packages/server/src/radium226/vpn_passthrough/server/service.py:255-256 | at every await `namespaces` and `exit_stacks` have the same keys, no stack under two names |
| `Ownership.IdleHoldsOnlyLateLeases` | app/packages/server/src/radium226/vpn_passthrough/server/service.py:588-627 | with nothing registered or in flight no link or other resource of a setup is held, at most port leases |
| `Ownership.IdleHoldsNothingIffNoLateLease` | app/packages/server/src/radium226/vpn_passthrough/server/service.py:500-503 | and nothing at all is held if and only if no rebind of the run has leased into a stack whose teardown was over |
| `Ownership.ReleasesAreLastInFirstOut` | app/packages/server/src/radium226/vpn_passthrough/server/network_interfaces.py:61-80 | each release is that of the newest resource of its stack; the link that goes is the one this stack created |
| `Ownership.OneTunnelPerLink` | app/packages/server/src/radium226/vpn_passthrough/server/service.py:196-214 | over every run a share, port forward or kill switch is held only while the link it works on exists and lies below it on the same stack, and one link never carries those of two tunnels |
| `Ownership.ReleasedForGood` | app/packages/server/src/radium226/vpn_passthrough/server/service.py:619-621 | nothing is released twice |
| `Rebinding.RegisteredTunnelsHaveContexts` | app/packages/server/src/radium226/vpn_passthrough/server/service.py:134-153 | if setups of one name never overlap, every registered tunnel has a context |
| `Rebinding.ContextMissingIffSetupFailed` | app/packages/server/src/radium226/vpn_passthrough/server/service.py:229-260 | over every run, overlapping setups included: a registered tunnel is without its context if and only if another setup of its name has failed since the context was last written, by its registration or by the end of a rebind round |
| `Rebinding.LosingSetupMustFail` | app/packages/server/src/radium226/vpn_passthrough/server/network_interfaces.py:61 | and such a setup cannot but fail: over every run, a setup whose name is registered is never past its link, and fails when it comes to it |
| `Leasing.LeasesAreConserved` | app/packages/server/src/radium226/vpn_passthrough/server/service.py:494-515 | for tunnels of both handlers: after k rounds the stack of a registered tunnel holds one lease per requested name plus k times one per distinct name, and the context differs in its port numbers only |
| `Leasing.RoundsCountRewrites` | app/packages/server/src/radium226/vpn_passthrough/server/service.py:500-515 | k counts exactly the rounds completed, and no step changes what was requested |
| `Leasing.NextLeaseOk` | app/packages/server/src/radium226/vpn_passthrough/server/service.py:500-515 | one lease more, or the end of a round, keeps names, targets and the lease count in step |
| `Filing.RegisteredWithGrantedPorts` | app/packages/server/src/radium226/vpn_passthrough/server/service.py:218-256 | over every run, a tunnel is registered with the port that was granted for each name, the last one for a name asked for twice; it can forward ports only with a VPN; and it gets a rebind task exactly if one was asked for, on record exactly if listed |
| `Filing.RoundWritesGrantedPorts` | app/packages/server/src/radium226/vpn_passthrough/server/service.py:500-515 | over every run, the lease that completes a rebind round writes the context the round began with, with the port granted in this round under each of its names |
| `Filing.WakesInOneOfFourWays` | app/packages/server/src/radium226/vpn_passthrough/server/service.py:497-503 | a rebind is over when its tunnel has no context or no VPN, dies when there is no stack to lease into, completes at once without names, and leases into the registered stack otherwise |
| `Filing.GoesOnWithEachLease` | app/packages/server/src/radium226/vpn_passthrough/server/service.py:500-515 | a failed lease takes nothing and kills the rebind, as does a missing stack for the next one; otherwise the lease lies on the stack and the round goes on to the next name or is complete |
| `Filing.DistinctNamesAreInOrder` | app/packages/server/src/radium226/vpn_passthrough/server/service.py:218-221 | the names of a context are distinct and in the order in which they are first asked for |
| `Leasing.DestroyReleasesEveryLease` | app/packages/server/src/radium226/vpn_passthrough/server/service.py:588-621 | tunnel by tunnel: once the teardown of a tunnel from `handle_create_tunnel` is over, every lease of every round has been given back |
| `Leasing.LateLeasesAreOfStartedTunnels` | app/packages/server/src/radium226/vpn_passthrough/server/service.py:564-576 | only the rebind of a tunnel from `handle_start_tunnel` ever leases after the teardown of its stack, and only into that stack |
| `Leasing.DestroyComesToNothingIffRebindFailed` | app/packages/server/src/radium226/vpn_passthrough/server/service.py:593-599 | a destroy of a registered tunnel comes to nothing exactly when its recorded rebind task has died of an exception |
| `Leasing.DestroyTakesOut` | app/packages/server/src/radium226/vpn_passthrough/server/service.py:588-621 | any other destroy of a registered tunnel takes the name out of both registries, its context with it, and hands its stack to a closing task: at once with nothing to await, and otherwise when it is resumed and not before |
| `Leasing.ContextsAreTheRegistered` | app/packages/server/src/radium226/vpn_passthrough/server/service.py:609-621 | when calls on one name do not overlap, every registered tunnel has a context, and of the names never registered by `handle_start_tunnel` only those |
| `TunnelRuns.LateLeaseStaysHeld` | app/packages/server/src/radium226/vpn_passthrough/server/service.py:564-580 | the start path is different: a run after which nothing is registered or in flight, and a lease is held |
| `TunnelRuns.FailedRebindStopsDestroy` | app/packages/server/src/radium226/vpn_passthrough/server/service.py:593-599 | a run in which a lease fails and the destroy that follows leaves the tunnel registered |
| `TunnelRuns.LosingSetupTakesTheContext` | app/packages/server/src/radium226/vpn_passthrough/server/service.py:257-260 | a run after which a tunnel is registered that has no context |
| `Shutdown.SignalResolvesExactlyTheWaiters` | app/packages/server/src/radium226/vpn_passthrough/server/service.py:520-522 | a completed round resolves every waiter registered at that instant, no other future, and none twice over a run |
| `Shutdown.SignalledRunIsRestarted` | app/packages/server/src/radium226/vpn_passthrough/server/service.py:427-437 | a waiting run whose future is done is restarted, also when its process has exited meanwhile, by the same request and with the old process off the record |
| `Shutdown.ExitedRunEnds` | app/packages/server/src/radium226/vpn_passthrough/server/service.py:438-455 | one whose future is not done ends with its process, and leaves neither record nor waiter behind |
| `Shutdown.NoRestartAfterDestroyBegins` | app/packages/server/src/radium226/vpn_passthrough/server/service.py:417-442 | a run not signalled when a destroy of its tunnel begins is never restarted by a later rebind |
| `Shutdown.NoSpawnForRequestsDuringDestroy` | app/packages/server/src/radium226/vpn_passthrough/server/service.py:281-288 | with one destroy per name in flight, no process is ever spawned for a request that came in during one |
| `Shutdown.TurnedAwayIffDestroying` | app/packages/server/src/radium226/vpn_passthrough/server/service.py:281-288 | a run request is turned away exactly while a destroy of its tunnel is in flight |
| `Shutdown.WaitingDestroyOutlivesItsProcesses` | app/packages/server/src/radium226/vpn_passthrough/server/service.py:588-621 | with `wait` the stack starts closing only after every process recorded active at the start has exited; any process of the tunnel still alive then was spawned later, left behind by an earlier destroy, being killed for a rebind, or never recorded |
| `Shutdown.LateSpawnIsNotAwaited` | app/packages/server/src/radium226/vpn_passthrough/server/service.py:387-406 | that exception happens: while a waiting destroy awaits one process, a request let in before spawns another, which is not awaited |
| `Renewal.OldPortsKeptIffRoundMissed` | app/packages/server/src/radium226/vpn_passthrough/server/service.py:314-427 | once a round's ports are published and its signal is out, a waiting run keeps old ports if and only if all of that fell between the rendering of its command and its joining the waiters; otherwise it has the new ports or is about to be restarted |
| `Renewal.SignalReachesAllWaiting` | app/packages/server/src/radium226/vpn_passthrough/server/service.py:504-522 | right after a signal no run that waits for it keeps old ports |
| `Renewal.RoundMissed` | app/packages/server/src/radium226/vpn_passthrough/server/service.py:314-420 | a run from the start in which a process keeps old ports |
| `Starts.EntryOutlivesHandlerIffItRaised` | app/packages/server/src/radium226/vpn_passthrough/server/service.py:559-579 | an entry in the table of stop signals, or of emit functions, has outlived its handler if and only if that handler re-raised what its rebind task died of |
| `Starts.DestroyReleasesIffNotDisplaced` | app/packages/server/src/radium226/vpn_passthrough/server/service.py:559-617 | over every run a destroy lets the waiting handler of its started tunnel return if and only if, since that handler entered, no other of the name has entered and none of the name has ended without raising |
| `Starts.RaisingLeavesEntries` | app/packages/server/src/radium226/vpn_passthrough/server/service.py:569-579 | a run that leaves both entries behind |
| `Starts.FormerHandlerTakesEntry` | app/packages/server/src/radium226/vpn_passthrough/server/service.py:569-579 | a run in which a handler that ends late takes the next one's entry, so that the next destroy lets nobody go |
| `Supervision.AtMostOneAlive` | app/packages/server/src/radium226/vpn_passthrough/server/service.py:385-437 | at every moment of a run request's log at most one child is alive |
| `Supervision.KillsAreTheRebinds` | app/packages/server/src/radium226/vpn_passthrough/server/service.py:385-437 | in the log of any ended call the kills are, in order and one each, the processes whose iteration ended in a rebind and that could be killed, by the signal of the request or 15; none that exited by itself |
| `Supervision.KilledWhileAnnounced` | app/packages/server/src/radium226/vpn_passthrough/server/service.py:409-437 | a kill comes after the notice about its process and before that process is reaped |
| `Supervision.NoticesAndPayloads` | app/packages/server/src/radium226/vpn_passthrough/server/service.py:314-415 | every announced process has its notice, a start first and then restarts with the ports of the context its command was rendered from; the configure script has run before each process that has one, with the same ports, as the first time before the first only |
| `Supervision.OutcomeIsDue` | app/packages/server/src/radium226/vpn_passthrough/server/service.py:327-458 | a call that returns does so because its last process exited with that code, or because the template failed, the script failed or there is no such command |
| `Supervision.OpenAtEverySpawn` | app/packages/server/src/radium226/vpn_passthrough/server/service.py:387-403 | no descriptor is closed ahead of a spawn |
| `Supervision.CloseParents` | app/packages/server/src/radium226/vpn_passthrough/server/linux.py:200-205 | each namespace descriptor is closed once |
| `Supervision.CloseStandard` | app/packages/server/src/radium226/vpn_passthrough/server/service.py:451-455 | each passed descriptor is closed once |
| `Service.Service.SpawnChild` | app/packages/server/src/radium226/vpn_passthrough/server/service.py:314-403 | render, configure, spawn: the ways to end without a process, with their exit codes, and all descriptors closed once |
| `Service.Service.RecordChild` | app/packages/server/src/radium226/vpn_passthrough/server/service.py:405-406 | the child is entered in both tables, or the popped table is a `KeyError` |
| `Service.Service.AnnounceChild` | app/packages/server/src/radium226/vpn_passthrough/server/service.py:405-415 | first a start notice, then restart notices with the ports the command was rendered from |
| `Service.Service.FinishChild` | app/packages/server/src/radium226/vpn_passthrough/server/service.py:447-458 | an exit ends the call: child in neither table, descriptors closed once, its exit code returned |
| `Service.Service.StopChild` | app/packages/server/src/radium226/vpn_passthrough/server/service.py:429-437 | a rebind removes the child from both tables and kills it, with the request's signal and exactly if it can be killed, and reaps it |
| `Service.Service.HandleRunProcess` | app/packages/server/src/radium226/vpn_passthrough/server/service.py:263-458 | for every sequence of outcomes a call that returns has sent one notice per spawn, spawn i with restart count i, leaves no child alive or on record and has closed every descriptor exactly once; every call has killed exactly the announced processes that a rebind ended; it raises only for a reason: not ready to begin, a spawn that fails, a table taken away, a notice or a kill that fails; and one that does not return has closed none |
| `Service.Service.BeginSetup` | app/packages/server/src/radium226/vpn_passthrough/server/service.py:190-193 | an existing name is refused; otherwise the registry step and a new set of waiters |
| `Service.Service.FinishSetup` | app/packages/server/src/radium226/vpn_passthrough/server/service.py:229-256 | the registry step that publishes a tunnel, and its context |
| `Service.Service.AbandonSetup` | app/packages/server/src/radium226/vpn_passthrough/server/service.py:257-260 | the registry step of a failed setup, and the context popped |
| `Service.Service.BeginDestroy` | app/packages/server/src/radium226/vpn_passthrough/server/service.py:588-594 | the first segment of a destroy: run requests are turned away, the waiters are cut off, and the processes to await are taken, as in the interleaving model |
| `Service.Service.TakeOut` | app/packages/server/src/radium226/vpn_passthrough/server/service.py:609-621 | the registry step that unpublishes a tunnel and hands over its stack, and the step that lets the handler filed under its name go |
| `Service.Service.EnterStart` | app/packages/server/src/radium226/vpn_passthrough/server/service.py:559-562 | the step by which the handler of a started tunnel files its emit function and its future |
| `Service.Service.LeaveStart` | app/packages/server/src/radium226/vpn_passthrough/server/service.py:569-580 | the step that ends it: the entries cleared, or an exception before that |
| `Service.Service.SignalWaiters` | app/packages/server/src/radium226/vpn_passthrough/server/service.py:520-522 | the loop over the waiters computes the signal step |
| `Service.Service.RenewPorts` | app/packages/server/src/radium226/vpn_passthrough/server/service.py:500-503 | the loop over the names computes the ports of the round |
| `Service.RenewedPorts` | app/packages/server/src/radium226/vpn_passthrough/server/service.py:500-503 | a round keeps the set of names, fails if any lease does, and files each lease under its name |
| `Service.Service.RebindRound` | app/packages/server/src/radium226/vpn_passthrough/server/service.py:497-522 | one round undisturbed at its awaits: the context with new ports and the waiters signalled, or no change when a lease fails or the stack is missing |
| `Service.Service.CurrentTunnels` | app/packages/server/src/radium226/vpn_passthrough/server/service.py:134-153 | lists exactly the registered names, each once |
| `Service.EveryTunnelIsListedOnceAndConnected` | app/packages/server/src/radium226/vpn_passthrough/server/service.py:134-153 | if setups of one name never overlap, every registered tunnel is listed once, as connected, with its ports and its recorded processes |
| `Firewall.OrderIrrelevant` | app/packages/server/src/radium226/vpn_passthrough/server/internet.py:102-106 | `accept` ends its own chain only and `drop` is final, so the order of the chains does not matter |
| `Firewall.AnyCompleteOrderDecides` | app/packages/server/src/radium226/vpn_passthrough/server/internet.py:102-106 | a packet passes exactly when no chain drops it |
| `Firewall.IdentsCollideIffDashed` | app/packages/server/src/radium226/vpn_passthrough/server/internet.py:18-24 | two valid tunnel names share an nftables table exactly when they differ at most in dashes against underscores |
| `Firewall.GuardDropsExactly` | app/packages/server/src/radium226/vpn_passthrough/server/kill_switch.py:25-35 | the kill switch's chain drops exactly what enters from the veth for neither server nor extra route |
| `KillSwitch.TableFollowsFirstSwitch` | app/packages/server/src/radium226/vpn_passthrough/server/kill_switch.py:20-54 | over every run, whatever fails: a veth has a table exactly if rules have been loaded since the last deletion that succeeded, and that table drops exactly what enters from the veth for neither server nor routes of the switch loaded first |
| `KillSwitch.PromiseKeptIffFirstWithin` | app/packages/server/src/radium226/vpn_passthrough/server/kill_switch.py:20-54 | an active switch drops all that it should if and only if the switch loaded first into its table allows no address that it does not allow itself |
| `KillSwitch.SwitchFindsTableAbsent` | app/packages/server/src/radium226/vpn_passthrough/server/kill_switch.py:36-47 | a switch is the only one loaded into its table if and only if it found that table absent |
| `KillSwitch.KillSwitchHolds` | app/packages/server/src/radium226/vpn_passthrough/server/kill_switch.py:20-54 | in every such run, a switch whose own table was absent when it was activated keeps its promise from entry to exit, whatever other chains accept, and its chain drops nothing else |
| `FilterRun.LeftTableLetsThrough` | app/packages/server/src/radium226/vpn_passthrough/server/kill_switch.py:49-52 | a run in which a table is not deleted, and the next switch of that veth lets through what it should drop and drops its own server |
| `Sharing.ChainRestoredIffNothingLeftBehind` | app/packages/server/src/radium226/vpn_passthrough/server/internet.py:58-121 | once all shares have ended a host chain is the original if and only if the run has no unreported insertion into it, no failed deletion from it and no share that failed with a rule in it |
| `FilterRun.UnreportedRuleStays` | app/packages/server/src/radium226/vpn_passthrough/server/internet.py:73-79 | a run in which every share ends well and an unreported rule stays |
| `Sharing.ShareTablesAreTheInstalled` | app/packages/server/src/radium226/vpn_passthrough/server/internet.py:86-121 | over every run, whatever fails, the table of a share exists exactly if it has been installed since it was last deleted, which a share does when it ends and not when it fails on its way |
| `Sharing.TidyRunRestoresTheFilter` | app/packages/server/src/radium226/vpn_passthrough/server/internet.py:107-121 | when nothing goes wrong the whole filter is restored, in whatever order shares and switches were opened and closed |
| `Sharing.DeletionHitsOnlyItsOwnRule` | app/packages/server/src/radium226/vpn_passthrough/server/internet.py:119-120 | deletion by handle removes the share's own rule, never another's |
| `Sharing.ShareLeavesOthersAlone` | app/packages/server/src/radium226/vpn_passthrough/server/internet.py:85-121 | at every command of a share, a packet that does not touch its veth keeps its verdict |
| `Sharing.OpenShareIsNotDropped` | app/packages/server/src/radium226/vpn_passthrough/server/internet.py:107-114 | an open share has opened every drop-policy chain it found, in each direction whose insertion was not missed, and keeps it open |
| `Sharing.OnlyListedChainsBlock` | app/packages/server/src/radium226/vpn_passthrough/server/internet.py:102-106 | those chains are the right ones: a packet that no rule drops outright gets through if and only if each of them lets it through |
| `Sharing.SharesAimAtDropChains` | app/packages/server/src/radium226/vpn_passthrough/server/internet.py:48-55 | over every run shares insert into chains with hook forward and policy drop only, never into a table of their own or of a kill switch |
| `Internet.Nft.ListForwardChains` | app/packages/server/src/radium226/vpn_passthrough/server/internet.py:27-55 | finds exactly the chains with hook forward and policy drop |
| `Internet.Nft.TryInsertHostForwardRule` | app/packages/server/src/radium226/vpn_passthrough/server/internet.py:58-79 | inserts at the head of the chain; the handle is known only if the echo reports it |
| `Internet.Nft.InsertForwardRules` | app/packages/server/src/radium226/vpn_passthrough/server/internet.py:109-114 | the double loop is the row of single insertions of the interleaving model |
| `Internet.Nft.DeleteRules` | app/packages/server/src/radium226/vpn_passthrough/server/internet.py:119-120 | the loop is the row of single deletions |
| `Internet.Nft.SwitchRules` | app/packages/server/src/radium226/vpn_passthrough/server/kill_switch.py:20-35 | accept for the server, accept per extra route, then drop |
| `Internet.Nft.ActivateKillSwitch` | app/packages/server/src/radium226/vpn_passthrough/server/kill_switch.py:36-47 | installs that chain, with policy accept |
| `Addresses.InsideIsCanonical` | app/packages/server/src/radium226/vpn_passthrough/server/network_interfaces.py:36-38 | an address lies in a network exactly when its own canonical network is that one |
| `Addresses.ChosenAddressesFit` | app/packages/server/src/radium226/vpn_passthrough/server/network_interfaces.py:46-51 | for every CIDR with prefix 0..31, host bits set or not, the peer gets the least host address of that network and the veth the least one above it, and `subnet` is the network; a /32 raises |
| `Addresses.HashedPathIsThatOfItsNetwork` | app/packages/server/src/radium226/vpn_passthrough/server/network_interfaces.py:43-54 | without a CIDR the ends are 10.200.slot.2 and 10.200.slot.1, which is what 10.200.slot.0/24 would have given, and the slot counts the digest round from 1 to 254 |
| `Addresses.SlotsAreDisjoint` | app/packages/server/src/radium226/vpn_passthrough/server/network_interfaces.py:43-59 | slots in 1..254, interface names within 15 characters that spell their slot, and disjoint /24s for different slots |
| `Addresses.Links.Add` | app/packages/server/src/radium226/vpn_passthrough/server/network_interfaces.py:61-80 | a call that fails leaves the host's links as they were; it never deletes a link it did not create |
| `OpenVpnPipe.UpScript` | app/packages/pia/src/radium226/vpn_passthrough/pia/_openvpn.py:60-75 | what the script writes |
| `OpenVpnPipe.PrintOptions` | app/packages/pia/src/radium226/vpn_passthrough/pia/_openvpn.py:64-72 | its loop, up to the first unset option |
| `OpenVpnPipe.ReadConnectionInfo` | app/packages/pia/src/radium226/vpn_passthrough/pia/_openvpn.py:131-143 | what the reader makes of a stream |
| `OpenVpnPipe.DnsValuesAreTheDnsOptions` | app/packages/pia/src/radium226/vpn_passthrough/pia/_openvpn.py:65-72 | the values written are those of the DNS options before the first unset one, in order and each as often as it occurs |
| `OpenVpnPipe.ReaderUndoesScript` | app/packages/pia/src/radium226/vpn_passthrough/pia/_openvpn.py:60-143 | for single-line values the reader sees what the script was given, stripped, up to the first blank value |
| `OpenVpnPipe.DnsSurvivesIffClean` | app/packages/pia/src/radium226/vpn_passthrough/pia/_openvpn.py:137-142 | the parsed list is exactly the list of DNS values if and only if each is non-empty, trimmed and a single line |
| `OpenVpnPipe.UsableDnsIsNeverEmpty` | app/packages/pia/src/radium226/vpn_passthrough/pia/_openvpn.py:132-162 | for any stream, even one cut short: an error exactly when it is empty, else a DNS list that is never empty: without any, the gateway, which stands on the first line |

## Left out

- Real sockets, the event loop, subprocesses, `nft`, `ip`, `openvpn`, `setns`, `prctl` and signals: their outcomes are parameters of steps and methods.
- JSON and pydantic (an encode/decode pair assumed inverse) and the templates (an arbitrary partial function of the context).
- Command line, listings as tables, PTY proxying, systemd notification, YAML configuration, PIA's HTTP calls, tokens and signatures.
- The DNS leak guard, which no setup activates; the MD5 of a tunnel name, which is any number; races on the files of a namespace.
- Truncated control messages, and the decoding of control data into 32-bit integers: a batch arrives whole.
- Cancellation of a handler in the middle of an await-free segment, and what a notification does (`_notify_tunnel_updated`).
- A client closing while callbacks are suspended: one frame is processed in one step.
- A connection that breaks: its pending requests fail with a connection error; the exchange follows a connection that survives.
- The capability masks and cgroup lines of `linux.py`, and forwarding from the peer interface to loopback beyond being one resource: small and isolated.
- Leasing.DestroyReleasesEveryLease: speaks of tunnels of `handle_create_tunnel` only, because the rebind of a started tunnel may lease after the teardown (`TunnelRuns.LateLeaseStaysHeld`); `Ownership.IdleHoldsNothingIffNoLateLease` is exact for all.
- Service.Service.RebindRound: has no awaits inside; what happens at them is in `Tunnels.LeaseNext` and the theorems of `Leasing`.
- Service.Service.CurrentTunnels: does not model the insertion order of the dictionary; the listing is in some order.
- Service.Service.SignalWaiters: goes through the waiters in any order, as a set does.
- Service.Service.HandleRunProcess: on a path that raises no descriptor has been closed, and a process just spawned may be left alive, as in the source.
- OpenVpnPipe.ReaderUndoesScript: takes the gateway and the tunnel address to be single lines, and blanks up to U+00A0; lines longer than the reader's limit are not modelled.
- KillSwitch.KillSwitchHolds: speaks of packets by interfaces and IPv4 destination; connection tracking and packets that are not forwarded are outside.
