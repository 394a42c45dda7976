# A verified model of a BGP peer

This project models the logic of a Go library that speaks BGP: the message codec and the
stream reader, the UPDATE decoder with its three error severities, the finite state machine
of one connection, and the peer that supervises an outgoing and an incoming state machine,
resolves connection collisions and damps a misbehaving neighbour. It proves what the
library promises about them, and where the code does not keep a promise, exactly when it
does.

## How the model is built

- **Codec and framing** (`Bytes`, `Notification`, `Packet`, `PacketProofs`, `PacketLoops`,
  `Framing`, `PacketMeaning`). Wire formats are functions; the loops of the program are
  methods proved to compute them; `PacketMeaning` says in octets and numbers what is sent,
  which OPENs are accepted and with which NOTIFICATION the others are refused. Go's truncating conversions and the slice expressions that would panic are
  written out (`ToU8`, `ToU16`, `Outcome.Panic`).
- **UPDATE decoding** (`UpdateErrors`, `AttrsBitmap`, `PathAttrs`, `PathAttrsProofs`,
  `UpdateDecoder`, `UpdateMeaning`, `Prefixes`, `AsPath`). The plugin's callbacks are an
  arbitrary function of everything delivered so far, so they may share state. Errors are
  trees; `UpdateMeaning` says which errors a body leads to and which bodies lead to none.
- **The state machine** (`Fsm`, `FsmProofs`, `FsmMeaning`, `FsmTimers`, `FsmObject`). One FSM goroutine is a
  transition system: a step is what the goroutine does between two points at which it may
  block. Which branch of a `select` is taken, what the network delivers, whether a write
  succeeds and what the plugin answers are parameters of the step. A state function that
  would dereference a missing timer, connection, reader or dial channel goes to `Panicked`;
  a receive that can never complete goes to `Blocked`. `FsmObject.Machine` is the same
  goroutine as an object with fields that are assigned; each of its methods is proved to
  take the transition system's step.
- **The peer** (`Peer`, `PeerInvariant`, `PeerSafety`, `PeerSessions`, `PeerCollision`,
  `PeerSurvivor`, `PeerDamping`, `PeerWire`, `PeerHold`, `PeerAlive`, `PeerShutdown`,
  `PeerProgress`, `PeerTheorems`, `PeerAliveRuns`, `PeerRuns`, `PeerReach`,
  `PeerCollisionRuns`, `PeerObject`). The peer
  goroutine and all FSM goroutines it ever started form one transition system: a
  rendezvous on an unbuffered channel is a joint action, a `select` is a choice between
  enabled actions, and a run is any sequence of enabled actions from the initial state.
  FSM objects live in a heap and the peer's slots refer to them, so which channel a
  goroutine addresses is computed as in the program. `PeerObject.Supervisor` is the peer
  as an object that holds FSM objects; whatever schedule drives it, it goes through a run.
- **Two peers** (`Handshake`, `PeerPair`). Both ends of a peering exchange OPENs over the
  wire, and both deal with a collision.

Durations are in nanoseconds, hold times in whole seconds (the option takes whole seconds,
and an OPEN carries them so). Time, the network, the plugin and the scheduler are inputs.

## Where the code departs from its documentation

Each of these is stated as an exact condition, with the failing inputs or runs.

- A hold time of zero is documented as allowed, but the keepalive timer is then never
  created and OpenConfirm dereferences it: `GrantPanicsIff`, `ZeroHoldTimePanicsIff`,
  `ZeroHoldTimeIsReached`.
- The comment on collisions says the connection initiated by the dominant router is kept.
  A non-dominant router whose incoming connection is the second to reach OpenConfirm drops
  that one instead, and a dominant router whose outgoing connection is the second drops
  that one when the incoming FSM already asks for Established: `CollisionFollowsRuleIff`,
  `WrongConnectionIsDropped`, `DominantRouterLosesRace`. Between two such peers this can
  close both connections: `SharedIff`, `BothDropIncoming`.
- One octet of NOTIFICATION data is not sent: `NotificationRoundTripsIff`.
- An empty AS_PATH is refused, segments of 64 or more ASes are misread, and of several
  segments of one kind only the last is kept: `WellFormedPathReadIff`,
  `AcceptedPathRightIff`, `EmptyPathIsRefused`, `SixtyFourIsRefused`, `RepeatedKindIsLost`.
  The order of segments of different kinds is not kept at all: `OrderIsLost`.
- A next hop of 255 octets in MP_REACH_NLRI shifts the NLRI slice: `MpReachSplitsRightIff`,
  `MpReachReadsWrittenIff`.
- With a hold time of zero the hold timer is still started, with zero, and never restarted, so
  that a session that gets past the panic is ended by it: `HoldTimerCanEndSession`,
  `ExpiryStaysPending`, `ZeroHoldSessionIsReached`.
- An empty attribute block escapes the check for mandatory attributes:
  `MandatoryAttributesIff`.
- Capabilities that do not fit the length octets are sent with truncated lengths:
  `OpenRoundTripsIff`, `NewOpenDescribableIff`.

## Model

| member | source | states |
|---|---|---|
| `PeerTheorems.CallbacksAreBracketed` | fsm.go:830-953 | in every state of every run the plugin's calls form OnEstablished, update handler calls, OnClose, repeated; each bracket belongs to one FSM and no other callback falls inside one |
| `PeerTheorems.SlotsOverRuns` | peer.go:96-198 | a recorded state belongs to an occupied slot, a slot recorded Established is alone, at most one slot is up when the peer is back at its loop, and the branch for a collision with Established is never taken |
| `PeerTheorems.ChannelsOverRuns` | peer.go:68-82 | every live FSM addresses the channels of the slot it occupies |
| `PeerTheorems.WritesAreOrdered` | fsm.go:552-954 | on every connection of every FSM: OPEN first and once, at most one NOTIFICATION, which is the last write, and KEEPALIVEs only if earlier in the run an OPEN received on that connection was validated and not refused by the plugin |
| `PeerTheorems.KeepAliveMeansAccepted` | fsm.go:604-638 | a KEEPALIVE on a connection means that earlier in the run, when only the OPEN had been written on it, an OPEN received on it in OpenSent passed validation and the plugin did not refuse it |
| `PeerTheorems.HoldTimerCanEndSession` | fsm.go:531-536 | an FSM in Established has a hold timer that is running or has expired and was last started with the negotiated hold time, zero included; its expiry ends the session with a NOTIFICATION |
| `PeerTheorems.ExpiryStaysPending` | fsm.go:878-912 | in a session with hold time zero nothing restarts an expired hold timer: the branch that ends the session stays enabled whenever the FSM is at its select |
| `PeerHold.ActionKeepsHolds` | fsm.go:640-651 | every action keeps the duration of the hold timer right: four minutes in OpenSent, in OpenConfirm the negotiated time unless it is zero, in Established the negotiated time |
| `PeerHold.KeepAliveRestartsIff` | fsm.go:878-891 | a KEEPALIVE restarts an expired hold timer exactly when the hold time is not zero |
| `PeerTheorems.ReadersAndTimers` | fsm.go:416-439 | at most one reader per FSM, never without a connection, and draining the hold timer never blocks |
| `PeerTheorems.GrantPanicsIff` | fsm.go:644-653 | a granted state function finds all it dereferences, except exactly when OpenConfirm is granted to an FSM whose negotiated hold times were all zero |
| `PeerTheorems.NonZeroHoldTimeNeverPanics` | fsm.go:696-776 | a run in which no negotiated hold time is zero never panics |
| `PeerTheorems.RaceLeavesOneConnection` | peer.go:162-191 | after a decided collision race, unless stopping, exactly one connection is left: the outgoing one in OpenConfirm or the incoming one in Established |
| `PeerTheorems.CollisionFollowsRuleIff` | peer.go:137-191 | when the peer is back at its loop after a collision, unless stopping, exactly one connection is left; it is the one initiated by the router with the larger pair of identifier and AS number exactly when, if that is the local router, the later connection was the incoming one or the race was not lost to a request for Established, and otherwise the later connection was the outgoing one |
| `PeerTheorems.IncomingWinsOnlyByEstablishing` | peer.go:172-179 | a router with the larger pair of identifier and AS number is left without its outgoing connection only if, in that collision, the incoming FSM's request for Established was received |
| `PeerTheorems.CollisionsOverRuns` | peer.go:164-187 | collision handling recurses at most once, while it waits the other FSM is in its slot with its close channel open, and the peer can always get back to its loop |
| `PeerTheorems.BusyPeerReturns` | peer.go:106-114 | from every state of every run, without any request to stop, there is a sequence of enabled actions, each lowering a measure, back to the loop, to the end of run, or to a panic after a grant |
| `PeerTheorems.BusyIsBounded` | peer.go:127-198 | in every schedule the peer goroutine takes at most eight actions of its own between two visits of its loop |
| `PeerTheorems.StopCanComplete` | peer.go:294-299 | from every live state of every run, a stop request can be carried to the end, leaving every FSM goroutine done and both slots empty |
| `PeerTheorems.DampingOverRuns` | peer.go:226-244 | delays are 60, 120, 240 or 300 s, each determined by the one before and the gap between errors; 300 s is always followed by 60 s; hold-down means both slots empty and the timer armed |
| `PeerTheorems.RunIsGood` | peer.go:247-287 | the conjunction of all invariants holds in every state of every run |
| `PeerTheorems.ReachableIsGood` | peer.go:247-287 | the same of every reachable state, with bracketed callbacks |
| `PeerReach.ZeroHoldTimeIsReached` | fsm.go:708-714 | every configuration, active or passive, reaches the panic with any valid OPEN that makes the hold time zero |
| `PeerReach.ZeroHoldSessionIsReached` | fsm.go:722-732 | an active configuration that negotiated a hold time other than zero once, and zero on its next connection, reaches a session whose hold timer, started with zero, has expired |
| `PeerCollisionRuns.CollisionIsReached` | peer.go:137-163 | every active configuration and valid OPEN with a non-zero hold time reach the collision in which the incoming connection comes second |
| `PeerCollisionRuns.WrongConnectionIsDropped` | peer.go:188-191 | a run in which the peer deals with that collision against a neighbour with the larger pair of identifier and AS number: the rule keeps the incoming connection, and the peer is back at its loop with only the outgoing one |
| `PeerCollisionRuns.DominantRouterLosesRace` | peer.go:172-179 | a run in which a router with the larger pair of identifier and AS number deals with a collision of its outgoing connection, loses the race to a request for Established, and is back at its loop with only the incoming connection |
| `PeerPair.SharedIff` | peer.go:137-191 | two ends of one peering that both dealt with a collision are left with the same connection exactly when the end with the smaller pair of identifier and AS number saw its outgoing connection come second, unless the other end lost its race, and then exactly when it saw its incoming one come second; otherwise no connection is left at both ends |
| `PeerPair.BothDropIncoming` | peer.go:188-191 | any two active ends have runs in which both see their incoming connection come second and no connection is left |
| `PeerSafety.ActionKeepsInv` | peer.go:255-286 | every action of every goroutine keeps the peer's inductive invariant |
| `PeerSafety.ActionKeepsFsms` | peer.go:255-286 | every action keeps the invariant of every FSM object |
| `PeerSafety.GrantOutcome` | peer.go:106-114 | what a grant does to the FSM that receives it |
| `PeerInvariant.StepIsMove` | fsm.go:123-180 | whatever an FSM goroutine does on its own is a legal move as the peer sees it |
| `PeerInvariant.LocalKeepsInv` | fsm.go:123-180 | such a move keeps the peer's invariant |
| `PeerSessions.ActionKeepsSessions` | fsm.go:830-953 | every action keeps the bracketing of callbacks and ties the open session to the FSM that is in it |
| `PeerSessions.SessionsAreBracketed` | fsm.go:840-952 | the automaton of sessions means the bracketing in plain terms |
| `PeerCollision.ActionKeepsRace` | peer.go:162-191 | every action keeps what a decided race has promised |
| `PeerSurvivor.ActionKeepsResolving` | peer.go:137-191 | no action of any goroutine, short of a request to stop, undoes what a collision has settled |
| `PeerCollision.DominanceIsOpposite` | peer.go:158-161 | of two routers that accept each other's OPEN exactly one is dominant, the one with the larger pair of identifier and AS number |
| `PeerCollision.DominantIff` | peer.go:158-161 | the dominance test compares the pairs of identifier and AS number |
| `PeerDamping.ActionKeepsDamping` | peer.go:226-244 | every action keeps the history of delays and the hold-down state consistent |
| `PeerShutdown.FsmGoesDown` | fsm.go:186-191 | a live FSM whose close channel is closed always has a step that lowers its rank |
| `PeerShutdown.GoesDown` | peer.go:248-258 | a closing peer always has an enabled action that lowers the measure and does not panic |
| `PeerShutdown.ClosingCompletes` | peer.go:248-258 | so it can always be driven to done |
| `PeerProgress.GoesBack` | peer.go:164-187 | a busy peer always has an enabled action that lowers the measure and neither stops the peer nor gives up: a grant finds its FSM receiving, a race finds the other FSM ready to be closed |
| `PeerProgress.BusyAction` | peer.go:127-198 | every action of the peer goroutine makes its agenda lighter, and no other goroutine changes it |
| `PeerShutdown.DoneLeavesNothingRunning` | peer.go:248-253 | when the peer is done, so is every FSM goroutine, and the slots are empty |
| `FsmProofs.StepKeepsInv` | fsm.go:123-180 | every step of an FSM goroutine keeps its invariant: order of writes, resources, close signal |
| `FsmProofs.GrantKeepsInv` | fsm.go:147-166 | a grant keeps it and panics exactly for OpenConfirm with all hold times zero |
| `FsmProofs.SeeCloseKeepsInv` | fsm.go:131-145 | every close branch keeps it; the Cease of run never follows another NOTIFICATION |
| `FsmProofs.GoodWireIffWellOrdered` | fsm.go:281-302 | the automaton of writes means the order in plain terms, both ways |
| `FsmMeaning.StepKeepsReport` | fsm.go:552-954 | every step keeps this: an error on its way to the peer that says it was sent is the last write, and no other error follows a NOTIFICATION |
| `FsmMeaning.HoldExpiryEnds` | fsm.go:559-576 | an expired hold timer ends a session in any of its three states with 4/0, sent and reported |
| `FsmMeaning.CloseCeases` | fsm.go:555-558 | closing ends it with 6/0, sent |
| `FsmMeaning.CloseInRunCeasesIff` | fsm.go:131-155 | closed between two states, the goroutine leaves its loop, and sends 6/0 exactly on a live connection past Active |
| `FsmMeaning.NotificationEnds` | fsm.go:862-877 | a received NOTIFICATION ends it, is reported as received, and nothing is written |
| `FsmMeaning.UnexpectedEnds` | fsm.go:654-682 | a message the state does not expect ends it with 5/1, 5/2 or 5/3 and the type of the message |
| `FsmMeaning.ReaderErrorEnds` | fsm.go:577-599 | an error of the reader ends it: sent if it is to be sent, to Idle, or from OpenSent to Active with the retry timer running if the connection broke |
| `FsmMeaning.OpenDecided` | fsm.go:600-653 | an OPEN in OpenSent is refused as validation or the plugin says, or accepted and answered with a KEEPALIVE, whose failure ends the session |
| `FsmMeaning.KeepAliveConfirms` | fsm.go:724-733 | a KEEPALIVE in OpenConfirm asks for Established and restarts the hold timer |
| `FsmMeaning.KeepAliveIsSent` | fsm.go:852-857 | the keepalive timer sends a KEEPALIVE, a failed write ends the session, and the timer starts over unless the hold time is zero |
| `FsmMeaning.UpdateIsHandled` | fsm.go:892-912 | an UPDATE goes to the handler if there is one, and otherwise restarts the hold timer |
| `FsmMeaning.HandlerDecides` | fsm.go:900-912 | the NOTIFICATION a handler returns is sent and ends the session; without one the session goes on and the hold timer is restarted |
| `FsmTimers.StepKeepsTimers` | fsm.go:246-412 | every step keeps a timer running or expired in every state the goroutine waits in, and none once it is done |
| `FsmTimers.IdleDials` | fsm.go:264-272 | leaving Idle starts a dial and both timers |
| `FsmTimers.RetryDialsAgain` | fsm.go:355-400 | the retry timer starts over with a new dial |
| `FsmTimers.ConnectionGetsOpen` | fsm.go:279-302 | a new connection gets the plugin's capabilities in an OPEN as its first message; then the hold timer runs for 240 s and the reader starts, or the FSM goes to Idle |
| `PeerAliveRuns.AlwaysTrying` | peer.go:127-136 | at its loop, an active peer that is not held down has an FSM, in every run |
| `PeerAliveRuns.DelayExpiryRestarts` | peer.go:259-263 | the startup delay's expiry ends hold-down and an active peer starts a new outgoing FSM |
| `PeerAliveRuns.OnlyOutgoingDials` | peer.go:116-136 | a passive peer never has an outgoing FSM, and an incoming FSM is never in Idle or Connect |
| `PeerAliveRuns.ErrorDampsIff` | notification_error.go:17-19 | after a reported error the peer, back at its loop, is held down exactly if the error is a NOTIFICATION other than Cease, and exactly then one more delay was imposed |
| `PeerAliveRuns.ReportedAsSent` | fsm.go:538-550 | in every run, an error on its way to the peer was sent as the last write exactly if it says so |
| `PeerAliveRuns.NeverWaitsInVain` | fsm.go:246-412 | in every run, an FSM that waits has a timer running or expired, in a session the hold timer, and the keepalive timer unless the hold time is zero; an FSM that is done has none running |
| `PeerAliveRuns.OpensAreOwn` | fsm.go:279-302 | in every run, every OPEN written carries the configured identifier, hold time and AS number, the latter in full in the first capability |
| `PeerAlive.ActionKeepsAlive` | peer.go:127-198 | every action keeps an active peer trying |
| `PeerWire.StepLog` | fsm.go:600-653 | only the acceptance of an OPEN in OpenSent leaves the mark of an accepted OPEN, and no OPEN is written but the router's own |
| `FsmObject.Machine.Take` | fsm.go:123-180 | the object takes exactly the transition system's step and makes the same callback |
| `FsmObject.Machine.DrainAndResetHoldTimer` | fsm.go:531-536 | the drain panics on a timer never created, blocks exactly on one whose tick was read or that was stopped, and otherwise restarts it |
| `PeerObject.Supervisor.Execute` | peer.go:247-287 | whatever schedule drives the objects, they are in a reachable state that satisfies every invariant, with bracketed callbacks |
| `PeerObject.Supervisor.Act` | peer.go:255-286 | each action changes the peer and the FSM objects as the transition system says |
| `PeerObject.Supervisor.UpdateStartupDelay` | peer.go:226-244 | delay, time of the error and timer |
| `Handshake.HandshakeAgrees` | fsm.go:619-653 | both ends accept exactly when each OPEN is acceptable; then they agree on the hold time, which is the smaller of the two configured, 0 or at least 3 s, three keepalive intervals of at least 1 s fit, and exactly one end is dominant, the one with the larger pair of identifier and AS number |
| `Handshake.OpenDecides` | fsm.go:640-653 | the hold time after a valid OPEN is at most the configured one and the received one, and one of them |
| `Handshake.OpenSentAcceptsIff` | packet.go:250-325 | OpenSent moves on exactly for an acceptable OPEN and otherwise reports a refusal |
| `Handshake.OpenArrivesIff` | packet.go:400-417 | the neighbour's reader delivers the OPEN that was sent exactly when its capabilities fit |
| `Handshake.OpenOverTheWire` | fsm.go:441-510 | over the wire a fitting OPEN has the effect it was sent for |
| `Handshake.ZeroHoldTimePanicsIff` | fsm.go:640-653 | entering OpenConfirm panics exactly when the speakers agreed on zero and nothing else was ever negotiated |
| `Framing.Read` | fsm.go:441-510 | the reader computes the specification of the stream and never panics |
| `Framing.StreamRoundTrip` | fsm.go:441-510 | for any sendable messages followed by any octets the reader delivers exactly those messages, then what it makes of the rest |
| `Framing.WholeStreamDelivered` | fsm.go:441-510 | a stream of whole messages is delivered as sent and every octet consumed |
| `Framing.StreamsAreUnambiguous` | packet.go:60-70 | two different sequences of messages never share an encoding |
| `Framing.FrameRoundTripsIff` | packet.go:28-70 | an encoded message is read back exactly when it is sendable |
| `Framing.FrameReencodesIff` | packet.go:28-58 | the octets of a frame are the encoding of its message except for a KEEPALIVE body and one octet of NOTIFICATION data |
| `Framing.MessageDecodeNeverPanics` | packet.go:28-58 | no message body makes the decoder panic |
| `PacketLoops.DecodeCapabilityParam` | packet.go:478-505 | the loop over capabilities computes the specification, panics included |
| `PacketLoops.DecodeOptionalParams` | packet.go:361-398 | the loop over parameters computes the specification, panics included |
| `PacketLoops.EncodeCapabilityParam` | packet.go:507-521 | the encoding loop computes the wire format |
| `PacketLoops.EncodeOpen` | packet.go:400-417 | the encoding of an OPEN is the wire format |
| `PacketLoops.BuildOpen` | packet.go:432-458 | the loop that builds the local OPEN |
| `PacketLoops.ValidateOpen` | packet.go:250-325 | the validation loop and its error for every OPEN |
| `PacketMeaning.ValidIff` | packet.go:250-325 | an OPEN is valid exactly if its version is 4, its AS the expected one or AS_TRANS, its hold time 0 or at least 3, its identifier not multicast and not the local one inside an AS, and it carries capability 65, only with the four octets of the expected AS |
| `PacketMeaning.RefusedFor` | packet.go:251-283 | the first field that fails decides: 2/1 with version 4, 2/2, 2/6 or 2/3 |
| `PacketMeaning.RefusedForCapabilities` | packet.go:284-322 | then the first wrong capability 65 gives 2/0 or 2/2, and a missing one 2/7 with the capability, or 2/2 for AS_TRANS |
| `PacketMeaning.HeaderErrors` | fsm.go:455-505 | a bad marker gives 1/1, a bad length 1/2, a bad type 1/3 with the type, and a short stream no NOTIFICATION |
| `PacketMeaning.OpenErrors` | packet.go:338-398 | an OPEN body that cannot be decoded gives 1/2 with the body, 2/0 or 2/4 |
| `PacketMeaning.HeaderLayout` | packet.go:60-70 | the header of every message sent: sixteen octets of ones, the length, the type |
| `PacketMeaning.OpenLayout` | packet.go:400-417 | where the fields of an OPEN are |
| `PacketMeaning.ParamLayout` | packet.go:507-521 | a parameter is 2, its length and capabilities, each of code, length and value |
| `PacketMeaning.PluginCapabilitiesAreCarried` | packet.go:432-458 | the local OPEN carries the plugin's capabilities in order, without any of code 65, after its own |
| `PacketProofs.OpenRoundTripsIff` | packet.go:338-417 | decoding undoes encoding exactly for OPENs the length octets can describe; all others fail to encode or are refused |
| `PacketProofs.OpenReencodes` | packet.go:338-417 | re-encoding an accepted body gives the same octets |
| `PacketProofs.DecodeInvertsEncodeParams` | packet.go:361-398 | the parameter list round-trips |
| `PacketProofs.EncodeInvertsDecodeParams` | packet.go:361-398 | and so do its octets |
| `PacketProofs.DecodeInvertsEncodeCapabilities` | packet.go:478-505 | the capability list round-trips |
| `PacketProofs.EncodeInvertsDecodeCapabilities` | packet.go:478-505 | and so do its octets |
| `PacketProofs.OpenDecodeNeverPanics` | packet.go:338-379 | the length check of OPEN keeps every uint8 slice bound from wrapping |
| `PacketProofs.LongCapabilityListPanics` | packet.go:484-500 | without that bound a capability of 254 octets makes the slice bound wrap |
| `PacketProofs.NewOpenAcceptedIff` | packet.go:250-325 | the local OPEN, encoded, decoded and validated, is accepted exactly when it fits, the AS is expected, the identifier is unicast, the speakers differ and the hold time is 0 or at least 3 s |
| `PacketProofs.NewOpenDescribableIff` | packet.go:432-458 | the local OPEN always encodes and is describable exactly when its capabilities fit |
| `PacketProofs.OneFourOctetASCapability` | packet.go:434-441 | it carries exactly one four-octet-AS capability, first, naming the AS |
| `PacketProofs.NotificationRoundTripsIff` | packet.go:187-217 | a NOTIFICATION survives exactly when it does not carry one octet of data |
| `UpdateErrors.UpdateNotificationFromErr` | update.go:75-137 | the search with its early exits returns the first mark of the highest severity, or the default |
| `UpdateErrors.Search.Unwrap` | update.go:83-117 | the closure's variables reflect the marks met so far |
| `UpdateErrors.HighestIsFirstOfGreatest` | update.go:75-137 | that is the earliest in depth-first order among those of greatest severity |
| `UpdateErrors.FlatteningIsInvisible` | update.go:107-123 | flattening an error tree completely changes nothing the search reports |
| `UpdateErrors.NestingIsInvisible` | update.go:107-123 | two trees that nest the same errors in any way yield the same NOTIFICATION |
| `UpdateErrors.MarksOfJoin` | update.go:1062-1068 | joining errors concatenates what they report |
| `AttrsBitmap.Bitmap.Set` | update.go:1000-1002 | the bitmap of eight words is the set of codes with this one added |
| `AttrsBitmap.Bitmap.IsSet` | update.go:1004-1006 | membership in that set |
| `PathAttrs.DecodePathAttrs` | update.go:1008-1097 | the loop with its bitmap computes the specification: deliveries and error, for any plugin |
| `PathAttrsProofs.ParseInvertsWrite` | update.go:1016-1051 | any written attribute list is parsed back |
| `PathAttrsProofs.WriteInvertsParse` | update.go:1016-1051 | the attributes found are a prefix of the block, and a fault is reported exactly when octets are left, with the code of the attribute they begin |
| `PathAttrsProofs.WalkIsFirsts` | update.go:1052-1070 | the callback is made for the first occurrence of each code, in wire order, up to the first attribute that stops the walk |
| `PathAttrsProofs.FirstsAreFirst` | update.go:1042-1061 | first occurrences are exactly the attributes at the positions where a code appears for the first time, in wire order |
| `PathAttrsProofs.FirstsKeepCodes` | update.go:1042-1061 | no code is lost and none is kept twice |
| `PathAttrsProofs.BlockDelivers` | update.go:1008-1070 | the deliveries of a whole block are the first occurrences of each code in wire order, up to the framing fault or the first attribute that stops the walk |
| `PathAttrsProofs.WalkHeeds` | update.go:1062-1068 | a reset stops the walk at once and is the one reported |
| `PathAttrsProofs.MandatoryAttributesIff` | update.go:1071-1097 | routes announced without reset: ORIGIN and AS_PATH delivered or treat-as-withdraw, exactly when the block is not empty |
| `UpdateMeaning.BlockErrorIs` | update.go:1008-1097 | the errors of a block, in order, for any plugin: what the callbacks returned, then a reset for a repeated MP attribute, or treat-as-withdraw with its code for octets left over and treat-as-withdraw for a missing mandatory attribute |
| `UpdateMeaning.NoErrorIff` | update.go:1008-1097 | with a plugin that never errs there is no error exactly if the block is empty, or is the writing of attributes of which no MP attribute repeats, with ORIGIN and AS_PATH if routes are announced |
| `UpdateMeaning.DecodeErrorIs` | update.go:1139-1166 | the errors of an UPDATE, in order: those of the three callbacks and the block, each kept, up to the first that resets |
| `UpdateMeaning.LocateMeans` | update.go:1105-1137 | the fields are found exactly when the body is the writing of some; otherwise the session is reset with 3/0 or 3/1 |
| `UpdateMeaning.UpdateAcceptedIff` | update.go:1105-1167 | with a plugin that never errs an UPDATE is accepted exactly when it is the writing of faultless fields |
| `UpdateMeaning.CarriedIsSent` | update.go:75-137 | the NOTIFICATION an error carries is the one sent, and 3/0 if it carries none |
| `UpdateDecoder.Decode` | update.go:1105-1167 | the decoder computes the specification, panics included |
| `UpdateDecoder.PanicsIff` | update.go:1123-1137 | the uint16 sum wraps exactly on bodies longer than any message |
| `UpdateDecoder.FieldsRebuildBody` | update.go:1105-1167 | the three fields and their lengths rebuild the body whatever the attributes contain |
| `UpdateDecoder.BodyLocatesFields` | update.go:1105-1167 | and the fields of a written body are found |
| `UpdateDecoder.DeliveryOrder` | update.go:1139-1167 | withdrawn routes, attributes, NLRI, in this order; without a reset all three are delivered |
| `UpdateDecoder.FieldsHeed` | update.go:1139-1167 | after a reset nothing more is delivered |
| `UpdateDecoder.FirstResetIsReported` | update.go:1139-1167 | decoding followed by the search yields the NOTIFICATION of the earliest callback that reset, which was the last made |
| `UpdateDecoder.RoutesHaveMandatoryAttributes` | update.go:1071-1097 | NLRI with a non-empty block and no reset: mandatory attributes delivered or treat-as-withdraw |
| `Prefixes.DecodePrefix` | update.go:424-454 | one prefix, by the loop-free decoder |
| `Prefixes.DecodePrefixes` | update.go:456-473 | the loop over prefixes computes the specification |
| `Prefixes.DecodeAddPathPrefixes` | update.go:394-422 | the loop over prefixes with path identifiers computes the specification |
| `Prefixes.DecodeInvertsWrite` | update.go:394-473 | well-formed lists round-trip, IPv4 and IPv6, with and without identifiers |
| `Prefixes.WriteInvertsDecode` | update.go:394-473 | re-encoding a decoded list gives back every octet |
| `Prefixes.EncodingsAreDistinct` | update.go:394-473 | distinct well-formed lists have distinct encodings |
| `Prefixes.OctetsAreExact` | update.go:428-436 | the bit-length check keeps the uint8 sum from wrapping |
| `AsPath.ASPathAttr.Decode` | update.go:307-369 | the fields after decoding, partial updates on an error included, and the error |
| `AsPath.WellFormedPathReadIff` | update.go:307-369 | a well-formed AS_PATH is accepted and the fields hold the numbers of each kind exactly when its flags are right, it is not empty, no segment has 64 ASes or more and it has at most one segment of each kind |
| `AsPath.AcceptedPathRightIff` | update.go:307-369 | an accepted AS_PATH was well formed and the fields hold the numbers of each kind exactly when every count octet met was below 64 and no kind was met twice |
| `AsPath.BadPathIsWithdrawn` | update.go:307-366 | a refused AS_PATH is treated as a withdrawal for code 2, with 3/4 for flags, 3/5 for a length and 3/11 for a malformed path, and the attribute as data |
| `AsPath.ReferenceIsWritten` | update.go:318-366 | the reference meaning reads only what was written |
| `AsPath.EmptyPathIsRefused` | update.go:312-317 | the empty AS_PATH is well formed and refused |
| `AsPath.SixtyFourIsRefused` | update.go:343-347 | a segment of exactly 64 ASes is well formed and refused |
| `AsPath.RepeatedKindIsLost` | update.go:353-362 | of two segments of one kind the first is lost |
| `AsPath.OrderIsLost` | update.go:353-362 | the order of an AS_SET and an AS_SEQUENCE is not kept: both orders are accepted into the same fields |
| `AsPath.ReferenceReadsWritten` | update.go:318-366 | the reference meaning reads back every path that can be written |
| `AsPath.NumbersRoundTrip` | update.go:250-260 | the list of AS numbers round-trips |
| `AsPath.DecodeMpReach` | update.go:890-905 | what is handed to the closure and the error returned: the flag error joined to the length error or the closure's |
| `AsPath.MpReachReports` | update.go:890-905 | the session is reset, with 3/5, exactly when the next hop and its reserved octet do not fit, or as the closure asks, whatever the flags; wrong flags add a treat-as-withdraw |
| `AsPath.MpReachReadsWrittenIff` | update.go:896-904 | the closure is handed what was written exactly when the next hop is shorter than 255 octets |
| `AsPath.MpReachSplitsRightIff` | update.go:896-904 | what is handed over rebuilds the attribute exactly when the next hop is shorter than 255 octets |

## Left out

- server.go: listening, address handling and the table of peers are plumbing around the modelled logic.
- Dialling, sockets, contexts and real timers: a dial yields a connection or fails, a write succeeds or fails, a timer is absent, armed, expired unread, or stopped.
- The keepalive manager goroutine and the UPDATE writer: modelled only as resets of the keepalive timer.
- PeerTheorems.WritesAreOrdered: speaks of the FSM goroutine's own writes, not of UPDATEs written by the plugin.
- PeerTheorems.StopCanComplete: states that a stop can always be carried through and that the peer is never stuck, not that every fair schedule does so, because fairness of the Go scheduler is not modelled.
- PeerTheorems.GrantPanicsIff: the missing timer is noticed on entry of the state function, a little before Go would dereference it.
- PeerObject.Supervisor.Act: an action is one uninterrupted piece of a goroutine; data races inside such a piece are not modelled.
- PeerObject.Supervisor.Execute: where the program blocks in the middle of a function, the rest is kept as an agenda and carried out by later actions.
- PeerTheorems.BusyPeerReturns: states that the way back to the loop is always open, not that every fair schedule takes it, because fairness of the Go scheduler is not modelled; `BusyIsBounded` holds of every schedule.
- PeerTheorems.HoldTimerCanEndSession: the duration a timer was started with is recorded, but the passing of time until it expires is not modelled; that a timer started with zero expires at once is Go's.
- FsmMeaning.UpdateIsHandled: that the handler is called with the octets received is not recorded; the call is.
- PeerPair.SharedIff: the two ends go through their own runs; what one writes is not fed into the other, only the identifiers they learnt are tied together.
- AsPath.WellFormedPathReadIff: the fields have no place for the order of segments of different kinds, so it is not part of what they are said to hold.
- FsmObject.Machine.Take: timers, link and log are fields that hold records rather than one field for each member.
- PeerCollisionRuns.WrongConnectionIsDropped: like the other runs that are constructed, reached with a plugin that offers no capabilities and writes that succeed; other plugins only lengthen the run.
- UpdateErrors.UpdateNotificationFromErr: errors with their own As or Is methods and typed nil pointers are not in the error tree.
- The fixed-length attribute decoders (ORIGIN, NEXT_HOP, MED, LOCAL_PREF, AGGREGATOR and the like), communities, cluster lists and MP_UNREACH_NLRI: each is settled by reading one branch.
- Add-path capability tuples, address formatting, logging, TCP MD5 signatures and generated constants that nothing above needs.
