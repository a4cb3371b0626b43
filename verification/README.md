# Verified model of Ahlyx Labs

This project models the stateful and arithmetic core of the repository in Dafny 4.11 and proves what that core is
meant to guarantee. `dafny verify dfyconfig.toml` checks everything.

- **PCAP relay** (`internal/pcap`). `RelaySpec` holds the session fields and the effect of each critical section.
  `RelayProtocol` runs any number of handler, session-creating and cleanup goroutines over them, one lock operation or
  critical section a step, in any interleaving. `RelayInvariant`, `RelayPreservation`, `RelayFlow` and `RelaySafety`
  prove the invariant step by step; `RelayTheorems` and `RelayLocks` draw the conclusions about delivery, roles, expiry
  and deadlock. `RelayTokens` says exactly who is admitted to a role, `RelayCalls` that the roles do not disturb each
  other, `RelayLeaving` when a session leaves the store, `RelayPrefix` when a viewer receives a prefix, and
  `RelayTraffic` that any traffic occurs in some run. `RelayClosing` accounts for every session and socket that has
  still to be closed, and `RelayEscape` says exactly which connections closing a session ends. `RelayHeap` and
  `RelayStore` are the same objects as classes, run sequentially.
- **Dashboard** (`frontend/pcap/app.js`). `FlowTable`, `AlertList` and `Reconnect` are the three event-driven machines
  as classes, against simple specifications. `AlertIdentity` says which alerts share an entry, and `Lists` is what the
  bounded lists have in common.
- **Rate limiter** (`internal/shared/ratelimit.go`). `RateLimit` compares the evicting map with one that never forgets
  and says exactly when they decide alike. `RateServer` puts all route groups behind the global bucket and bounds what
  passes; `RateService` says exactly which requests pass. `RateHeap` is the limiter as an object.
- **Scanner and address policies** (`internal/scanner`, `outbound_target.go`, `validators.go`). `Bits` and `Addresses`
  are the arithmetic of CIDR blocks (section 3.1 of RFC 4632); `Classifiers`, `ScanTargets`, `ScanLab` and
  `ScanAccepts` the policies; `ScanPool` and `ScanResults` the worker pool under every schedule.
- **Enrichment** (`internal/shared/cache.go`, `internal/enrichment`). `CacheHistory` and `CacheHeap` are the TTL cache;
  `Sources`, `Verdicts` and `FanOut` the verdicts after goroutines that finish in any order, and `LookupVerdicts`
  the answers in terms of the lookups alone; `Score` and `ScoreLaws` the IP score.

Six results differ from what a reader might expect. Each has an input that shows it and the exact condition.

- Closing a session does not end every connection of it. A handler that has reserved its role and is still upgrading when
  CloseBoth runs attaches afterwards to a session nobody will close again, also when it was cleanup that closed it after
  the hour: `RelayEscape.ConnectionOutlivesSession` is such a run. CloseBoth spares exactly these handlers
  (`RelayEscape.SparedIffLate`), and they are exactly those that could see empty tokens when they attach
  (`RelayEscape.ReachedIffTokens`).
- What a viewer receives need not be a prefix of what was sent: Forward drops a frame that does not fit the buffer and
  still keeps a smaller one after it. `RelayPrefix.SkipsSeventeenth` is such traffic and `RelayTraffic.DeliveryHasGap` a
  run with it. `RelayPrefix.KeepsPrefixIff` and `RelayPrefix.DeliversPrefixIff` say exactly when it is one.
- More suspicious votes can lower the domain, URL and hash verdicts, because they count against the malicious majority:
  `Verdicts.SuspicionMayLower`. `Verdicts.DomainSuspicion`, `Verdicts.URLSuspicion` and `Verdicts.HashSuspicion` say
  exactly when they do.
- The allowlist check of the scanner looks at the two ends of a subnet only, so blocks narrower than the target can let
  through a subnet whose middle is outside the list: `ScanLab.LabTarget`. `ScanLab.StaysInsideIff` gives the exact
  condition for one target, `ScanLab.ConfinesIff` for all targets of one allowlist. `ScanLab.ConfinesByShape` is what the
  prefix lengths alone decide.
- Alerts without an ID can share an entry though they differ, when a field contains the separator:
  `AlertIdentity.MayCollide`. `AlertIdentity.LegacyShareIff` is the exact condition.
- `enumerateHosts` wraps around for 255.255.255.255/32, and for no other network: `ScanTargets.HostsExact`.
  `resolveTargets` never passes that network to it.

## Model

| member | source | states |
|---|---|---|
| RelayTheorems.DeliveredInOrder | internal/pcap/session.go:100-138 | In every interleaving of handlers, closers and cleanup, what a viewer socket has received is an in-order selection without repetition of the frames the agent sent, all flushed frames before all live ones |
| RelayTheorems.ExactDelivery | internal/pcap/handlers/relay.go:81-105 | Without a close or a write failure, what was written, is being flushed and is in flight is what the bounded buffer kept of the frames before the viewer attached, followed by every later frame |
| RelayTheorems.CompleteDelivery | internal/pcap/session.go:100-138 | Then, once agent and flush are idle, every frame sent was delivered exactly once and in order, if and only if the traffic before the viewer attached fits 50 frames and 1 MiB |
| RelayTheorems.KeepsAllIffFits | internal/pcap/session.go:120-132 | The bounded buffer stays within both caps and drops nothing exactly when the traffic fits both |
| RelayPrefix.KeepsPrefixIff | internal/pcap/session.go:124-132 | What is kept is a prefix of the traffic if and only if from the first frame that does not fit on no frame fits, a condition on the frame sizes alone |
| RelayPrefix.DropsLargeKeepsSmall | internal/pcap/session.go:124-132 | After a frame that does not fit is dropped, a later one that does fit is still kept, and what is kept is then no prefix |
| RelayPrefix.SkipsSeventeenth | internal/pcap/session.go:124-132 | The input: sixteen frames of 65000 bytes fit, a seventeenth is dropped, one byte after it is kept |
| RelayPrefix.DeliversPrefixIff | internal/pcap/session.go:100-138 | On an open session and a working socket, once agent and flush are idle, the viewer has received a prefix of what the agent sent if and only if the traffic before it attached fits the buffer, or nothing was sent after and that traffic stops at its first frame that does not fit |
| RelayTraffic.AnyTrafficOccurs | internal/pcap/handlers/relay.go:81-105 | For any frames within the message limit there is a run in which just these are sent, the viewer attaches after them, and it receives exactly what the buffer kept |
| RelayTraffic.DeliveryHasGap | internal/pcap/session.go:120-138 | So there is a run after which the viewer has received all eighteen frames but the seventeenth |
| RelayTheorems.NothingFromNobody | internal/pcap/handlers/relay.go:81-105 | A viewer of a session whose agent role nobody is connected in receives nothing |
| RelayTheorems.BufferBounded | internal/pcap/session.go:124-132 | In every reachable state, even for a Forward after CloseBoth, the buffer is within both caps and bufBytes is the sum of the buffered lengths |
| RelayTheorems.OneHolderPerRole | internal/pcap/session.go:57-91 | At most one handler at a time has reserved or is connected in a role of a session, through failed upgrades, Release and new reservations |
| RelayTokens.AdmittedIff | internal/pcap/session.go:57-79 | In every reachable state a Reserve in its critical section succeeds if and only if the session has not been closed and is at most an hour old, nobody holds the role, and the token is the one issued for it; the handler holds the role afterwards exactly then, and goes on to the upgrade |
| RelayCalls.OwnRoleDecides | internal/pcap/session.go:57-91 | After any calls on one session whether a role can be reserved depends on the calls about that role alone, and a role nobody has called for can be reserved with its token for an hour |
| RelayLeaving.EndedHandlerDeletes | internal/pcap/handlers/relay.go:83-85 | In every reachable state the session of a handler whose connection has ended is out of the store |
| RelayLeaving.StaysUntil | internal/pcap/session.go:195-209 | A session stays in the store until it is over an hour old or a handler connected to it has ended |
| RelayLeaving.ReadingEndsIff | internal/pcap/handlers/relay.go:86-105 | The read loop goes on exactly after a text frame of at most 64 KiB from the agent, which is then forwarded, or while a viewer has said nothing; anything else breaks the connection and leads to Delete |
| RelayTokens.HoldersPresented | internal/pcap/session.go:57-79 | In every reachable state whoever has reserved or is connected in a role of a session presented the token issued for that role at its creation, so with two different tokens neither opens the other role |
| RelayTheorems.NoReserveAfterClose | internal/pcap/session.go:153-170 | Once CloseBoth has run, no Reserve on that session ever succeeds, not even by a handler that had fetched the session before it left the store |
| RelayTheorems.ExpiresByAge | internal/pcap/session.go:140-150 | In every reachable state IsExpired is the age test of Reserve: traffic never extends the hour |
| RelayEscape.OpenSessionsNameTheirSockets | internal/pcap/session.go:93-118 | In every reachable state a connected handler is named by its session in agent or browser, or its socket is broken or is about to be closed by a goroutine inside CloseBoth; while the session is open it is named, so no live socket of an open session escapes CloseBoth |
| RelayEscape.SparedIffLate | internal/pcap/session.go:153-170 | CloseBoth does not end every connection. Once it is through with a connected handler, it has closed the socket if and only if that handler was connected when the close section ran, and spared it if and only if the handler was then still between its reservation and SetAgent or SetBrowserAndFlush; a spared one stays in the session for good |
| RelayEscape.ReachedIffTokens | internal/pcap/session.go:93-108 | The test SetAgent and SetBrowserAndFlush could make under mu: once the session is closed and the sockets CloseBoth had to close are closed, the connection attached here is among them if and only if the tokens are not empty at that moment |
| RelayEscape.ConnectionOutlivesSession | internal/pcap/session.go:195-209 | The failing run: created, reserved by an agent, upgrade under way, past the hour, cleaned up and closed, then SetAgent. The session is closed, expired and gone from the store, all other goroutines are done, and the agent is connected and reading on a working socket |
| RelayEscape.RemovedIsClosedOrCarried | internal/pcap/session.go:195-209 | In every reachable state a session in the store is open, and one outside it is closed or exactly one goroutine has still to close it |
| RelayEscape.SweepLeavesNoneExpired | internal/pcap/session.go:198-205 | When a cleanup run leaves its loop, with handlers, closers and creators running beside it, no session in the store is expired at the time the run started with |
| RelayClosing.RunKeepsClosing | internal/pcap/session.go:153-209 | After every run, what each goroutine has still to close and sweep accounts for every session and every socket |
| RelayLocks.NoDeadlock | internal/pcap/session.go:195-259 | In every reachable state, following who waits for whom from any goroutine that wants or holds a lock leads in at most four hops to one that can step, even with readers queued behind a waiting writer |
| RelayLocks.WaitsDescend | internal/pcap/session.go:100-138 | Whoever is waited for waits, if at all, for a lock further in: store.mu, then sendMu, then mu |
| RelaySafety.RunKeeps | internal/pcap/handlers/relay.go:34-62 | The lock, role and frame invariants hold after every run of any number of handlers, session creators, cleanups and clock ticks |
| RelaySafety.StepKeeps | internal/pcap/session.go:57-259 | Every single step of every goroutine keeps the three invariants |
| RelaySpec.ExpiryIsAge | internal/pcap/session.go:146-150 | With created not after lastUsed, IsExpired is exactly the age test, and an expired session refuses every Reserve |
| RelaySpec.ReleaseUndoesReserve | internal/pcap/handlers/relay.go:53-56 | After a failed upgrade Release undoes Reserve: the session is as before but for lastUsed, and the role, which nobody else could take meanwhile, can be reserved again |
| RelaySpec.ConnectedStaysBound | internal/pcap/session.go:82-91 | Release never frees a role that has a connection |
| RelayFlow.FlowAttaches | internal/pcap/session.go:100-108 | Publishing the viewer and taking the buffer in one section moves the buffered frames into the flush unchanged |
| RelayFlow.FlowFlushes | internal/pcap/session.go:109-115 | Each write of the flush keeps the order of what is still to come; after a failed write the rest is lost |
| RelayFlow.FlowOffersKept | internal/pcap/session.go:124-132 | A frame kept in the buffer extends what is on its way by exactly that frame |
| RelayFlow.FlowOffersDropped | internal/pcap/session.go:124-132 | A frame that does not fit leaves what is on its way as it was |
| RelayFlow.FlowSends | internal/pcap/session.go:133-138 | A live write moves the frame in flight to the end of the wire, or loses it on a broken connection |
| RelayHeap.RelaySession.Reserve | internal/pcap/session.go:57-79 | Succeeds exactly when the session is at most an hour old, the role asked for is free and the token is its own, and then binds that role and renews lastUsed, nothing else |
| RelayHeap.RelaySession.Release | internal/pcap/session.go:82-91 | Frees a role without a connection, and only that |
| RelayHeap.RelaySession.SetAgent | internal/pcap/session.go:93-98 | Stores the connection and renews lastUsed |
| RelayHeap.RelaySession.SetBrowserAndFlush | internal/pcap/session.go:100-118 | Publishes the viewer, empties the buffer and writes its frames in order: all of them, or up to the first failed write |
| RelayHeap.RelaySession.Forward | internal/pcap/session.go:120-138 | With a viewer writes the frame once and leaves the buffer alone; without one keeps a copy of its own if it fits both caps and drops the frame otherwise |
| RelayHeap.RelaySession.BufferCopy | internal/pcap/session.go:125-129 | The buffered copy has the bytes of the message and shares no storage with it |
| RelayHeap.RelaySession.Touch | internal/pcap/session.go:140-144 | Renews lastUsed and changes nothing else |
| RelayHeap.RelaySession.CloseBoth | internal/pcap/session.go:153-170 | Clears connections, buffer and both tokens, and breaks both connections without writing to them |
| RelayStore.RandomIDIsValid | internal/pcap/session.go:261-283 | The IDs Create draws, sixteen random bytes in hexadecimal, pass the test Reserve makes |
| RelayStore.SessionStore.Create | internal/pcap/session.go:212-229 | Adds one fresh session under a new ID and leaves the others |
| RelayStore.SessionStore.Reserve | internal/pcap/session.go:231-242 | Delivers the session exactly if the ID is well formed, the token not empty, the session stored and its own Reserve succeeds; otherwise nothing changes |
| RelayStore.SessionStore.Delete | internal/pcap/session.go:251-259 | Removes the session from the store and closes it |
| RelayStore.SessionStore.Cleanup | internal/pcap/session.go:195-209 | Afterwards the store holds exactly the unexpired sessions, untouched; every removed one is cleared and its connections are down |
| FlowTable.FlowPanel.Run | frontend/pcap/app.js:210-340 | After any sequence of flow, scroll, wheel, touch and jump events, the waiting flows on top of the rows, cut to 200, are the newest 200 flows ever received, newest first; while following nothing waits; the count is the length |
| FlowTable.FlowPanel.Handle | frontend/pcap/app.js:210-340 | What each single event does: a flow is shown at once only while following at the top, and waits otherwise; scrolling, wheel, touch and jump pause or resume as stated, and resuming shows the newest 200 flows from the top |
| FlowTable.FlowPanel.AddFlow | frontend/pcap/app.js:210-232 | Renders the flow exactly while following at the top, otherwise pauses and appends it to the waiting ones, and accounts for it either way |
| FlowTable.FlowPanel.RenderFlow | frontend/pcap/app.js:234-277 | Prepends the row and trims to the newest 200 |
| FlowTable.FlowPanel.MergePendingFlows | frontend/pcap/app.js:279-286 | The waiting flows end up on top, newest first, and none waits |
| FlowTable.FlowPanel.HandleFlowScroll | frontend/pcap/app.js:288-306 | Scrolling down pauses; scrolling up to the top resumes with the newest 200 flows received; nothing else moves |
| FlowTable.FlowPanel.HandleFlowWheel | frontend/pcap/app.js:314-316 | Follows afterwards exactly if it did before and the wheel did not go down |
| FlowTable.FlowPanel.HandleFlowTouchMove | frontend/pcap/app.js:323-326 | Pauses exactly for a touch that moved up |
| FlowTable.FlowPanel.JumpToLive | frontend/pcap/app.js:332-340 | Afterwards the table follows, the rows are the newest 200 flows received and the viewport is at the top |
| FlowTable.PendingGrows | frontend/pcap/app.js:218-219 | Dropping the oldest waiting flow of a full list loses nothing that could still be shown |
| FlowTable.MergeGrows | frontend/pcap/app.js:279-286 | Rendering one more waiting flow and cutting is merging one more and cutting |
| AlertList.ListedIsNewest | frontend/pcap/app.js:358-391 | The specification (update in place, else prepend and cut to 50) keeps the 50 newest insertions, newest first, each ID once, each showing the latest alert with its ID |
| AlertIdentity.EntryShowsLatest | frontend/pcap/app.js:379-382 | Each entry shows the latest message with its ID, with its severity in lower case if it is one of the four and info otherwise |
| AlertIdentity.LegacyShareIff | frontend/pcap/app.js:393-396 | Messages without an ID share an entry if their five fields are equal; they are the only ones to share it if and only if no field of the message contains the separator |
| AlertIdentity.GivenIDsShare | frontend/pcap/app.js:393-396 | Messages with an ID share an entry exactly if they name the same one |
| AlertIdentity.MayCollide | frontend/pcap/app.js:393-396 | The input: a source with a separator in it is taken for a source and a destination |
| AlertList.AlertPanel.AddAlert | frontend/pcap/app.js:358-391 | The list elements and the index map are in bijection and show what the specification says after one more alert; the counter counts exactly the insertions |
| AlertList.AlertPanel.Run | frontend/pcap/app.js:358-391 | From any valid panel, any sequence of messages leads to what the specification says of it |
| AlertList.Show | frontend/pcap/app.js:358-391 | After any sequence of messages a new panel displays, element by element and through its index, the list the specification gives for the whole sequence, and has counted its insertions |
| AlertList.AlertPanel.Forget | frontend/pcap/app.js:384-389 | The loop over the index removes exactly the entries of the removed element |
| AlertList.SeverityKept | frontend/pcap/app.js:398-401 | A known severity is kept, in lower case; anything else counts as info |
| Reconnect.Connection.Run | frontend/pcap/app.js:46-150 | After any sequence of socket and timer events the connection is as its life without sockets and timers says, the number of sockets is the old one plus the number of timers that fired, there is exactly one of a current socket, one pending timer or, in relay mode only, a final state; every socket but the current one is closed, so at most one is not; relay mode constructs at most three sockets and none since any of them first opened; local delays lie in 3 to 30 seconds and never shrink |
| Reconnect.Connection.Handle | frontend/pcap/app.js:74-150 | What each single event does: a pending timer that fires leaves exactly one more socket and no timer; the current socket closing leads to a timer in local mode, in relay mode to one only before any open and before the third socket; an open resets the retries; what the browser cannot deliver changes nothing |
| Reconnect.SocketsAreFired | frontend/pcap/app.js:129-150 | Over any events every timer that fires constructs one socket, and nothing else does |
| Reconnect.AlwaysReconnects | frontend/pcap/app.js:124-133 | In local mode, after any events, there is a socket whose close followed by its timer gives the next socket, or a timer that gives it when it fires |
| Reconnect.RelayLife | frontend/pcap/app.js:102-111 | In relay mode, after any events, there have been at most three sockets; an end is final and comes after an open or the third socket; after an open no socket is constructed |
| Reconnect.LocalDelays | frontend/pcap/app.js:127 | The local delays are 3, 6, 12, 24 and then always 30 seconds |
| Reconnect.RelayDelays | frontend/pcap/app.js:144 | The relay delays are 3 and 6 seconds, and would grow by 3 up to 15 |
| Reconnect.Connection.Connect | frontend/pcap/app.js:46-72 | Constructs a socket unless one is live or relay mode rules it out, and then no timer is left |
| Reconnect.Connection.OnClose | frontend/pcap/app.js:94-114 | The current socket closing leads to a retry timer or to the final relay state, another socket closing to nothing |
| Reconnect.Connection.OnOpen | frontend/pcap/app.js:74-82 | Only the current socket can open; it resets the retry delays and records that a relay has opened |
| Reconnect.Connection.ScheduleLocalReconnect | frontend/pcap/app.js:124-133 | Sets at most one timer, with the exponential delay |
| Reconnect.Connection.ScheduleRelayReconnect | frontend/pcap/app.js:135-150 | Gives up after three attempts, else sets at most one timer |
| Reconnect.LocalDelaysMonotone | frontend/pcap/app.js:127 | The delays of consecutive local failures stay in 3000 to 30000 milliseconds and never shrink |
| RateLimit.EvictionUnobservable | internal/shared/ratelimit.go:34-52 | With buckets that refill within the entry lifetime, eviction changes no decision of any trace with nondecreasing times |
| RateLimit.EvictionUnobservableIff | internal/shared/ratelimit.go:34-52 | Eviction is unobservable on all such traces if and only if burst is at most rate times fifteen minutes |
| RateLimit.EntriesAreRecent | internal/shared/ratelimit.go:37-47 | After every request each remaining entry was seen less than sixteen minutes ago |
| RateLimit.OldIsFull | internal/shared/ratelimit.go:39-41 | An entry old enough to be deleted has a full bucket |
| RateLimit.TakeAgrees | internal/shared/ratelimit.go:34-67 | One request is decided alike by the evicting map and by one that remembers every client, and they stay in agreement |
| RateServer.ServerForgetsUnobservably | internal/shared/ratelimit.go:54-67 | The same for all route groups together, behind the shared global bucket |
| RateService.ServedIff | internal/shared/ratelimit.go:34-67 | The exact service law of a limiter: a request passes if and only if for every request of its client up to this one the number passed since then and this one make at most burst plus rate times the time between, across evictions |
| RateService.ServerServesIff | internal/shared/ratelimit.go:54-67 | The exact service law of the whole server: a request gets a global token if and only if all requests that got one since each earlier request leave room for it, and then passes if and only if those of its client in its group do; what the global bucket refuses costs the client nothing, what the client bucket refuses has used a global token |
| RateService.DeniedLeavesNoTrace | internal/shared/ratelimit.go:61 | A denied request leaves no trace: the bucket gains as if it had not been asked |
| RateServer.TotalBounded | internal/shared/ratelimit.go:54-67 | Over any stretch of a run all route groups together pass at most the global burst plus the global rate times its length |
| RateServer.ClientBounded | internal/shared/ratelimit.go:34-67 | Over any stretch of a run one client of one group passes at most burst plus rate times its length, across evictions |
| RateServer.ConfiguredServer | cmd/server/main.go:56-60 | For the configured limits: at most 120 + 10 T requests in all, 30 + T / 2 of one standard client, and no decision depends on eviction |
| RateServer.ConfiguredRefills | cmd/server/main.go:56-87 | Every configured client bucket refills in sixty seconds |
| RateHeap.TokenBucket.Allow | internal/shared/ratelimit.go:56-61 | The bucket gains up to burst, allows a request that finds a whole token, and loses exactly that token or nothing |
| RateHeap.RateLimiter.Forget | internal/shared/ratelimit.go:38-42 | The deletion loop removes exactly the entries not seen for fifteen minutes |
| RateHeap.RateLimiter.Get | internal/shared/ratelimit.go:34-52 | The map changes in place as the specification says, and the client gets its own bucket |
| RateHeap.RateLimiter.Middleware | internal/shared/ratelimit.go:54-67 | Passes exactly if the global bucket, when there is one, and then the client bucket allow it; a busy server leaves the map alone, a client over its limit has used a global token |
| ScanTargets.HostsExact | internal/scanner/scanner.go:105-124 | For an IPv4 network the hosts are exactly the addresses strictly between network and broadcast, ascending, if and only if it is not 255.255.255.255/32, where start + 1 wraps around |
| ScanTargets.HostsWrapped | internal/scanner/scanner.go:118 | For 255.255.255.255/32 the loop runs from 0.0.0.0 through 2^32 - 1 addresses |
| ScanTargets.HostsCount | internal/scanner/scanner.go:105-124 | There are max(0, 2^(32-n) - 2) of them, at most 254 from /24 on |
| ScanTargets.EnumerateHosts | internal/scanner/scanner.go:105-124 | The or of start and inverted mask and the wrapping 32-bit loop compute that list |
| ScanTargets.EnumerateRange | internal/scanner/scanner.go:117-123 | The loop itself, with 32-bit increments |
| ScanTargets.OrIsBroadcast | internal/scanner/scanner.go:113-115 | The or of start and inverted mask is the last address of the network |
| ScanTargets.SubnetHosts | internal/scanner/scanner.go:78-101 | An accepted subnet is IPv4, at most a /24, and is scanned as exactly its inner addresses, all of them in scope although only the network address was tested |
| ScanTargets.AcceptedInScope | internal/scanner/scanner.go:78-101 | Whatever is accepted, the scanner gets distinct addresses in scope, at most 254 |
| ScanTargets.NetworkInScope | internal/scanner/scanner.go:85-88 | A network of /24 or smaller whose network address is in scope lies in scope entirely |
| ScanTargets.ValidationAgrees | internal/scanner/handlers/scan.go:71-93 | The check of the handler and that of the scanner refuse the same inputs for the same reasons |
| ScanAccepts.ResolvesIff | internal/scanner/scanner.go:78-101 | A subnet is accepted if and only if it is a /24 or smaller and all its addresses are in the five local ranges, a single address if and only if it is; each refusal has its own reason, size before scope |
| ScanAccepts.LabAcceptsIff | internal/scanner/handlers/scan.go:132-155 | The lab accepts a subnet if and only if it is an IPv4 /24 or smaller, all its addresses are LAN addresses, and its lowest and highest address are in the allowlist; a single address if and only if it is a LAN address in it |
| ScanTargets.LastIPv4 | internal/scanner/handlers/scan.go:166-176 | Fills each of the four bytes with the or of its byte of the address and of the inverted mask |
| ScanTargets.LastIsBroadcast | internal/scanner/handlers/scan.go:166-176 | Read as a word those bytes are the broadcast address the scanner computes on 32-bit words |
| ScanTargets.OrBytes | internal/scanner/handlers/scan.go:172-174 | Or on 32-bit words is Or on their bytes |
| ScanLab.ControlledResolves | internal/scanner/handlers/scan.go:132-150 | Every target the lab accepts the scanner resolves, and every host then scanned is private |
| ScanLab.WideBlocksCover | internal/scanner/handlers/scan.go:157-164 | With allowed blocks at least as wide as the target every host scanned is in the allowlist |
| ScanLab.StaysInsideIff | internal/scanner/handlers/scan.go:132-164 | For one accepted subnet and a given allowlist: every host scanned is in the allowlist if and only if the list aggregates over the network, that is, a block holds all of it or the list aggregates over both halves |
| ScanLab.ConfinesIff | internal/scanner/handlers/scan.go:132-164 | For a given allowlist: every accepted target is scanned inside it if and only if it aggregates over each accepted network that starts where one of its blocks starts and ends where one ends |
| ScanLab.AggregatesIff | internal/scanner/handlers/scan.go:157-164 | A list of blocks aggregates over a network exactly if it holds each of its addresses |
| ScanLab.ConfinesByShape | internal/scanner/handlers/scan.go:132-164 | About prefix lengths alone: all allowlists with these lengths, wherever their blocks lie, keep every accepted scan inside, if and only if there is an IPv4 /0 or there are no two IPv4 blocks of which one is longer than /24 and the other longer than /25 |
| ScanLab.NoGapConfines | internal/scanner/handlers/scan.go:139 | Without two such blocks no accepted target leads to a host outside the allowlist |
| ScanLab.LabTarget | internal/scanner/handlers/scan.go:139 | 10.0.0.0/24 is accepted when one block holds 10.0.0.0 and another 10.0.0.255; 10.0.0.128 is then scanned |
| ScanLab.PrivateNetwork | internal/scanner/handlers/scan.go:134-141 | The addresses of a small network whose ends are private are private |
| Classifiers.PublicIsNotBogon | internal/enrichment/services/outbound_target.go:38-59 | The two separately written classifiers agree on every IPv4 and IPv6 address: public if and only if not bogus |
| Classifiers.BogonIs | internal/enrichment/validators/validators.go:25-68 | The CIDR list of IsBogonIP as ranges of addresses |
| Classifiers.PoliciesNest | internal/scanner/handlers/scan.go:152-155 | Private lab addresses are in scope, and addresses in scope are bogus and not public |
| Classifiers.ScopeMeans | internal/scanner/scanner.go:27-55 | In scope are exactly the IPv4 private, loopback and link-local addresses; the private lab is the IPv4 private ones |
| Classifiers.PredicatesAreRanges | internal/enrichment/services/outbound_target.go:39-40 | The byte tests are the ranges of section 3 of RFC 1918 and their IPv6, multicast, loopback and link-local counterparts |
| Classifiers.ResolvesIffNoBogon | internal/enrichment/services/outbound_target.go:13-24 | A target resolves exactly if the answer is not empty and has no bogus address, and then all answers are delivered |
| Addresses.Nested | internal/scanner/scanner.go:47-55 | A block that holds one address of a block no wider than itself holds them all |
| ScanPool.Terminates | internal/scanner/scanner.go:139-188 | Under every schedule the scan takes at most 5 ips ports + workers + 5 steps, and some thread can always step until main is done |
| ScanPool.SendsNeverBlock | internal/scanner/scanner.go:139-157 | Both channels have room for whatever is sent, and nobody sends to a closed one |
| ScanPool.NeverStuck | internal/scanner/scanner.go:143-188 | In every reachable state before the end some thread is enabled |
| ScanPool.StepsCount | internal/scanner/scanner.go:143-188 | Every step of every thread lowers the measure of queued, in-flight and undrained work |
| ScanPool.StepKeeps | internal/scanner/scanner.go:143-188 | Every step conserves tasks and results, one by one |
| ScanPool.ProbesEachOnce | internal/scanner/scanner.go:170-188 | When main is done, what was dialed is the multiset of all tasks, what was collected is the multiset of those whose port is open, and all workers have finished |
| ScanResults.ScanExact | internal/scanner/scanner.go:184-205 | The answer lists the input addresses with an open port in input order, each with exactly its open ports as a multiset, whatever the schedule |
| ScanResults.ScanOfInput | internal/scanner/scanner.go:60-74 | The same for a whole accepted request, and every host named is in scope |
| ScanResults.HostMap | internal/scanner/scanner.go:185-188 | The map collects the reports of each address in order of arrival |
| ScanResults.CollectHosts | internal/scanner/scanner.go:191-204 | The host slice lists the addresses with reports in input order |
| CacheHistory.AnswersFromHistory | internal/shared/cache.go:43-112 | A lookup at time t delivers d exactly if the latest effective Set of the key stored d, has not expired at t and was not deleted since; cleanups make no difference wherever they come |
| CacheHistory.AnswersInTime | internal/shared/cache.go:8-12 | In plain numbers: an answer stands for an hour, for fifteen minutes if a source had failed, and a Set of which every source failed neither stands nor replaces what does |
| CacheHistory.AlwaysReflects | internal/shared/cache.go:43-112 | What the map holds is the latest Set; what it does not hold was never set, deleted, or cleaned up expired |
| CacheHistory.SelectTTL | internal/shared/cache.go:77-97 | The loop computes 0 when all sources failed, 15 minutes when some did, an hour otherwise and for no sources |
| CacheHeap.Cache.Get | internal/shared/cache.go:43-51 | Answers from the entry under the key, unless it has expired |
| CacheHeap.Cache.Set | internal/shared/cache.go:57-68 | Stores the entry with its expiry, or leaves everything as it was when all sources failed |
| CacheHeap.Cache.Delete | internal/shared/cache.go:71-75 | Removes just the key |
| CacheHeap.Cache.Cleanup | internal/shared/cache.go:99-112 | The loop removes exactly the expired entries |
| CacheHeap.Cache.Run | internal/shared/cache.go:28-112 | Any sequence of calls answers as the history says |
| LookupVerdicts.URLAnswer | internal/enrichment/handlers/url.go:61-95 | Whatever the order of the goroutines, a URL is malicious if and only if Safe Browsing succeeded and calls it unsafe, a scan that was asked for succeeded and calls it malicious, or the votes of a VirusTotal lookup that succeeded have a malicious majority; for review on any malicious or suspicious vote short of that, clean otherwise |
| LookupVerdicts.DomainAnswer | internal/enrichment/handlers/domain.go:46-93 | The same for a domain: malicious if and only if there is a voting majority and a pulse, for review on any malicious vote or any pulse short of that |
| LookupVerdicts.HashAnswer | internal/enrichment/handlers/hash.go:46-86 | The same for a hash: malicious if and only if there is a MalwareBazaar entry with a signature or file name, a threat label or a voting majority |
| LookupVerdicts.CachedFor | internal/shared/cache.go:77-97 | The answer is cached for an hour if all lookups succeeded, not at all if all failed, for fifteen minutes otherwise |
| FanOut.VerdictOfSuccesses | internal/enrichment/handlers/domain.go:46-93 | For every order in which the goroutines finish, the verdict and the cache TTL are the same, and the data of a failed source changes neither |
| FanOut.OrderIrrelevant | internal/enrichment/handlers/url.go:61-95 | Every variable, every outcome a verdict reads and the TTL are those of the goroutines finishing in start order; also with the conditional third source |
| FanOut.JudgesOutcome | internal/enrichment/handlers/hash.go:46-86 | The verdict is about the answers of the lookups it names |
| FanOut.FailuresIgnored | internal/enrichment/models/verdict.go:37-92 | Lookups that agree where they succeeded get the same verdict |
| FanOut.Gather | internal/enrichment/handlers/domain.go:46-93 | Whichever goroutine gets the mutex next, all of them store their answer and append their metadata once |
| Sources.SucceededIsMembership | internal/enrichment/models/verdict.go:98-105 | With distinct names the first-match search does not depend on the order |
| Verdicts.DomainMonotone | internal/enrichment/models/verdict.go:37-50 | More malicious votes never lower the domain tier |
| Verdicts.URLMonotone | internal/enrichment/models/verdict.go:55-71 | More malicious votes never lower the URL tier |
| Verdicts.HashMonotone | internal/enrichment/models/verdict.go:76-92 | More malicious votes never lower the hash tier |
| Verdicts.URLSuspicion | internal/enrichment/models/verdict.go:55-71 | More suspicious votes leave the URL tier as high or higher if and only if Safe Browsing or URLScan has a finding, VirusTotal did not answer, there was no voting majority, or it is still one |
| Verdicts.HashSuspicion | internal/enrichment/models/verdict.go:76-92 | The same for a hash, with a MalwareBazaar entry or a threat label as the other evidence |
| Verdicts.DomainSuspicion | internal/enrichment/models/verdict.go:37-50 | More suspicious votes lower the domain tier if and only if they break a voting majority that a pulse, both from lookups that succeeded, had made malicious |
| Verdicts.SuspicionMayLower | internal/enrichment/models/verdict.go:109-114 | Five malicious votes and no other make all three verdicts malicious, the domain with a pulse; five suspicious votes more take each of them back to review |
| Score.ScoreIPThreat | internal/enrichment/models/threat.go:22-97 | The accumulating function computes the specified score, within 0 to 100, and its tier: low from 10, medium from 25, high from 50, critical from 80 |
| ScoreLaws.BothSources | internal/enrichment/models/threat.go:48-80 | In whole numbers: with both sources the score is 6 times the abuse score and 4 times the percentage of malicious votes, in tenths, plus 5 points from 100 reports, 15 from 1000 and 10 for Tor, cut to 0 and 100 and rounded half up |
| ScoreLaws.AbuseOnly | internal/enrichment/models/threat.go:52-53 | Without VirusTotal it is the abuse score and the bonus |
| ScoreLaws.VotesOnly | internal/enrichment/models/threat.go:54-55 | Without AbuseIPDB it is the percentage of malicious votes, with 10 points for Tor; reports do not count |
| ScoreLaws.OnlyCleanVotes | internal/enrichment/models/threat.go:48-51 | Against any number of votes none of which is malicious six tenths of the abuse score remain: of 100, 60 |
| Score.IPVerdict | internal/enrichment/models/verdict.go:30-33 | An IP is malicious exactly from a score of 50 on |
| Score.BaseBetween | internal/enrichment/models/threat.go:48-58 | With both sources the score before the modifiers lies between the two components |
| Score.VTInRange | internal/enrichment/models/threat.go:31-46 | With counts that are not negative the detection ratio lies in 0 to 100 |
| Score.AbuseScoreMonotone | internal/enrichment/models/threat.go:27-29 | A higher abuse score never lowers score or tier |
| Score.ReportsMonotone | internal/enrichment/models/threat.go:60-67 | More reports never lower score or tier |
| Score.TorMonotone | internal/enrichment/models/threat.go:69-71 | The Tor flag never lowers score or tier |
| Score.MaliciousMonotone | internal/enrichment/models/threat.go:31-51 | More malicious votes never lower score or tier, not even where the first vote brings VirusTotal into the score |

## Left out

- WebSocket internals, ping and pong timers, deadlines and the upgrade itself: only success or failure of an upgrade, a read or a write is modelled, and a failed write breaks the connection for good.
- Randomness and constant-time comparison: session IDs are fresh, tokens are given, equalSecret is equality.
- RelayHeap.RelaySession.Reserve: one time is used for the age test and for lastUsed, while the source reads the clock twice; the clock never goes back. The same holds for a rate-limited request, which reads it twice.
- RelayHeap.Conn.WriteMessage: stands for the write of the WebSocket library, which is not part of this model; the network decides whether a write on a working connection succeeds.
- DOM, CSS and text formatting: rows and entries are their data, and an alert element is its identity with what it shows.
- AlertList.AlertPanel.AddAlert: lower-casing is that of ASCII letters, and numbers in the fields that form the ID are given as the text JavaScript makes of them.
- Dashboard panels for DNS, statistics, enrichment and MAC addresses, threat recolouring and the hardware dashboard: they would only add easy members.
- RateHeap.TokenBucket.Allow: golang.org/x/time/rate is not part of this model; a token bucket is modelled by its definition, over exact reals instead of float64.
- relayCredentials and isViewerOrigin, which read HTTP headers: a handler starts with its role and a token that is not empty.
- ClientIP and origin verification: a client is given by its key.
- Parsing of IP and CIDR text, and the domain, URL and hash patterns: the model starts from parsed addresses and from base and prefix length. CIDR text with an IPv4-mapped IPv6 address, whose mask has 16 bytes, is excluded.
- The methods of net.IP and net.IPNet are modelled by their definitions. A nil address, which no resolver delivers, is neither public nor bogus in the source and is not part of the model.
- Classifiers.ResolvesIffNoBogon: a resolver error and an empty answer are one outcome; the context and the lookup are not modelled.
- ScanTargets.SubnetHosts: the subnet text that resolveTargets echoes is not modelled.
- The service name and OT flag of an open port, which are functions of the port number, the dial timeout and the JSON of a scan.
- ScanPool.Terminates: whether a dial succeeds is a fixed function of address and port, so a scan is compared with one state of the network; a dial takes one step.
- Provider clients, JSON, logging and HTTP plumbing: a lookup delivers an arbitrary outcome and arbitrary data. Error texts and retrieval times of the metadata are not modelled.
- CacheHeap.Cache.Set: data is a value, so the model does not capture that the source shares the caller's byte slice.
- Verdicts.HashMonotone: trimming white space knows the characters of Latin-1 only.
- Score.ScoreIPThreat: exact reals instead of float64, so a score within a rounding error of a half may round differently.
