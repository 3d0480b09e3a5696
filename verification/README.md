# A verified model of the ARP reverse proxy

ARP tunnels user connections through a client behind a firewall. Many user connections share a few byte
streams, a framed control protocol turns into raw streams half-way through a connection, and several tables
(work connections, ports, proxies, groups, host names, pending requests) are changed by concurrent tasks.
This project models that core in Dafny and proves what it is for: no stream gets another stream's bytes, no
byte is lost at a handover, no connection or port is given out twice, and an answer goes to its own question under
conditions stated exactly.

`dafny verify dfyconfig.toml` checks everything. Nothing here is executed.

| files | what they cover |
|---|---|
| `MuxCodec`, `MuxProtocol`, `MuxWire`, `MuxTunnel` | the tcp_mux tunnel: frames, the two-ended protocol, its refinement down to bytes, one end as an object |
| `MessageCodec`, `Handover` | the message codec and the change from framed messages to a raw stream |
| `Sni`, `Vhost`, `RoundRobin` | the TLS server-name parser, the virtual-host table and its round robin |
| `WorkConns` | pairing of work-connection requests and connections |
| `Ports`, `Registry`, `GroupPicker` | port allocation, the proxy registry, load-balanced groups |
| `Throttle` | the token bucket |
| `UdpCodec`, `UdpTunnel`, `UdpWire` | udp tunnel frames, request correlation, and the same over bytes |
| `NatHole` | XTCP coordination |
| `Base64`, `BasicAuth` | the command line's credentials against the admin server's check |
| `Bytes`, `ByteIo`, `Utf8`, `Text` | octets, readers and writers, UTF-8, string operations |

Code that updates objects is modelled as classes, loops as loops; each method is proved against a function or
against steps of a transition system, and the properties are proved of those over every run. In the mux and udp
tunnels, the work connections, the group picker, the token bucket and XTCP a step is one lock section or one
channel operation, so every interleaving of the tasks is a run. In the registry and the virtual-host table a step
is one whole call.

## What was found

Some properties one would expect do not hold of the code. Each has a concrete or general counterexample and
the exact condition under which the code is right.

- The server-name parser does not stop at the end of the handshake message: after a hello without an extension list
  it reads whatever else the record holds as one (`Sni.ReadsPastHello`, `Sni.ForeignExtensions`). Its result is right
  exactly when the hello has an extension list or those bytes hold no name in the place of one (`Sni.Completeness`).
- Plain `into_inner` drops the read-ahead: a message and the first raw bytes in one network read lose those bytes
  (`Handover.FirstPacketLost`). It is lossless exactly when the network ends a read where the last message ends
  (`Handover.PlainIntoInner`). `into_inner_with_read_buf` is lossless for every chunking (`Handover.NoByteLost`);
  the mux and udp tunnels and the client's work connections use it. Plain `into_inner` is used by the server's
  relay of tcp and http work connections (crates/arp-server/src/proxy/tcp.rs:674 and 685, vhost.rs:308 and 354)
  and by both ends of an stcp visitor connection (crates/arp-server/src/service.rs:526-527,
  crates/arp-client/src/control/mod.rs:586). An stcp visitor sends raw bytes right after its handshake, so there
  the loss can happen.
- A waiting request and an idle connection can coexist (`WorkConns.WaitingBesideIdle`), in exactly the runs in which
  a connection is parked between a request's look at the pool and its push (`WorkConns.WaitingBesideIdleIff`).
- A failed registration can move the dynamic port cursor (`Registry.FailedRegistrationMoves`), exactly when it drew a
  random port, and changes nothing else (`Registry.FailedRegistration`).
- Evicting a proxy by name can drop another run's live xtcp proxy from the registry
  (`Registry.EvictionOrphansXtcp`); eviction is right exactly under `CleanEviction` (`Registry.EvictionExact`).
- Suffix matching of names is exact for names without ':', and otherwise also takes longer names
  (`Registry.KeysSelectExactly`).
- Round robin is fair exactly when the counter's wrap is outside the window or invisible
  (`RoundRobin.FairIffNoVisibleWrap`, `GroupPicker.WrapStarves`).
- `consume` under-charges exactly when both the amount and the rate need more than 32 bits
  (`Throttle.RequestsExact`).
- A second datagram from the local udp service is returned as the answer to the next request
  (`UdpTunnel.SecondDatagramGoesToNext`, and a whole run in `UdpTunnel.WrongAnswerDelivered`). The k-th request the
  client takes up is answered with datagram k, so an answer is right exactly when datagram k was sent for it
  (`UdpTunnel.OwnAnswerIff`, over bytes `UdpWire.AnswersOverBytes`); with at most one datagram per packet all are
  (`UdpTunnel.OwnAnswer`).
- An XTCP response is matched by address alone, whoever sends it (`NatHole.OtherRunAnswers`, `NatHole.OtherRunHappens`);
  all forwarded responses come from the owners asked exactly when whoever responds to an address that an owner was
  asked about is the owner asked last (`NatHole.OwnersAnswerIff`).
- A shared secret that is empty, contains '|' or has white space at its ends can never be presented
  (`NatHole.PresentableKeys`).
- The admin server refuses the command line's own credentials exactly when user and password are both set and the
  user contains ':' (`BasicAuth.OwnCredentialsWork`). With either part empty it installs no check at all.

Both mux protocols answer a Ping, but nothing in the repository sends one; the models let either side send
them at any time.

## Model

| member | source | states |
|---|---|---|
| MuxCodec.WriteMuxFrame | crates/arp-common/src/transport/mux.rs:22-53 | field by field, the writer puts exactly the wire form on the connection, or the prefix of it that fits before the connection fails, and succeeds iff all fits |
| MuxCodec.ReadMuxFrame | crates/arp-common/src/transport/mux.rs:55-92 | reading field by field gives what `Read` gives on the remaining bytes: a frame and the rest, end of stream, or a protocol error, and consumes exactly that frame |
| MuxCodec.ReadWrite | crates/arp-common/src/transport/mux.rs:20-92 | a written frame followed by anything reads back as itself iff its payload is within 1 MiB |
| MuxCodec.ReadOk | crates/arp-common/src/transport/mux.rs:55-92 | whatever bytes a frame was read from start with exactly the wire form of that frame, and the frame is within the limit |
| MuxCodec.ReadExtend | crates/arp-common/src/transport/mux.rs:55-92 | later bytes never change a frame that was already complete |
| MuxCodec.ReadAllWriteAll | crates/arp-common/src/transport/mux.rs:22-92 | reading the concatenation of written frames returns the same list and ends cleanly |
| MuxCodec.Truncation | crates/arp-common/src/transport/mux.rs:22-92 | any truncation of written frames reads as a prefix of the list, never as a different frame, and as the whole list only if nothing is cut |
| MuxCodec.ReadAllOnto | crates/arp-common/src/transport/mux.rs:55-92 | every byte string that ends without a protocol error starts with the wire form of the frames read from it |
| MuxProtocol.Invariant | crates/arp-server/src/proxy/tcp.rs:82-144 | every step of either end keeps, for every stream id at once, the delivery and opening invariants and the frame limits, over every run |
| MuxProtocol.FaithfulDelivery | crates/arp-server/src/proxy/tcp.rs:92-144 | in every run, per stream and direction, delivered bytes are a prefix of sent bytes; while the receiver has the id and the link is up, delivered, held and travelling bytes are exactly the sent ones |
| MuxProtocol.NothingBeforeOpen | crates/arp-client/src/proxy/tcp.rs:96-139 | the client neither registers nor sends nor receives anything on a stream whose Open has not reached it |
| MuxProtocol.Reachable | crates/arp-server/src/proxy/tcp.rs:768-777 | in every reachable state every frame queued or travelling, from either relay loop or reader, is within the reader's limit, and every stream satisfies the delivery and opening invariants |
| MuxProtocol.ReaderStepDecreases | crates/arp-client/src/proxy/tcp.rs:96-139 | handling a frame leaves strictly less work: an answer is lighter than what it answers |
| MuxProtocol.ReadersTerminate | crates/arp-server/src/proxy/tcp.rs:92-111 | with no new input, the number of reader steps is bounded by the work in flight, so unknown-stream Close replies cannot echo forever |
| MuxProtocol.ReadersDrain | crates/arp-server/src/proxy/tcp.rs:82-113 | the readers only stop with nothing in hand and each link drained or its reader gone |
| MuxWire.ActionRefines | crates/arp-server/src/proxy/tcp.rs:65-113 | every action over bytes (queueing, writing one frame, parsing one, failing, breaking at any octet) is a step of the frame-level protocol or none |
| MuxWire.Refinement | crates/arp-server/src/proxy/tcp.rs:58-113 | every run over the two byte streams is a run of the frame-level protocol with the same endpoints |
| MuxWire.FaithfulOverBytes | crates/arp-client/src/proxy/tcp.rs:87-140 | in every run over bytes, wherever the connection breaks, each stream delivers a prefix of what was sent on it, both ways |
| MuxWire.NeverProtocolError | crates/arp-server/src/proxy/tcp.rs:83-91 | no run makes a reader see a protocol error; on a live connection what has arrived always parses |
| MuxWire.BreakFrames | crates/arp-server/src/proxy/tcp.rs:72-79 | a connection lost at any octet delivers a prefix of the frames it would have carried |
| MuxTunnel.MuxEnd.OpenStream | crates/arp-server/src/proxy/tcp.rs:123-132 | takes the next 32-bit id, registers it and queues Open; until the counter wraps this is exactly the protocol's reserve and send-open steps |
| MuxTunnel.MuxEnd.SendData | crates/arp-server/src/proxy/tcp.rs:134-139 | queues any payload on any id; from a running relay with what its buffer can hold this is exactly the protocol's send step |
| MuxTunnel.MuxEnd.CloseStream | crates/arp-server/src/proxy/tcp.rs:141-144 | unregisters that id only and queues Close; for a running relay this is exactly the two halves of the protocol's shutdown |
| MuxTunnel.MuxEnd.HandleFrame | crates/arp-server/src/proxy/tcp.rs:92-111 | one turn of either reader loop on any frame is exactly the protocol's receive step run to its end |
| MuxTunnel.MuxEnd.HandleData | crates/arp-client/src/proxy/tcp.rs:122-131 | a Data frame is delivered, dropped with the stream unregistered, or answered with Close, exactly as the protocol says |
| MessageCodec.EncodeInto | crates/arp-common/src/protocol/codec.rs:13-35 | appends exactly the encoding, or nothing on error |
| MessageCodec.DecodeFrom | crates/arp-common/src/protocol/codec.rs:42-75 | takes exactly one message off the buffer; an incomplete message or a length error leaves the buffer unchanged |
| MessageCodec.DecodeEncode | crates/arp-common/src/protocol/codec.rs:13-75 | an encoded message followed by anything decodes to itself and leaves exactly what follows |
| MessageCodec.DecodePartial | crates/arp-common/src/protocol/codec.rs:42-75 | every proper prefix of an encoding asks for more |
| MessageCodec.DecodeExtend | crates/arp-common/src/protocol/codec.rs:42-75 | once the decoder has an outcome, later bytes only extend what is left |
| Handover.ChunkingIrrelevant | crates/arp-common/src/transport/mod.rs:49-61 | what `recv` returns and what is left depend on the bytes, not on how the network cut them |
| Handover.RecvAll | crates/arp-common/src/transport/mod.rs:49-61 | from every chunking of encodings followed by raw bytes, exactly the messages are received and exactly the raw bytes are left |
| Handover.MessageTransport.RecvNext | crates/arp-common/src/transport/mod.rs:49-61 | one `recv` on the object is one `Recv` on its buffer and pending chunks |
| Handover.MessageTransport.IntoInnerWithReadBuf | crates/arp-common/src/transport/mod.rs:67-70 | hands over the connection and the whole read-ahead |
| Handover.MessageTransport.IntoInner | crates/arp-common/src/transport/mod.rs:63-65 | hands over what the connection will still deliver, which together with the dropped read-ahead is what was left |
| Handover.PlainIntoInner | crates/arp-common/src/transport/mod.rs:63-65 | for every chunking of m1..mk and raw bytes, taking only the connection after mk loses exactly the read-ahead, and nothing iff a chunk ends where mk ends |
| Handover.FirstPacketLost | crates/arp-server/src/service.rs:526 | a message and raw bytes in one chunk: the message is received, the connection alone then yields none of the raw bytes |
| Handover.PollReadConserves | crates/arp-common/src/transport/prefixed.rs:24-41 | one read neither loses nor reorders bytes, fits the caller's buffer, and reports the end only at the end |
| Handover.PrefixedStream.Read | crates/arp-common/src/transport/prefixed.rs:24-41 | the moving cursor returns what `PollRead` says and conserves the bytes still to come |
| Handover.ReadsConserve | crates/arp-common/src/transport/prefixed.rs:24-41 | for every sequence of buffer sizes, what was read followed by what is left is what was there |
| Handover.ReadsComplete | crates/arp-common/src/transport/prefixed.rs:24-41 | a reader with non-empty buffers gets everything in finitely many reads |
| Handover.NoByteLost | crates/arp-common/src/transport/mod.rs:49-70 | for every chunking of m1..mk and raw bytes: exactly m1..mk are received, and the prefixed stream yields exactly the raw bytes to every reader |
| Sni.ParseTlsSni | crates/arp-server/src/proxy/vhost.rs:478-559 | the index-based parser stays inside the record, terminates, and returns what the parser by suffixes returns |
| Sni.FindExtension | crates/arp-server/src/proxy/vhost.rs:525-556 | the loop over extensions returns the outcome of the first server_name extension |
| Sni.FindHostName | crates/arp-server/src/proxy/vhost.rs:535-552 | the loop over name entries returns the first host_name, or nothing on a bad length |
| Sni.Soundness | crates/arp-server/src/proxy/vhost.rs:478-559 | for every byte string, a returned name is UTF-8 and is the first host_name of the first server_name extension of the declared list, reached by going through whole extensions and whole entries |
| Sni.FoundIsReturned | crates/arp-server/src/proxy/vhost.rs:478-559 | conversely, a name at such a place of any byte string is what the parser returns if it is UTF-8 |
| Sni.Completeness | crates/arp-server/src/proxy/vhost.rs:478-559 | for every well-formed ClientHello at the start of a record, with anything after it, the result is the first host_name of the first server_name extension if it is UTF-8, else nothing, iff the hello has an extension list or the bytes after it hold no UTF-8 host_name at the place of one |
| Sni.ReadsPastHello | crates/arp-server/src/proxy/vhost.rs:515-523 | for a hello without extension list the result is whatever the bytes after it announce |
| Sni.ForeignExtensions | crates/arp-server/src/proxy/vhost.rs:515-556 | every name announced by extensions after such a hello is returned |
| Vhost.AddAllRefines | crates/arp-server/src/proxy/vhost.rs:181-205 | adding keeps the table well formed and adds exactly the pairs of that route key with those domains |
| Vhost.RemoveRefines | crates/arp-server/src/proxy/vhost.rs:114-146 | removing keeps the table well formed and removes exactly the pairs with that route key |
| Vhost.RemoveKeepsOrder | crates/arp-server/src/proxy/vhost.rs:134-145 | removal keeps the order of the other routes and their counter, and does not touch other domains |
| Vhost.LookupRefines | crates/arp-server/src/proxy/vhost.rs:284-299 | a lookup answers iff the domain has a route, with a route of that domain, and changes no route |
| Vhost.TableIsPairSet | crates/arp-server/src/proxy/vhost.rs:114-205 | through every sequence of additions, removals and lookups the table has equal key sets, non-empty lists of distinct keys, and is the set of (domain, key) pairs wanted |
| Vhost.LookupsAreFair | crates/arp-server/src/proxy/vhost.rs:291-296 | as many consecutive lookups as there are routes hit each exactly once iff the counter's wrap is not visible |
| Vhost.VhostRoutes.AddRoutes | crates/arp-server/src/proxy/vhost.rs:181-205 | the loop over domains changes both maps exactly as the specification says |
| Vhost.VhostRoutes.UnregisterRoute | crates/arp-server/src/proxy/vhost.rs:114-146 | the loop over collected domains removes exactly that route key everywhere, in any order of the domains |
| Vhost.VhostRoutes.NextRoute | crates/arp-server/src/proxy/vhost.rs:284-299 | returns the route the specification names and moves that domain's counter |
| RoundRobin.FairIffNoVisibleWrap | crates/arp-server/src/proxy/vhost.rs:291-296 | len consecutive values of a wrapping counter, modulo len, are all distinct and cover everything iff the wrap is outside the window or the modulus is a multiple of len |
| RoundRobin.WrapMisses | crates/arp-server/src/proxy/tcp.rs:568 | a visible wrap makes the window miss a target altogether |
| WorkConns.NothingLostOrDuplicated | crates/arp-server/src/control/mod.rs:244-285 | in every interleaving each connection and each request is in exactly one place once known |
| WorkConns.MatchedOnce | crates/arp-server/src/control/mod.rs:421-444 | no connection goes to two requests and no request gets two connections |
| WorkConns.GivenIsGone | crates/arp-server/src/control/mod.rs:421-444 | what was given is in neither queue, pool nor roll-back |
| WorkConns.FirstComeFirstServed | crates/arp-server/src/control/mod.rs:268-285 | queued requests are taken in order, and the request being rolled back is the last of the queue or already served |
| WorkConns.RollBackExact | crates/arp-server/src/control/mod.rs:273-281 | `pop_back` after a failed announcement removes exactly the request just pushed, or nothing because it was already served |
| WorkConns.WaitingBesideIdleIff | crates/arp-server/src/control/mod.rs:255-271 | in every run a waiting request and an idle connection coexist at some point iff a connection is parked between some request's look at the pool and its push |
| WorkConns.WaitingBesideIdle | crates/arp-server/src/control/mod.rs:255-271 | such a run |
| WorkConns.Control.HandleWorkConnRequest | crates/arp-server/src/control/mod.rs:244-285 | an undisturbed request is exactly the lock-level steps of its branch |
| WorkConns.Control.HandleWorkConn | crates/arp-server/src/control/mod.rs:421-444 | an undisturbed connection is exactly the lock-level steps of its branch |
| Ports.ResourceController.AllocateTcpPort | crates/arp-server/src/resource/mod.rs:39-54 | a fixed port is granted iff allowed and free, and is then allocated; the cursor stays |
| Ports.ResourceController.AllocateRandomTcpPort | crates/arp-server/src/resource/mod.rs:56-74 | the 1000-step loop is the search by specification and keeps the cursor in 10000..65535 |
| Ports.ResourceController.IsPortAllowed | crates/arp-server/src/resource/mod.rs:82-89 | the loop answers iff some configured range contains the port |
| Ports.SearchFirst | crates/arp-server/src/resource/mod.rs:56-74 | the search returns the first allowed free port among the next cursor values and fails only if there is none |
| Ports.CursorCyclic | crates/arp-server/src/resource/mod.rs:58-63 | the cursor runs through 10000..65535 cyclically |
| Ports.SearchMoves | crates/arp-server/src/resource/mod.rs:56-74 | a random allocation, successful or not, never leaves the cursor where it was |
| Ports.FiftySixFailures | crates/arp-server/src/resource/mod.rs:56-74 | 56 consecutive failures, whatever is allocated or released between them, rule out an allowed port in 10000..65534 that stayed free |
| Ports.FiftyFiveFailuresHappen | crates/arp-server/src/resource/mod.rs:56-74 | 55 failures do happen with a free allowed port |
| Registry.FailedRegistration | crates/arp-server/src/proxy/mod.rs:87-297 | a failed registration changes nothing but the cursor, that exactly as far as its port search went, and nothing at all iff it drew no random port |
| Registry.FailedRegistrationMoves | crates/arp-server/src/proxy/mod.rs:87-297 | a registration that fails at its bind and has moved the cursor |
| Registry.Invariant | crates/arp-server/src/proxy/mod.rs:87-368 | every registration, removal and eviction keeps ports, groups, records and the stcp registry in agreement, over every run |
| Registry.PortsAreHeldOnce | crates/arp-server/src/proxy/mod.rs:87-368 | in every reachable state the allocated ports are the disjoint union of ports of live tcp/udp proxies, xtcp relays and groups |
| Registry.CloseFreesOnlyItsOwn | crates/arp-server/src/proxy/mod.rs:299-368 | no removal frees a port another live proxy or remaining group holds |
| Registry.GroupsAndRecordsAgree | crates/arp-server/src/proxy/tcp.rs:461-484 | proxies and records have the same keys, and a group is in the map iff it has a live member |
| Registry.StcpOwner | crates/arp-server/src/proxy/mod.rs:161-186 | in every reachable state the stcp registry maps a name to run r iff r's stcp proxy of that name is live |
| Registry.EvictionExact | crates/arp-server/src/proxy/mod.rs:313-342 | eviction keeps the xtcp registry exact iff it takes the listed proxy or the name is not listed |
| Registry.XtcpOwner | crates/arp-server/src/proxy/mod.rs:213-266 | over every run with such evictions the xtcp registry maps a name to run r iff r's xtcp proxy of that name is live |
| Registry.EvictionOrphansXtcp | crates/arp-server/src/proxy/mod.rs:313-342 | a run in which eviction unlists another run's live xtcp proxy |
| Registry.KeysSelectExactly | crates/arp-server/src/proxy/mod.rs:344-368 | over every run with colon-free run ids, prefix "run:" selects exactly that run's proxies, and suffix ":name" exactly that name for colon-free names |
| Registry.ProxyManager.RegisterNew | crates/arp-server/src/proxy/mod.rs:87-297 | registration on the maps is the registration of the specification, with its success flag |
| Registry.ProxyManager.JoinGroup | crates/arp-server/src/proxy/mod.rs:115-158 | joining a group creates or extends it exactly as specified, and allocates a port only for a new group |
| Registry.ProxyManager.CloseProxy | crates/arp-server/src/proxy/mod.rs:478-518 | closing gives back exactly what the specification says that kind of proxy holds |
| Registry.ProxyManager.UnregisterProxy | crates/arp-server/src/proxy/mod.rs:299-311 | removes exactly the named proxy of that run, or nothing |
| Registry.ProxyManager.EvictProxyByName | crates/arp-server/src/proxy/mod.rs:313-342 | evicts one key with that suffix, or changes nothing when there is none |
| Registry.ProxyManager.UnregisterRunProxies | crates/arp-server/src/proxy/mod.rs:344-368 | the new state is a run of removals of that run's keys, after which no key of that run and every other proxy is left |
| Text.SuffixIsName | crates/arp-server/src/proxy/mod.rs:315-325 | a key ends in ":name" iff its name is that name or itself ends in ":name" |
| Text.PrefixIsRun | crates/arp-server/src/proxy/mod.rs:345-357 | a key starts with "run:" iff its run is that run |
| GroupPicker.PickExact | crates/arp-server/src/proxy/tcp.rs:561-579 | a pick returns an un-ejected member, and nothing iff there is no member or all are ejected |
| GroupPicker.PickNearest | crates/arp-server/src/proxy/tcp.rs:569-577 | the member returned is the first un-ejected one at or after the round-robin start |
| GroupPicker.PickKeepsHealth | crates/arp-server/src/proxy/tcp.rs:569-577 | a pick changes no member's health at any later time |
| GroupPicker.PickerIsFair | crates/arp-server/src/proxy/tcp.rs:561-606 | with fixed membership, a backend un-ejected at every pick is returned within any len picks, through any failures and recoveries, while the counter does not wrap visibly |
| GroupPicker.WrapStarves | crates/arp-server/src/proxy/tcp.rs:568 | a visible wrap makes len picks miss a healthy backend of a healthy group |
| GroupPicker.EjectedForFiveSeconds | crates/arp-server/src/proxy/tcp.rs:592-606 | after a failure at t, through any run that reports nothing about the member, it is ejected at now iff now < t + 5 s, so not picked before and eligible from then on |
| GroupPicker.NotPickedForFiveSeconds | crates/arp-server/src/proxy/tcp.rs:569-606 | after a failure at t it is not picked before t + 5 s through any run without a success report or removal of it, whatever further failures |
| GroupPicker.GroupedTcp.AddBackend | crates/arp-server/src/proxy/tcp.rs:440-459 | adds a healthy backend unless its id is there; ids stay distinct |
| GroupPicker.GroupedTcp.RemoveBackend | crates/arp-server/src/proxy/tcp.rs:461-465 | removes exactly that id and reports whether it was the last |
| GroupPicker.GroupedTcp.FirstHealthy | crates/arp-server/src/proxy/tcp.rs:569-577 | the loop over offsets finds the position the specification names |
| GroupPicker.GroupedTcp.PickBackend | crates/arp-server/src/proxy/tcp.rs:561-579 | returns the specified backend, clears its past deadline and moves the counter |
| GroupPicker.GroupedTcp.MarkBackendSuccess | crates/arp-server/src/proxy/tcp.rs:581-590 | clears failures and deadline of that backend and changes no other |
| GroupPicker.GroupedTcp.MarkBackendFailure | crates/arp-server/src/proxy/tcp.rs:592-606 | counts a failure of that backend, sets its deadline and changes no other |
| Throttle.ConsumeRequests | crates/arp-common/src/transport/throttle.rs:47-61 | the loop asks the semaphore for exactly the chunks of the specification |
| Throttle.RequestsExact | crates/arp-common/src/transport/throttle.rs:47-61 | the chunks add up to the bytes asked for iff the amount or the rate fits in 32 bits |
| Throttle.PermitsBounded | crates/arp-common/src/transport/throttle.rs:29-41 | in every reachable state permits, with what the refill task is about to add, and permits with what a waiter holds, are at most the rate; tokens are conserved |
| Throttle.RateBound | crates/arp-common/src/transport/throttle.rs:19-61 | over any window with n refills, at most rate + n * max(1, rate / 10) bytes are granted, under every interleaving |
| Throttle.ConsumeExact | crates/arp-common/src/transport/throttle.rs:47-61 | every call is granted its chunks in order, none above the rate, and in total exactly its bytes under the condition of `RequestsExact` |
| Throttle.ServedInTime | crates/arp-common/src/transport/throttle.rs:32-56 | from any reachable state, a waiting request is met as soon as the refills cover what it and those before it lack, plus what a refill already in hand is short of a full one, whoever else asks |
| UdpCodec.WriteUdpMuxFrame | crates/arp-common/src/transport/udp_mux.rs:27-77 | field by field, exactly the wire form or the prefix of it that fits; nothing at all for an over-long address |
| UdpCodec.ReadUdpMuxFrame | crates/arp-common/src/transport/udp_mux.rs:79-126 | reading field by field gives what `Read` gives: a frame and the rest, end of stream, or a protocol error |
| UdpCodec.ReadWrite | crates/arp-common/src/transport/udp_mux.rs:27-126 | a frame is written and reads back as itself iff address and payload are within the limits |
| UdpCodec.ReadOk | crates/arp-common/src/transport/udp_mux.rs:79-126 | whatever bytes a frame was read from start with exactly its wire form |
| UdpCodec.ReadTruncated | crates/arp-common/src/transport/udp_mux.rs:79-126 | a frame cut anywhere reads as end of stream |
| UdpCodec.Truncation | crates/arp-common/src/transport/udp_mux.rs:27-126 | any truncation of written frames reads as a prefix of the list, and as the whole list only if nothing is cut |
| UdpTunnel.DecodeEncode | crates/arp-server/src/proxy/udp.rs:261-279 | in every configuration decrypt-then-decompress undoes compress-then-encrypt |
| UdpTunnel.StepKeeps | crates/arp-client/src/proxy/udp.rs:54-107 | every step of server, client, service or connection keeps the correlation invariant |
| UdpTunnel.OwnAnswerIff | crates/arp-client/src/proxy/udp.rs:54-107 | in every run, a payload returned to a user goes where the packet came from, the service got exactly that packet, and the payload is datagram k if the request was the k-th taken up; it is the request's own answer if datagram k was sent for it, and only then where datagrams can be told apart |
| UdpTunnel.OwnAnswer | crates/arp-server/src/proxy/udp.rs:67-128 | in every run in which the service sends at most one datagram per packet, every payload returned is the service's datagram for that user's own packet, also beside time-outs and failed posts |
| UdpTunnel.AtMostOnce | crates/arp-server/src/proxy/udp.rs:77-83 | no request is answered twice, in any run |
| UdpTunnel.SecondDatagramGoesToNext | crates/arp-client/src/proxy/udp.rs:71-92 | from every reachable state in which the client serves one request, has its datagram and finds another request, a second datagram is delivered to the user of the other request |
| UdpTunnel.WrongAnswerDelivered | crates/arp-client/src/proxy/udp.rs:71-92 | a run from the start, for any two packets, that ends in such a delivery |
| UdpTunnel.WireFaithful | crates/arp-server/src/proxy/udp.rs:56-63 | everything either side queues fits the frame limits, so both directions read back as sent, or as a prefix when the connection is lost |
| UdpWire.ActionSimulates | crates/arp-server/src/proxy/udp.rs:56-95 | every action over bytes (queueing, writing one frame, parsing one at either end, failing, breaking either direction at any octet) is a step of the frame-level protocol or none |
| UdpWire.Simulation | crates/arp-client/src/proxy/udp.rs:54-107 | every run over bytes is simulated by a run of the frame-level protocol that agrees on requests, datagrams and deliveries |
| UdpWire.AnswersOverBytes | crates/arp-server/src/proxy/udp.rs:67-128 | the correlation results hold over bytes wherever the connection breaks: datagram k for the k-th request taken up, the request's own answer under the same exact condition, at most once |
| UdpWire.NeverProtocolError | crates/arp-server/src/proxy/udp.rs:67-75 | no run makes either reader see a protocol error; on a live direction what has arrived always parses |
| UdpTunnel.UdpTunnelEnd.Register | crates/arp-server/src/proxy/udp.rs:103-106 | beside any state of the rest, the id returned and the new pending set are those of the protocol's beginning of a request, and so is the counter until it wraps |
| UdpTunnel.UdpTunnelEnd.Abandon | crates/arp-server/src/proxy/udp.rs:117-119 | the pending set afterwards is that of the protocol's failed post, and no other request is touched |
| UdpTunnel.UdpTunnelEnd.HandleFrame | crates/arp-server/src/proxy/udp.rs:76-90 | one turn of the reader loop changes the pending set and answers exactly as the protocol step |
| NatHole.PresentableKeys | crates/arp-server/src/nathole.rs:223-241 | some signed message presents a key iff it is non-empty, without a vertical bar and without outer white space |
| NatHole.ForwardedToLatest | crates/arp-server/src/nathole.rs:158-208 | each forwarded response answers an accepted request for a registered proxy with that proxy's key, the latest for its address, and goes to the run that made it with the completed message |
| NatHole.OwnersAnswerIff | crates/arp-server/src/nathole.rs:158-178 | in every run all forwarded responses come from the owners asked iff, among the messages sent, whoever responds to an address that an owner was asked about is the owner asked last |
| NatHole.OtherRunAnswers | crates/arp-server/src/nathole.rs:158-208 | in every reachable state the response of any run to any pending address is completed and passed on to the visitor waiting there, and comes from the owner asked iff that run is the owner |
| NatHole.OtherRunHappens | crates/arp-server/src/nathole.rs:158-178 | a run in which another run's response is passed on |
| NatHole.AnsweredOnce | crates/arp-server/src/nathole.rs:172-178 | no request is answered twice, so responses never outnumber accepted requests |
| NatHole.RecentEvents | crates/arp-server/src/nathole.rs:214-220 | the event list is always the last min(n, 32) events in order |
| NatHole.StepKeeps | crates/arp-server/src/nathole.rs:50-220 | every step keeps each pending entry tied to the latest unanswered accepted request for its address |
| NatHole.NatHoleController.Admit | crates/arp-server/src/nathole.rs:56-109 | the checks give the specified verdict and leave the request pending iff it is accepted |
| NatHole.NatHoleController.HandleVisitor | crates/arp-server/src/nathole.rs:50-156 | pending entry, reply and event for every branch, with the entry kept when the owner is offline |
| NatHole.NatHoleController.HandleClientResp | crates/arp-server/src/nathole.rs:158-208 | consumes the entry for that address and forwards exactly what the protocol step says, or does nothing |
| NatHole.NatHoleController.Record | crates/arp-server/src/nathole.rs:214-220 | drops the oldest event at 32 and appends |
| Base64.Base64Encode | crates/arp-client/src/cli/mod.rs:206-230 | the loop over triples computes the encoding of the specification |
| Base64.Base64Decode | crates/arp-client/src/admin/mod.rs:122-144 | the loop computes the specified decoding, its accumulator never above 14 bits |
| Base64.DecodeEncode | crates/arp-client/src/admin/mod.rs:122-144 | decoding the encoding of any byte string gives it back |
| Base64.JunkIgnored | crates/arp-client/src/admin/mod.rs:127-134 | an octet outside the alphabet, other than '=', can be inserted anywhere without changing the decoding |
| BasicAuth.CliAccepted | crates/arp-client/src/admin/mod.rs:102-120 | the server accepts the command line's header iff the expected user has no ':' and both "user:password" texts are equal |
| BasicAuth.AcceptedIffEqual | crates/arp-client/src/cli/mod.rs:175-179 | for users without ':' it accepts iff user and password are equal |
| BasicAuth.CliServed | crates/arp-client/src/admin/mod.rs:51-81 | for every two configurations, the command line is served iff the server has no complete credentials, or the user it expects has no ':' and the command line sends the same "user:password" text |
| BasicAuth.OwnCredentialsWork | crates/arp-client/src/admin/mod.rs:51-81 | one configuration on both sides works iff either part is empty, so that nothing is checked, or the user has no ':' |

## Left out

- Sockets, TLS, QUIC, KCP and WebSocket set-up: foreign calls.
- JSON, gzip, the packet cipher and address parsing: library code, entering as functions with inverse laws and a size bound (`MessageCodec.Lawful`, `UdpTunnel.Lawful`) or as a parameter (`NatHole.Env`).
- Stream and request ids past 2^32 allocations per tunnel: both protocols stop handing out ids there, the program wraps.
- Delivery of a whole response after the user half-closes in mux mode: the relay aborts its writer, so prefixes are what holds.
- Channel capacities and back-pressure: all channels are unbounded sequences, so blocking is not modelled.
- Registry concurrency: one manager call, or one removal inside a clean-up loop, is one step; the program checks and inserts on concurrent maps and waits for a group's listener to stop.
- Vhost concurrency: one registration, removal or lookup is one step. The program takes one map lock at a time, so a route added between the emptiness test and the removal of its domain (crates/arp-server/src/proxy/vhost.rs:135-143) can be dropped with it; that interleaving is not modelled.
- Registry vhost part: whether the vhost table takes an http or https proxy is an input of the registration, and the parsing of group names out of a message is not modelled.
- GroupPicker failure counter: a natural number; the program's 32-bit counter could only differ after 2^32 failures without a success.
- Throttle semaphore: Tokio's semaphore is modelled on values as fair, first come first served, with partial assignment to the head of the queue; cancelling a waiting `consume` is not modelled.
- Throttle rate 0: `consume` would then loop without progress; the model starts at rate 1.
- UdpTunnel client loop: an error ends it, which is a run in which it takes no further step; that it ends is not claimed.
- UDP tunnel reconnection: the holder never checks whether its tunnel is alive.
- `relay_stcp`, dynamic registration reply matching, `normalize_host`, heartbeats, configuration, metrics, audit, dashboards and the rest of the command line: either unused, without a clean law, or single-branch facts.
