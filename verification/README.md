# pywssocks, modelled and verified

pywssocks carries SOCKS5 traffic over a WebSocket. In forward mode the server opens the network
connections its clients ask for; in reverse mode the clients do, and the server offers a SOCKS port
per token or passes on the requests of connectors. This project models the parts of the program whose
correctness depends on state and interleaving, and proves what they promise.

| file | what it models |
|---|---|
| Bytes, Utf8, Inet | byte strings with Python's indexing and slicing, UTF-8, address texts |
| Messages, Parser, Codec | the ten binary messages: writer, reader, and the laws that connect them |
| Stream | many TCP channels between the SOCKS side and the network side, over one FIFO link each way |
| Handshake, HandshakeOutcome | the SOCKS5 client role and server role run against each other; how that ends for every setup |
| Udp | SOCKS UDP datagrams through header, codec and link, and back |
| HttpProxy | reading and judging the answer of an HTTP proxy |
| Endpoint, SocksEndpoint | the channel maps of a relay: the life of a network connection handler, and of a SOCKS request |
| ClientDispatch | the client's dispatcher, from received frames to queues, and what opens and removes them |
| RoundRobin, PortPool, SocketManager, ConnectorCache | the scheduler, the port pool, the reference-counted listening sockets, the channel cache |
| Registry, RegistryInvariant, Scheduling, SocksServers, Server | tokens, ports and their SOCKS servers, connector tokens, instances and registered connections |
| Routing, Dispatch | the server's two dispatchers over registry and cache |
| TwoHops, ConnectorMode | Stream's ends at connectors and reverse clients, with Routing's server between them |

Two forms are used side by side. What the program keeps in dictionaries it updates in place is a class
(`Server.Server`, `ConnectorCache.ChannelCache`, `SocketManager.Manager`, `PortPool.Pool`,
`Endpoint.Relay`, `ClientDispatch.Client`, `Dispatch.Dispatcher`), whose methods are proved to take its
value to the value a function of the same operation gives. Those functions are the steps of transition
systems in which each stretch of code between two suspension points is one step; invariants are proved
over every run of them.

What the proofs show to be false of the code, each with an input on which it fails and the exact
condition under which it holds:

| what fails | an input | exactly when |
|---|---|---|
| text that is not ASCII survives a hop; a length prefix counts characters | `Codec.AccentLost` | `Codec.RoundTripExactly`, `Codec.HopTransparent`, `Udp.DatagramDelivered` |
| equal credentials connect, and the handshake never hangs | `HandshakeOutcome.OddCredentialsHang` | `HandshakeOutcome.ConnectsAndHangsExactly`, `HandshakeOutcome.MatchingCredentialsExactly` |
| different credentials are turned away | `HandshakeOutcome.OddCredentialsBelieved` | `HandshakeOutcome.ConnectsAndHangsExactly` |
| what the target sends first reaches the SOCKS client | `Stream.GreetingLost` | `Stream.NothingSkippedExactly` |
| an idle socket stays open for its grace | `SocketManager.StaleTimer` | `SocketManager.EarlyCloseExactly` |
| every port taken from the pool belongs to a token | `RegistryInvariant.ZeroPortLost` | `RegistryInvariant.AddKeepsPortsExactly` |
| a connector token's target is registered | `RegistryInvariant.StrandedConnector` | `RegistryInvariant.RemoveStrandsExactly` |
| the connections of an instance wait as short a time as others | `Scheduling.Overtaken` | `Scheduling.InstanceServedExactly` |
| the port of a connected reverse client has a running SOCKS server | `SocksServers.Unserved` | `SocksServers.RunsUntilItEnds` |
| a channel carries only messages of its two connections | `Routing.StrangerHeard` | `Routing.PrivateExactly` |
| removing a token ends without an error | `RegistryInvariant.SelfInstance` | `Server.Server.RemoveToken` |
| a connection that has ended is forgotten | `RegistryInvariant.EmptyTokenStays` | `RegistryInvariant.CleanupExactly` |
| a connector token that is registered on request is answered with success | the empty token | `Dispatch.Dispatcher.OnAddConnector` |
| cleaning up a token drops only its own channels | `ConnectorCache.TwoTokens` | `ConnectorCache.CleanupExactly` |
| an ended network channel is in no map | `Endpoint.CancelledTooEarly` | `Endpoint.NothingLeftBehindExactly` |
| an ended SOCKS channel is in no map | `SocksEndpoint.EntryStays` | `SocksEndpoint.LeftBehindExactly` |
| what follows an HTTP proxy's header is left unread | `HttpProxy.OneByteSwallowed` | `HttpProxy.NothingSwallowedExactly` |

The clean-up scheduled for a removed connector token finds nothing after any run, since channels are
listed under the reverse token (`Routing.ConnectorRemovalKeepsChannels`).

## Model

| member | source | states |
|---|---|---|
| Stream.UpstreamConservation | pywssocks/relay.py:662-692 | over every interleaving of many channels, the bytes read from a channel's SOCKS socket are, in order, those written to its target, in the writer's hand, queued, dropped after the queue was discarded, on the link and in the reader's hand; delivery is always a prefix of what was sent |
| Stream.DownstreamConservation | pywssocks/relay.py:728-749 | towards the SOCKS client delivery is a gapless prefix of the target's stream from the point where the forwarder's own queue was installed; everything before that point is accounted for as never delivered |
| Stream.NothingSkippedExactly | pywssocks/relay.py:728-749 | delivery is a prefix of the target's whole stream, nothing skipped, if and only if no Data of the channel reaches the SOCKS side before it installs its forwarder's queue |
| Stream.GreetingLost | pywssocks/relay.py:733-735 | a run in which the first byte of a target that speaks first reaches the SOCKS side before the queue swap and is never written, while the second one is |
| Stream.RunKeepsInv | pywssocks/relay.py:694-726 | every local step, delivery and new channel keeps the accounting of all channels and the order of handler phases |
| Stream.CloseExchangeEnds | pywssocks/relay.py:510-520 | no event increases what is left of a channel's close exchange, sending or receiving a Disconnect decreases it, and receiving one never puts one on a link |
| Stream.OneDisconnectEach | pywssocks/relay.py:764-775 | over every run each side sends at most one Disconnect per channel, and only as its last act |
| Handshake.ComposedHandshake | pywssocks/relay.py:237-383 | for every setup whose credentials, when they are sent at all, are ASCII, the two SOCKS5 roles composed (sections 3, 4 and 6 of RFC 1928, section 2 of RFC 1929) never deadlock, end within 17 moves, connect both or neither, and connect exactly when no credentials are demanded or both match, the request can be written and the remote connect succeeds; the Connect emitted names the canonical address and port, and no handshake byte is left unread |
| Handshake.Complete | pywssocks/relay.py:987-1072 | and from every stage of the handshake some continuation reaches its end |
| HandshakeOutcome.HandshakeExactly | pywssocks/relay.py:237-383 | for every setup, whatever the texts: at most 18 moves over every interleaving, and every run that can go no further has ended the one way the bytes sent decide (which name, password and request the server reads off its stream, and what is left unread) |
| HandshakeOutcome.ConnectsAndHangsExactly | pywssocks/relay.py:261-290 | for every setup: the client can be connected if and only if the server reads a login it believes (or demands none), then a request behind it, and the remote accepts; some run is stuck if and only if the name read decodes and fewer bytes follow than the byte taken for the password's length says, or a believed login leaves too few bytes for a request |
| HandshakeOutcome.PlainOutcome | pywssocks/relay.py:261-290 | for credentials that are ASCII when they are sent, that outcome is the one intended: connected after the right Connect, with nothing unread, or failed; never stuck |
| HandshakeOutcome.MatchingCredentialsExactly | pywssocks/relay.py:1000-1022 | with the same credentials on both sides and a remote that accepts, the handshake can connect exactly when both texts are ASCII and at most 255 long |
| HandshakeOutcome.OddCredentialsHang | pywssocks/relay.py:275-280 | equal credentials, the name with one accented letter, lead to a state in which both parties wait and neither can move |
| HandshakeOutcome.OddCredentialsBelieved | pywssocks/relay.py:275-290 | credentials that differ from the configured ones and connect: the byte that gives the password's length is read as the password's first letter |
| Handshake.BuildAuth | pywssocks/relay.py:1009-1014 | the authentication request grown field by field is the one of section 2 of RFC 1929, with lengths in characters, and fails exactly when a text is longer than 255 |
| Handshake.BuildRequest | pywssocks/relay.py:1027-1051 | the connect request grown step by step names the target as IPv4, IPv6 or domain, in that order of preference, and fails exactly when the name or the port does not fit |
| Codec.RoundTripExactly | pywssocks/message.py:202-507 | for all ten kinds a message is read back unchanged from its bytes if and only if it is well formed: ASCII text of at most 255, 16-bit ports, data under 2^32, error and token only where the writer keeps them |
| Codec.ReadBack | pywssocks/message.py:235-309 | what comes back of every ASCII message that can be written: the message with absent UDP fields filled and dropped fields absent, except the failing replies without an error text, which the reader rejects |
| Codec.PackInjective | pywssocks/message.py:202-309 | well-formed messages with the same bytes are the same |
| Codec.HopTransparent | pywssocks/server.py:1027-1075 | for the four kinds the server passes on, an accepted byte string is re-packed into one that parses to the same message if and only if its texts are ASCII and its payload still fits |
| Codec.AccentLost | pywssocks/server.py:1121-1127 | a Disconnect with an error of one accented letter is accepted and does not survive the hop |
| Codec.HopsTransparent | pywssocks/server.py:1126-1146 | and then it survives any number of hops, even when each compresses in its own way (a gzip header carries the time), so that the bytes may differ from hop to hop |
| Codec.UdpTailExactly | pywssocks/message.py:257-267 | the two address and port pairs of a datagram are read back exactly when both addresses are ASCII |
| Codec.ConnectResponseExactly | pywssocks/message.py:231-237 | a failing ConnectResponse round-trips exactly when it carries a short ASCII error |
| Codec.ConnectorResponseExactly | pywssocks/message.py:284-293 | a ConnectorResponse round-trips exactly when it carries an error or a token as its success says |
| Codec.AuthExactly | pywssocks/message.py:206-211 | an Auth round-trips exactly when its token is ASCII and at most 255 long |
| Codec.AuthResponseExactly | pywssocks/message.py:213-218 | an AuthResponse round-trips exactly when a success has no error and a failure none or a short non-empty one |
| Codec.ConnectExactly | pywssocks/message.py:220-229 | a Connect round-trips exactly when a TCP one has a short ASCII address and a 16-bit port and any other has neither |
| Codec.DataExactly | pywssocks/message.py:239-267 | a Data round-trips exactly when a datagram has both address pairs in ASCII and any other has none |
| Codec.DisconnectExactly | pywssocks/message.py:269-274 | a Disconnect round-trips exactly when its error is absent or short and non-empty |
| Codec.ConnectorExactly | pywssocks/message.py:276-281 | a Connector round-trips exactly when its token is short ASCII and its operation is add or remove |
| Messages.PackMessage | pywssocks/message.py:202-309 | the buffer grown field by field is the concatenation of the fields, and writing fails exactly where a field does |
| Parser.Parse | pywssocks/message.py:312-507 | on every byte string no index is out of bounds and every fixed-width slice has its width: only explicit rejections, undecodable text and refused payloads are raised |
| Parser.SelfDelimiting | pywssocks/message.py:313-507 | an accepted message parses the same with anything appended if and only if it does not end where an optional field may begin (a failing AuthResponse, a Disconnect, a succeeding ConnectorResponse, each without its text) |
| Utf8.DecodeEncode | pywssocks/message.py:208 | decoding undoes encoding for every text |
| Utf8.CharCountedPrefix | pywssocks/message.py:208-209 | reading back as many bytes as the text has characters gives the text back exactly when it is ASCII |
| Udp.DatagramDelivered | pywssocks/relay.py:855-889 | a complete IPv4 or domain datagram (section 7 of RFC 1928) is sent, unchanged, to exactly the address and port it names if and only if that name is ASCII and its compressed payload fits a message |
| Udp.ReplyDelivered | pywssocks/relay.py:903-939 | a reply from any IPv4 source reaches the SOCKS client as a datagram whose header reads back as that source, with the same payload |
| Udp.ReadComplete | pywssocks/relay.py:856-878 | the header parser gives back the address, port and payload a client wrote; a name that is not UTF-8 ends the forwarder |
| Udp.HeaderIsDatagram | pywssocks/relay.py:913-929 | the header built for a reply followed by the payload is the RFC's datagram for that address and port |
| Udp.BuildReply | pywssocks/relay.py:913-929 | the reply grown step by step is the header with the payload behind it, and fails exactly when the address or port does not fit |
| Inet.CanonicalTwice | pywssocks/relay.py:317-328 | printing an address read from bytes is idempotent |
| HttpProxy.ReadResponse | pywssocks/relay.py:1129-1135 | the read loop returns what a chunk-by-chunk reading of the stream gives, or nothing when the stream ends first |
| HttpProxy.VerdictIgnoresChunks | pywssocks/relay.py:1129-1150 | two ways of cutting the same stream into chunks give the same verdict: the same answer or none, and the same status code or error from the first line of the text, undecodable bytes ignored |
| Utf8.IgnoringSplits | pywssocks/relay.py:1138 | decoding that ignores errors can be done in two parts when the first ends in an ASCII byte |
| HttpProxy.NothingSwallowedExactly | pywssocks/relay.py:1129-1135 | exactly the header is read if and only if the header ends with a chunk |
| HttpProxy.OneByteSwallowed | pywssocks/relay.py:1129-1135 | one chunk with the header and a byte behind it is read whole |
| Endpoint.Relay.DisconnectChannel | pywssocks/relay.py:116-151 | the channel leaves every map but the queue map, its unfinished tasks are cancelled, and the queue goes at once or with a timer |
| Endpoint.NothingLeftBehindExactly | pywssocks/relay.py:445-542 | for every interleaving of arriving messages, the handler and cancellation, once the handler has ended and its delays have passed the channel is in none of the maps if and only if no cancellation came before the handler first ran or while it sent its Disconnect, or a Disconnect arrived after the channel last entered a map |
| Endpoint.CancelledTooEarly | pywssocks/server.py:1222-1226 | a handler cancelled before its first step leaves its queue with no timer to remove it |
| Endpoint.WindsDown | pywssocks/relay.py:530-542 | without new messages every step on a channel brings the end of its handler and timers nearer |
| Endpoint.SomeStep | pywssocks/relay.py:530-542 | and until then there is such a step |
| Endpoint.OthersUntouched | pywssocks/relay.py:116-163 | a step on one channel changes nothing about another |
| SocksEndpoint.LeftBehindExactly | pywssocks/relay.py:728-749 | on the SOCKS side an ended request is in none of the maps if and only if it is not the case that it began to forward and no Disconnect arrived after that |
| SocksEndpoint.EntryStays | pywssocks/relay.py:748 | so a request that was answered and has ended, without a Disconnect, leaves its forwarder in the map |
| ClientDispatch.Client.Dispatch | pywssocks/client.py:242-285 | one message changes the queues, the started handlers, the delayed clean-ups and the partner count as its kind demands, and touches no queue but its own |
| ClientDispatch.Client.Receive | pywssocks/client.py:224-240 | the loop delivers exactly the frames that parse, in their order |
| ClientDispatch.QueueHolds | pywssocks/client.py:242-275 | between the events that open it or may remove it a queue receives exactly its own messages in order, also after a Disconnect, its reader takes them in that order, and a missing queue receives nothing |
| ClientDispatch.FreshQueueHolds | pywssocks/client.py:250-252 | after a Connect, or when a party installs a queue of its own, the queue holds exactly the messages that followed |
| ClientDispatch.DisconnectedQueueGoes | pywssocks/relay.py:146-163 | a Disconnect leaves the queue receiving until its timer fires; from then on every message for the channel is dropped until something opens the queue anew |
| ClientDispatch.QueueStays | pywssocks/relay.py:116-163 | without a Disconnect, the end of its handler or a deletion no timer takes a queue away |
| ClientDispatch.FramesAccepted | pywssocks/client.py:234-240 | the frames of well-formed messages are all accepted, as those messages |
| RoundRobin.TimesExactly | pywssocks/server.py:660-663 | the exact number of times a client is chosen in k picks from any index |
| RoundRobin.Balance | pywssocks/server.py:660-663 | of any k picks in a row every client of a fixed list gets k/n, rounded down or up |
| RoundRobin.BoundedWaiting | pywssocks/server.py:660-663 | a position is chosen within n picks and one more per join, from any (even stale) index, when joins leave the index alone |
| RoundRobin.ChosenDespiteExactly | pywssocks/server.py:806-812 | with joins that send the index back, a position is chosen if and only if some stretch of picks between two joins is long enough to reach it |
| RoundRobin.BoundedDespite | pywssocks/server.py:806-812 | the bound that remains then: n picks, and for every join as many as there are connections in the end |
| Scheduling.PicksFollowRoundRobin | pywssocks/server.py:651-671 | picks in a row go to the list's entries at the round robin's positions, which are always in range |
| Scheduling.PicksAreBalanced | pywssocks/server.py:651-671 | of k picks in a row each registered connection of a token is given k/n, rounded down or up |
| Scheduling.ServedInTurn | pywssocks/server.py:822-830 | a registered connection is picked within n picks and one more per join, over every run of registry operations that leave the index to the picks |
| Scheduling.SharedTokensAreSteady | pywssocks/server.py:822-830 | for a token with a port those are all operations but removals and the end of one of its connections |
| Scheduling.LoginsOfInstancesExactly | pywssocks/server.py:806-812 | a login of an instance leaves the index of its token alone only if it was 0 |
| Scheduling.InstanceTokensReset | pywssocks/server.py:806-812 | for the token of an instance all operations but removals and the end of one of its connections pick, join and send the index back, or leave list and index alone |
| Scheduling.InstanceServedExactly | pywssocks/server.py:651-671 | over every such run a connection of an instance is picked if and only if some stretch of picks between two logins is long enough to reach it |
| Scheduling.InstanceServedInTurn | pywssocks/server.py:651-671 | and so within n picks, and for every login as many as there are connections in the end |
| Scheduling.InstanceOvertaken | pywssocks/server.py:806-812 | among three connections of an instance the first is not picked in five picks with one join between |
| Scheduling.Overtaken | pywssocks/server.py:806-820 | a run from the start that comes to three such connections |
| PortPool.Pool.Get | pywssocks/common.py:32-46 | a specific port is granted exactly when it is free; an unspecific request gets a free port of the pool and fails only when the whole pool is used |
| PortPool.Pool.Put | pywssocks/common.py:54-56 | a port given back is free again and no other changes |
| SocketManager.Manager.GetSocket | pywssocks/server.py:122-150 | the caller holds the one open socket of its port, the same one as before if there was one; no socket is closed, no other port is touched, and counts, timers and sockets stay consistent with one user more |
| SocketManager.Manager.ReleaseSocket | pywssocks/server.py:152-178 | no socket is closed and no other port is touched; the socket is idle exactly when the last user has released it, from now on and with a timer due after the grace, and all stays consistent with one user less |
| SocketManager.Manager.CleanupSocket | pywssocks/server.py:196-218 | the socket of the timer's port leaves the open ones exactly when nobody uses it; no other port is touched and all stays consistent |
| SocketManager.Manager.Close | pywssocks/server.py:220-235 | all timers are cancelled and all managed sockets closed |
| SocketManager.ManagedSockets | pywssocks/server.py:122-218 | over every order of paired gets and releases, ticks and timers, references equal outstanding gets, there is at most one open socket per port, and every idle socket has a timer due at its idle time plus grace |
| SocketManager.ClosedOnlyWhenFree | pywssocks/server.py:196-218 | an event closes a managed socket if and only if it is a timer of its port and nobody holds it |
| SocketManager.NoneOutlivesGrace | pywssocks/server.py:171-175 | once due timers have fired every idle socket is younger than the grace |
| SocketManager.EarlyCloseExactly | pywssocks/server.py:196-209 | left alone, an idle socket can be closed before a deadline if and only if some timer of its port, of whichever release, is due before it |
| SocketManager.StaleTimer | pywssocks/server.py:163-178 | a socket idle since 6 with a grace of 10 can be closed before 16, by the timer of a release at 1 |
| ConnectorCache.ChannelCache.AddChannel | pywssocks/server.py:63-75 | both maps and the token's list record the channel |
| ConnectorCache.ChannelCache.RemoveChannel | pywssocks/server.py:77-82 | both maps forget the channel, the list keeps it |
| ConnectorCache.ChannelCache.CleanupToken | pywssocks/server.py:92-100 | every channel the token's list names is forgotten, and the list with it |
| ConnectorCache.Refines | pywssocks/server.py:63-100 | with each id used under one token every operation is the operation on one simple map; cleaning up a token removes exactly its live channels, despite stale and duplicate entries |
| ConnectorCache.LookupsAgree | pywssocks/server.py:84-90 | after any run both look-ups answer what the simple map says |
| ConnectorCache.CleanupExactly | pywssocks/server.py:92-100 | one clean-up agrees with the simple map exactly when every live channel its list names belongs to the token now |
| ConnectorCache.TwoTokens | pywssocks/server.py:92-100 | a channel used again under another token is dropped by the clean-up of the first |
| RegistryInvariant.NamesStayConsistent | pywssocks/server.py:351-441 | over every run of additions, cascading removals, logins, disconnections and picks tokens and options have the same keys, each has a lock, every connector token's target has a lock and, unless it is an instance, is still registered |
| RegistryInvariant.PortsConserved | pywssocks/server.py:423-576 | over every run the used ports are exactly the ports tokens hold, and no two tokens share one |
| RegistryInvariant.RefusedOnlyWhenFull | pywssocks/common.py:39-46 | a request for any port is refused only when tokens hold every port of the pool |
| RegistryInvariant.AddKeepsPortsExactly | pywssocks/server.py:427-431 | an addition keeps the ports right, whatever the pool answers, if and only if the request is for a port other than 0 and the mark for no port (or one already taken), or is for any port of a pool in which neither is free |
| RegistryInvariant.ZeroPortLost | pywssocks/server.py:427-431 | a pool that holds only port 0: the first request takes it and is refused, no token holds it, every later request for any port is refused |
| RegistryInvariant.ClientsConsistent | pywssocks/server.py:962-976 | over every run no list is empty, a connection that has been cleaned up is in no list and no map, and every listed one is in exactly one list, once, and in the client map or on its way there |
| RegistryInvariant.RunKeepsInv | pywssocks/server.py:339-976 | the whole invariant is kept by every operation from every state |
| RegistryInvariant.RemoveDisconnectsExactly | pywssocks/server.py:485-576 | a removal closes the connections of the token, its instances and the connector tokens that lead to it, and leaves every other connection where it is |
| RegistryInvariant.RemoveStrandsExactly | pywssocks/server.py:508-534 | a removal leaves a connector token without a registered target exactly when the target was an instance of the token removed or had none before; its lock stays |
| RegistryInvariant.StrandedConnector | pywssocks/server.py:507-534 | a run with a connector token for an instance, after which the removal of the autonomy token leaves it registered with no target |
| RegistryInvariant.SelfInstance | pywssocks/server.py:806-808 | a run in which a connection presents the token of an instance and the same id as its instance, so that removing that token raises |
| RegistryInvariant.RaisedAllTheSame | pywssocks/server.py:508-553 | a removal that raises has forgotten the token, its instances, their connections and its connector tokens all the same, and keeps the invariant; only the token's lock stays |
| RegistryInvariant.AddThenRemove | pywssocks/server.py:398-576 | removing a token just added gives back names, locks, ports and connections |
| RegistryInvariant.CleanupExactly | pywssocks/server.py:953-976 | the end of a connection takes exactly its own entry out of its own list, the others keep their order; it stays registered if and only if its token is the empty one |
| RegistryInvariant.EmptyTokenStays | pywssocks/server.py:953-954 | a run after which a connection of the empty token has ended and is picked for the next request |
| SocksServers.ServedPortsHaveEntries | pywssocks/server.py:835-842 | over every run the port of every connected reverse client has an entry for a SOCKS server |
| SocksServers.RunsUntilItEnds | pywssocks/server.py:1228-1277 | while its token stays, a server once started runs if and only if it has not ended by itself: nothing restarts it, because its entry stays |
| SocksServers.NotRestarted | pywssocks/server.py:835-842 | a client that logs in after the server of its port has ended is connected and not served |
| SocksServers.Unserved | pywssocks/server.py:1263-1264 | a run that comes to this: the server of a port ends, a second client logs in, the port is not served |
| Server.Server.AddReverseToken | pywssocks/server.py:398-446 | a known token is answered, an autonomy token needs no port, any other is registered with the port the pool grants or refused |
| Server.Server.AddConnectorToken | pywssocks/server.py:339-363 | registered only for a registered target and a new name, and never rebound |
| Server.Server.RemoveConnectorToken | pywssocks/server.py:365-396 | its connections are closed and forgotten and the clean-up of the cache scheduled |
| Server.Server.RemoveToken | pywssocks/server.py:465-599 | the cascade over instance tokens and connector tokens done step by step is one removal of all that depends on the token; it raises if and only if the token is among its own instances |
| Server.Removal | pywssocks/server.py:506-576 | the steps of the cascade, put together, leave nothing out and touch nothing twice, up to the look-up that raises for a token among its own instances |
| Server.Server.DropInternals | pywssocks/server.py:508-529 | the loop over a list that may repeat an instance forgets exactly the instances in it |
| Server.Server.DropBound | pywssocks/server.py:531-534 | the loop over a snapshot of the connector tokens forgets exactly those that lead to the token |
| Server.Server.CloseClients | pywssocks/server.py:540-550 | every connection of the token is closed and forgotten, no other |
| Server.Server.LoginReverse | pywssocks/server.py:792-845 | an autonomy login sets up its instance and joins its list; any other joins the token's list and starts its SOCKS server |
| Server.Server.LoginConnector | pywssocks/server.py:862-871 | the connection joins the list of its connector token and the client map |
| Server.Server.CleanupConnection | pywssocks/server.py:947-976 | the connection leaves its list and the client map, an empty list leaves with its index; under the empty token nothing changes |
| Server.Server.GetNextWebsocket | pywssocks/server.py:648-671 | the pick and the stored index are those of the round robin; nothing is picked exactly when no connection is registered |
| Server.Server.CountReverseClients | pywssocks/server.py:1313-1318 | the sum of list lengths told to connectors is the number of registered reverse connections |
| Server.Server.CountConnectors | pywssocks/server.py:1333-1339 | the sum told to the reverse clients of a token is the number of registered connectors that lead to it |
| Server.Server.FindToken | pywssocks/server.py:1160-1168 | the search over all lists finds the token of a registered connection and nothing else |
| Routing.ChannelAffinity | pywssocks/server.py:1035-1146 | until its removal, a clean-up that lists it or another Connect on it, every message passed on over a channel goes to the connection at its other end, the same one each time, whatever the round robin, other channels, logins and removals do |
| Routing.ChannelIsPipe | pywssocks/server.py:1059-1146 | over every such run what is passed on over the channel is exactly what was received on it, in the same order, but for what is meant for a request of the server's own: nothing is dropped, repeated or made up |
| Routing.FromConnectOn | pywssocks/server.py:1035-1146 | from a Connect on, until its channel is broken, the traffic is that Connect and then what is received, in order, all of it on its way to the connector or to the connection picked, and between these two if and only if nobody else sends on the channel |
| Routing.PrivateExactly | pywssocks/server.py:1059-1146 | over every such run all traffic of the channel is between its two connections if and only if nobody else sends on it: the server does not look at the sender |
| Routing.StrangersAreHeard | pywssocks/server.py:1059-1076 | Data of any other connector or reverse client is passed on over the channel, and a stranger's Disconnect ends it |
| Routing.StrangerHeard | pywssocks/server.py:1059-1076 | a run from the start that comes to this with two connectors |
| Routing.OnlyDisconnectOrOwnCleanup | pywssocks/server.py:63-100 | over every run with fresh channel ids only a Disconnect on the channel, or a clean-up of the token its requests are routed to, takes a channel from its two connections |
| Routing.ConnectorsHearNoDisconnect | pywssocks/server.py:1157-1158 | over every run no Disconnect is passed on to a connector |
| Routing.AffinityExactly | pywssocks/server.py:63-100 | a step takes a channel from its two connections if and only if it is one of those three |
| Routing.AutonomyRouting | pywssocks/server.py:1159-1190 | over every run each Connect of a connector whose token was added over a reverse connection has gone to a connection that presented the same instance id |
| Routing.NeverRebound | pywssocks/server.py:358-361 | while a connector token stays registered no step changes where it leads |
| Routing.ManagersPresented | pywssocks/server.py:1171-1176 | a connection that may manage connector tokens is in the list of the instance it presented |
| Routing.ConnectorRemovalKeepsChannels | pywssocks/server.py:381-383 | after any run the clean-up scheduled by removing a connector token drops no channel |
| ConnectorMode.UpstreamAcrossServer | pywssocks/server.py:1000-1146 | over every interleaving of connectors, reverse clients, the server's dispatchers, registry and clean-ups, the bytes read from a SOCKS socket at a connector are, in order, those written to the target at the one reverse client of its channel, held there, on the second link, dropped by the server, on the first link and in the reader's hand; what the target has received is a prefix of what was sent, and nothing is dropped while the channel is in the cache |
| ConnectorMode.DownstreamAcrossServer | pywssocks/server.py:1121-1146 | and the same towards the SOCKS client, from the point where its forwarder's queue was installed |
| ConnectorMode.DroppedExactly | pywssocks/server.py:1059-1068 | the server drops payload of a channel if and only if one of its dispatchers takes some while the channel is not in the cache |
| ConnectorMode.EventSees | pywssocks/server.py:1000-1146 | whatever happens in the whole system is, for each channel, one step of that channel between two ends and a relaying server, or nothing: channels do not disturb each other |
| ConnectorMode.RunKeepsInv | pywssocks/server.py:1000-1146 | every run keeps the accounts of all channels, every message on a link its channel uses, and the cache leading from each channel's connector to its reverse client |
| TwoHops.HappeningKeeps | pywssocks/server.py:1059-1146 | each such step keeps the channel's accounts over both links |
| Dispatch.Dispatcher.OnConnect | pywssocks/server.py:1035-1057 | a Connect is refused when nobody is registered, and otherwise recorded in the cache and passed on |
| Dispatch.Dispatcher.Permission | pywssocks/server.py:1160-1176 | exactly the connections whose token manages connectors get permission, under that token |
| Dispatch.Dispatcher.OnAddConnector | pywssocks/server.py:1184-1193 | a permitted request registers a new connector token for the instance of the connection, and succeeds exactly when it did and the token is not empty: the empty one is registered and refused |
| Dispatch.Dispatcher.OnRemoveConnector | pywssocks/server.py:1194-1198 | a permitted request removes any token named, not only one of its own, and raises exactly when that token is among its own instances |

## Left out

- The transports: real sockets, TLS, the WebSocket library, DNS, heartbeats, timeouts of single reads, logging and the command line. A link is a FIFO sequence, `sock_recv(n)` of the handshake returns exactly n bytes, and a timeout is a step that may happen at any time.
- The forwarding loops of relay.py and the two handshake roles are coroutines; but for the requests they build, they are modelled as the steps between their suspensions, on values. What this does not show is the loop text itself, only what every interleaving of its steps does.
- gzip, JSON, `inet_aton`, `inet_ntoa`, `inet_pton`, `inet_ntop`: parameters, assumed to be inverse pairs on canonical input. UUIDs and connection ids are assumed fresh; token names of different kinds, and instance ids, are assumed disjoint, but for a connection that presents its own token as its instance.
- Lone surrogates in texts: Dafny's `char` has none, so the encoding error they raise is not modelled.
- Tokens added or removed before `serve()` has set the loop: then nothing is closed or cleaned up. The model is of a serving server; a token that is waiting for it is a later start of its SOCKS server.
- Resolving a token from the query string, its SHA-256 form, URL handling and `_process_request`.
- Sending the partner counts: the counts are proved, the broadcast over connections that may fail is not modelled.
- The client's reconnect loop and its `add_connector` and `remove_connector` requests.
- The HTTP CONNECT request. Of the answer only `int()` of the status code is a parameter.
- `WSSocksServer._disconnect_channel` (pywssocks/server.py:1296-1311): nothing calls it. A Disconnect from a reverse client is not passed on to the connector, in the code and in the model.
- A connection stays in `_forward_clients` when it ends: the code does not remove it, so no property of that map after a disconnect is claimed. Removing any forward token disconnects every forward client, as in the code.
- UDP datagrams with IPv6 addresses or fragments: the parser supports neither.
- SocketManager.Manager.Close: the closing of one socket is one step, although the code could suspend there.
- SocketManager.ManagedSockets: gets and releases are paired, as the callers pair them; an unpaired release makes the count meaningless in the code too.
- Stream.DownstreamConservation: weaker than delivery of the target's whole stream, because the code does not deliver what is dispatched before the queue swap; `Stream.GreetingLost` is such a run and `Stream.NothingSkippedExactly` says when nothing is skipped.
- RoundRobin.BoundedWaiting: for the list of an instance it does not apply, because a login there resets the index; `Scheduling.InstanceServedExactly` says what holds instead.
- Endpoint.NothingLeftBehindExactly: channels are not reused; a Connect on an id that had a handler before is not modelled.
- ConnectorMode.UpstreamAcrossServer: the texts of messages and datagrams are those of Codec and Udp; a connection that closes with messages still on its links is one whose links are not read any further.
- SocksEndpoint.LeftBehindExactly: request ids are fresh, as `uuid4` makes them; the SOCKS request's own control flow is reduced to its answer, its end and what they do to the maps.
- ClientDispatch.QueueHolds: the events that install, delete and read queues may come at any time and for any key; which coroutine they belong to is the subject of Stream and Endpoint.
