# Verified model of the Discord tunnel

A client on Windows (a hook DLL, a Rust runtime inside it and an installer) carries Discord's TCP and UDP traffic
over one HTTP/3 connection to a Python server. This project models the two custom protocols between them and the
scheduling, routing and ownership around them, and proves what they are for.

| file | what it models |
|---|---|
| `Bytes.dfy`, `Text.dfy` | byte strings, big-endian integers, chunks; stripping, lower case, search |
| `Wire.dfy` | the datagram envelope and the target address, encoded and decoded at both ends |
| `Fragments.dfy` | splitting a packet into fragments: sizes, counts, refusals |
| `Reassembly.dfy` | the bounded reassembly tables: the server evicts the oldest assembly, the client any one |
| `DatagramRuns.dfy` | sender, lossy network and receiver over whole runs: safety, conservation, bounds |
| `Completeness.dfy` | when the server is sure to deliver a split message, and that the bound is tight |
| `SendBuffer.dfy` | the client's datagram send buffer and the room kept for voice |
| `FlowRouting.dfy` | a UDP bridge's replies: relay, reassembly, flow map, route table, flow filter |
| `Upstream.dfy` | a TCP session's bytes: session queue, worker, ops channel, stream channel, stream task |
| `StreamTask.dfy` | the client's stream task and its half-close pump |
| `ServerTunnel.dfy` | the server's side of a tunnelled TCP stream, event by event |
| `EndToEnd.dfy` | the client's way up and the server's tunnel composed: a byte's way from hook to upstream host |
| `Downstream.dfy` | the way down: server response, stream task, driver, dispatcher, route, writer of the local connection |
| `Driver.dfy` | the transport driver's bounded batches: fairness, and when it stops |
| `BridgeLife.dfy` | the life of a bridge id in the runtime's tables, from allocation to clean-up |
| `HookBindings.dfy` | which bridge each hooked socket owns, and where connects and sends go |
| `Ini.dfy`, `Config.dfy` | the configuration file: one writer, two readers |
| `Allowlist.dfy` | the server's host allowlist |

`dafny verify dfyconfig.toml` checks everything.

## How to read it

Objects that the source updates in place are classes (`ServerFragments`, `ClientFragments`, `UdpTransport`,
`BoundedQueue`, `TcpTunnel`, `DiscordHttp3Protocol`, `TransportDriver`, `EmbeddedService`, `Hooks`); their methods
are proved equal to functions on values, and the theorems are about those functions. Loops of the source are loops
(`EncodeDatagram`, `FragmentDatagram`, `Pump`, `ApplyOps`, `ParseIni`, `IsAllowedDestination`, ...). Where several
threads or tasks interleave, the system is a function from a state and a step to a state, one step being what runs
without another thread or task in between, and the theorems speak of every sequence of steps. Everything outside
the program (what the network delivers, which assembly a hash map yields first, what the operating system answers)
is an input of a step.

Where the code falls short of what one would expect, the lemma states exactly when it does:

- a packet sent whole whose payload begins with the fragment magic is taken for a fragment (`WholePacketPasses`);
- the client's splitter divides by zero for a host text of 1,131 bytes; the server's refuses it (`SplittersAgree`);
- a refused thread spawn (of a session's worker, of a bridge, or of a raw TCP bridge's writer) leaves the id in the
  runtime's tables, and nothing else does (`NoLeaks`, `RefusedSpawnLeaks`);
- the hook looks at a WSA send only if it has exactly one buffer, and that not empty: data in several buffers leaves
  a hooked UDP socket past the bridges, whatever the address and whatever was connected before (`DataPasses`,
  `TwoBuffersPass`, `SendFollowsConnect`, `StrayBuffers`);
- the tunnel's own connection is told by its port alone: any IPv4 host at that port, 443 unless configured, is
  connected to and sent to in the clear (`DataPasses`, `ConnectOutcome`, `TunnelPortPasses`);
- after a UDP socket connects to an outside peer and then to loopback, a plain send still goes to the first peer's
  bridge (`SendFollowsConnect`, `StalePeer`);
- when flushing early data to the upstream host fails, the server ends the stream without any response headers
  (`ServerTrace`, `BareEndHappens`);
- a server task that a lost connection cancels before its first step leaves its tunnel in the table, and no other
  unfinished one stays (`NoLeftovers`, `LeftoverHappens`);
- a payload that looks like a fragment, or message ids that come round, can mix a payload from pieces, but only from
  pieces of one flow (`ReusedKeyMixes`, `FlowIsolation`);
- the hook's reader strips vertical tabs and form feeds from the ends of values, the installer's keeps them
  (`ReadersAgree`);
- a dot behind white space makes the allowlist see a different host (`TrailingDot`, `DotBehindSpace`).

## Model

| member | source | states |
|---|---|---|
| Wire.EncodeDatagram | client/discord/runtime/src/protocol.rs:118-144 | filling the buffer field by field gives the specified envelope, or the specified refusal, for every packet |
| Wire.ServerDecodeInverts | server/app/discord_protocol.py:37-72 | the server decodes a byte string to a packet exactly when it is the envelope of that encodable packet and its host text is readable; and encodes exactly those |
| Wire.ClientDecodeInverts | client/discord/runtime/src/protocol.rs:146-181 | the client accepts exactly the envelopes of encodable packets with valid host text, and reads the host by parsing that text |
| Wire.DecodersAgree | client/discord/runtime/src/protocol.rs:146-181 | both ends accept the same byte strings up to each one's rule for host text, and read the same fields |
| Wire.ClientRoundTrip | client/discord/runtime/src/protocol.rs:118-181 | decoding what was encoded gives the packet back exactly when a domain is not an IP literal |
| Wire.ClientReencode | client/discord/runtime/src/protocol.rs:118-181 | encoding what was decoded gives the same bytes exactly when the host text is canonical |
| Wire.DecodeAddressAnywhere | client/discord/runtime/src/protocol.rs:59-116 | an encoded address is found at any offset of a larger buffer, and reading stops at its end |
| Wire.EncodeDecodedAddress | client/discord/runtime/src/protocol.rs:59-116 | the bytes the address reader consumed are the encoding of what it returned |
| Wire.TargetRoundTrip | client/discord/runtime/src/protocol.rs:276-295 | a target survives encoding and decoding exactly when its domain has 1 to 255 bytes |
| Wire.TargetReencode | client/discord/runtime/src/protocol.rs:276-295 | every accepted target is the encoding of what was read from it |
| Fragments.FragmentDatagram | server/app/discord_protocol.py:75-101 | the loop that appends fragments gives exactly the specified split or refusal |
| Fragments.SplitShape | client/discord/runtime/src/protocol.rs:183-220 | a split has 2 to 64 numbered fragments, none empty, whose bodies concatenate to the payload and each of which encodes within one datagram |
| Fragments.SplitSucceeds | client/discord/runtime/src/protocol.rs:183-220 | a split succeeds exactly when the payload is legal and fits one datagram or 64 bodies |
| Fragments.HostLimit | server/app/discord_protocol.py:75-101 | every legal payload can be sent to a host exactly when its text has at most 107 bytes |
| Fragments.SplittersAgree | client/discord/runtime/src/protocol.rs:183-220 | the two ends split alike, and the client divides by zero exactly for a host text of 1,131 bytes with a payload to split |
| Fragments.ParseBuiltFragment | server/app/discord_protocol.py:90-114 | a built fragment header parses back to its message id, index, count and body |
| Reassembly.ServerFragments.Reassemble | server/app/discord_protocol.py:104-132 | the in-place table step equals the specification that always evicts the oldest assembly, and keeps its order list and table in step |
| Reassembly.ClientFragments.Reassemble | client/discord/runtime/src/protocol.rs:222-266 | the in-place table step equals the common specification for some victim, which is in the table when one is evicted |
| Reassembly.ServerStepRefines | server/app/discord_protocol.py:116-120 | the server is the common reassembler that evicts in insertion order |
| Reassembly.StepBounded | client/discord/runtime/src/protocol.rs:226-265 | whatever decoded packet arrives, the table stays within 128 assemblies of 2 to 64 partly filled slots, and what is rebuilt has at most 65,507 bytes |
| Reassembly.BufferBound | server/app/discord_protocol.py:104-132 | a bounded table buffers at most 128 * 63 * 1,130 bytes |
| Reassembly.ServerStepValid | server/app/discord_protocol.py:104-132 | the insertion order lists every assembly once after any step |
| DatagramRuns.IdsRepeat | server/app/discord_http3.py:86-88 | two sends share a message id exactly when they are a multiple of 2^32 sends apart |
| DatagramRuns.CounterIsFresh | client/discord/runtime/src/transport.rs:328-333 | up to 2^32 messages numbered by the counter never share a reassembly key |
| DatagramRuns.WholePacketPasses | client/discord/runtime/src/protocol.rs:222-234 | a packet sent whole is handed out unchanged exactly when its payload does not begin with the magic, and then in every table |
| DatagramRuns.ArriveGenuine | server/app/discord_protocol.py:104-132 | for such traffic (see `RunIsSafe`), after any arrival every filled slot holds its own message's body in its place, and only the arriving message can come out, whole |
| DatagramRuns.ArriveFills | server/app/discord_protocol.py:121-132 | for such traffic an arrival fills at most its own slot, and a message comes out only when all its other slots are filled |
| DatagramRuns.ArriveKeys | server/app/discord_protocol.py:116-120 | for such traffic an arrival opens at most its own message's assembly |
| DatagramRuns.RunIsSafe | client/discord/runtime/src/protocol.rs:183-266 | over every run with loss, repetition, reordering, interleaving and eviction, in traffic whose split messages have distinct keys and whose messages, where the receiver accepts them, do not begin with the magic when whole and, at the client, spell their host as it prints it, an accepted arrival waits or hands out the packet of the very message that arrived, and one whose host text is not accepted is rejected |
| DatagramRuns.RunConserves | server/app/discord_protocol.py:121-132 | for such traffic a split message is handed out at most as often as each one of its fragments arrives |
| DatagramRuns.TableStaysBounded | client/discord/runtime/src/protocol.rs:226-265 | whatever bytes arrive, the table is bounded at the end of every run |
| DatagramRuns.ReusedKeyMixes | client/discord/runtime/src/protocol.rs:236-265 | for any two messages that share a key and differ in first body and rest, a run hands out a packet nobody sent: fresh ids are needed |
| Completeness.MessageIsDelivered | server/app/discord_protocol.py:116-132 | if every fragment arrives, in any order and mixed with anything, and fewer than 128 other assemblies are opened meanwhile, the message is delivered |
| Completeness.OldestIsLost | server/app/discord_protocol.py:116-120 | the oldest assembly survives a run of openings exactly while their number and the table's size do not exceed 128: the bound is tight |
| Completeness.OtherPacketHolds | server/app/discord_protocol.py:104-132 | a foreign packet leaves the fragments held so far alone while fewer than 128 others were opened after them |
| Completeness.OwnFragment | server/app/discord_protocol.py:121-132 | a fragment of the message completes it or is added to what is held |
| SendBuffer.UdpTransport.SendUdp | client/discord/runtime/src/transport.rs:308-344 | a send registers its flow, takes the next id whether or not the packet can go, and submits all its fragments as one batch or none, up to the datagram the connection refuses; it fails or panics exactly in the cases named |
| SendBuffer.EncodesAlike | client/discord/runtime/src/transport.rs:335-341 | the client's encoder accepts a packet exactly when what crosses the wire is encodable |
| SendBuffer.SenderBatches | client/discord/runtime/src/transport.rs:321-343 | a realtime packet (at most 512 bytes) is never split; every batch the sender makes has one class |
| SendBuffer.PushSums | client/discord/runtime/src/transport.rs:43-49 | a push adds its own bytes and can only take others away, and displaces nothing when the buffer is not over-full |
| SendBuffer.ReserveStep | client/discord/runtime/src/transport.rs:43-49 | one event keeps video within 57,344 bytes, and displaces nothing while voice is within its 8,192 |
| SendBuffer.VoiceReserve | client/discord/runtime/src/transport.rs:43-49 | the same over every run |
| SendBuffer.SendsKeepReserve | client/discord/runtime/src/transport.rs:308-344 | over every run of `send_udp` calls and transmissions from an empty buffer, whatever the packets, video keeps within its limit, and nothing is displaced while voice keeps within its reserve |
| SendBuffer.AllOrNothing | client/discord/runtime/src/transport.rs:334-343 | a video batch is admitted whole, in order, behind the queue, or not at all; only a connection that refuses a datagram cuts it, there |
| FlowRouting.FlowsDistinct | client/discord/runtime/src/embedded.rs:142-143 | the bridges' flows are pairwise different exactly when fewer than 2^32 bridges are opened |
| FlowRouting.StepKeeps | client/discord/runtime/src/transport.rs:222-236 | every step of relays, network, reassembly, driver, dispatcher and bridges, whatever the traffic, keeps each event on its own flow and route and made of that flow's datagrams |
| FlowRouting.FlowIsolation | client/discord/runtime/src/embedded.rs:139-200 | in every run with fewer than 2^32 bridges, whatever the traffic, each payload a bridge hands to its client came in datagrams the server sent for its own flow, which no other bridge has: whole in one, without the magic, or its parts each in its place under one host, port and message id |
| FlowRouting.GoodTrafficIsWhole | server/app/discord_http3.py:57-63 | if in the run the split messages' keys are distinct and every message the client accepts is unambiguous and canonically spelled, that payload is one the relay of the flow received, whole |
| FlowRouting.FilterNeverRefuses | client/discord/runtime/src/embedded.rs:182-195 | an event waiting for a bridge carries that bridge's flow and came out of the reassembler under it: the filter never drops one |
| Upstream.BoundedQueue.TryPush | client/discord/runtime/src/queue.rs:54-60 | a push is refused exactly when the queue is full, and otherwise goes behind everything queued |
| Upstream.BoundedQueue.TryRecv | client/discord/runtime/src/queue.rs:62-64 | a receive takes the oldest item, or nothing from an empty queue |
| Upstream.WorkerPutKeeps | client/discord/runtime/src/runtime.rs:310-347 | passing a command on loses and reorders nothing between worker and ops channel |
| Upstream.CloseOpKeeps | client/discord/runtime/src/runtime.rs:124-138 | a close that overtakes queued sends keeps what was sent a prefix of what was accepted |
| Upstream.DispatchKeeps | client/discord/runtime/src/runtime.rs:278-297 | applying an op to the transport keeps the session's byte accounting |
| Upstream.TaskKeeps | client/discord/runtime/src/transport.rs:403-443 | every move of the stream task keeps it, also when an error strikes in the middle of an item |
| Upstream.StepKeeps | client/discord/runtime/src/runtime.rs:243-297 | every step of any thread keeps every session's accounting, with all sessions on the one ops channel |
| Upstream.UpstreamFidelity | client/discord/runtime/src/transport.rs:281-303 | in every run what reached the stream is a prefix of what `enqueue` accepted; while the stream lives, and before it is opened, sent, channel, ops, hand and queue make up exactly what was accepted |
| StreamTask.Pump | client/discord/runtime/src/transport.rs:403-443 | the half-close loop emits data in order then at most one end or error, sends what it is offered in order with at most one FIN, and returns only with both halves closed |
| StreamTask.PumpTcpH3 | client/discord/runtime/src/transport.rs:357-401 | the task's events follow the grammar Error, refused status, or 200 Data* (Eof Error? or Error); bytes in and out are those of the turns taken; nothing is sent unless the status is 200 |
| ServerTunnel.InputKeeps | server/app/discord_http3.py:142-160 | a data event keeps the tunnel's invariant, also when the early-data limit closes it |
| ServerTunnel.AdvanceKeeps | server/app/discord_http3.py:182-219 | every step of the tunnel's task, failure and cancellation included, keeps it |
| ServerTunnel.NextKeeps | server/app/discord_http3.py:111-160 | every event of the connection keeps every tunnel's invariant |
| ServerTunnel.TunnelAccounting | server/app/discord_http3.py:142-219 | in every run written, pending and dropped make up the data of the stream's events, dropped is empty for a tunnel in the table or connected, pending is at most 1 MiB and empty once a writer exists, and for a client that waits for the 200 the end is passed on exactly when it was received |
| ServerTunnel.NoLeftovers | server/app/discord_http3.py:210-228 | no tunnel in the table is finished on both sides; a tunnel whose task ended stays exactly when upstream has ended and the client has not, or, if the task never began, exactly when the connection was lost; out of the table everything is closed |
| ServerTunnel.LeftoverHappens | server/app/discord_http3.py:101-109 | the exception occurs: a connection lost before the task's first step leaves the tunnel in the table with its task over |
| ServerTunnel.ServerTrace | server/app/discord_http3.py:182-219 | the server emits a prefix of 200 DATA* FIN, or 502 with FIN, with exactly the bytes fetched, if and only if no flush of early data failed |
| ServerTunnel.PatientClient | server/app/discord_http3.py:182-219 | for a client that sends nothing before the 200 the response is well-formed in every run, and once upstream is connected all data received and its end have been passed on |
| ServerTunnel.BareEndHappens | server/app/discord_http3.py:187-219 | the excluded case occurs: early data, a connection, and a failed flush leave a bare end of stream |
| ServerTunnel.TcpTunnel.Connect | server/app/discord_http3.py:187-200 | the in-place update on connection equals the model's step |
| ServerTunnel.TcpTunnel.Receive | server/app/discord_http3.py:142-156 | the in-place update on a data event equals the model's step |
| ServerTunnel.TcpTunnel.CloseOut | server/app/discord_http3.py:221-228 | the in-place update when a tunnel leaves the table equals the model's close |
| ServerTunnel.DiscordHttp3Protocol.OpenTunnel | server/app/discord_http3.py:134-141 | a new tunnel enters the table under its stream and touches no other |
| ServerTunnel.DiscordHttp3Protocol.CloseTcp | server/app/discord_http3.py:221-228 | the tunnel leaves the table, its writer is closed and its task cancelled unless it is the caller |
| ServerTunnel.DiscordHttp3Protocol.HandleData | server/app/discord_http3.py:142-160 | a data event changes exactly its own tunnel as the model says, and the table accordingly |
| EndToEnd.SameTask | client/discord/runtime/src/transport.rs:403-420 | the pump of `StreamTask` and the task of `Upstream` send the same bytes and end the stream at the same turn |
| EndToEnd.ClientIsPatient | client/discord/runtime/src/transport.rs:376-402 | in every run of client, stream and server nothing of a stream reaches the server before the 200: the client's task sends only after it |
| EndToEnd.StreamFidelity | client/discord/runtime/src/transport.rs:376-443 | in every run of both ends what the server writes upstream is a prefix of what the session accepted, the end is passed on only after everything sent, and the response is well-formed |
| Downstream.EndsGrow | server/app/discord_http3.py:182-219 | no step of either end takes back or changes response bytes, and a finished response stays as it is |
| Downstream.StepKeeps | client/discord/runtime/src/embedded.rs:242-312 | every step of server, task, driver, dispatcher and writer keeps, for every session, written, queued and on the way in order, no data behind the end, and the end only of a finished response |
| Downstream.StreamFidelity | client/discord/runtime/src/embedded.rs:242-312 | in every run what the local client is written is a prefix of what the server fetched upstream; while route and writer live nothing the task has read is lost; the writer shuts down only with all of it written and the response finished |
| Driver.DrainTakes | client/discord/runtime/src/runtime.rs:258-267 | a batch takes from the front, loses nothing, and takes all it finds up to 64 |
| Driver.TransportDriver.ApplyOps | client/discord/runtime/src/runtime.rs:258-262 | the ops loop takes exactly the batch specified, in order, while more arrive |
| Driver.TransportDriver.ForwardEvents | client/discord/runtime/src/runtime.rs:263-267 | the events loop forwards exactly the batch specified, in order |
| Driver.TransportDriver.Iterate | client/discord/runtime/src/runtime.rs:252-275 | one turn of the loop equals the model's iteration |
| Driver.StopsOnlyWhenIdle | client/discord/runtime/src/runtime.rs:268-274 | the loop ends for a lost connection only in an iteration that found both queues empty |
| Driver.EventsAreForwarded | client/discord/runtime/src/runtime.rs:250-275 | an event with k ahead of it is forwarded within k / 64 + 1 iterations, however many ops are queued or arrive |
| Driver.OpsAreApplied | client/discord/runtime/src/runtime.rs:250-275 | the same bound for operations, however many events arrive |
| BridgeLife.OwnerStepKeeps | client/discord/runtime/src/embedded.rs:90-262 | the owner's next step, a refused thread included, leaves its id in the tables its phase allows |
| BridgeLife.NextKeeps | client/discord/runtime/src/runtime.rs:112-138 | every step of any thread keeps every id where its owner's phase says |
| BridgeLife.RunKeeps | client/discord/runtime/src/embedded.rs:90-240 | the same over every run that hands out fewer than 2^64 ids |
| BridgeLife.StrandedBySpawn | client/discord/runtime/src/embedded.rs:223-262 | an owner ends without cleaning up only when it is refused a thread for its worker, its bridge or its raw TCP writer: with fresh ids neither `open` nor the first `enqueue` can fail |
| BridgeLife.NoLeaks | client/discord/runtime/src/embedded.rs:90-129 | over every interleaving that hands out fewer than 2^64 ids, an id in a table has an owner still opening, running or leaving, and an id whose thread is over is in a table exactly when one of these spawns was refused |
| BridgeLife.RefusedSpawnLeaks | client/discord/runtime/src/embedded.rs:102-128 | each of the three refusals leaves behind all the bridge had: route, session, and worker and cancel entry once made |
| BridgeLife.LeavingEnds | client/discord/runtime/src/embedded.rs:125-127 | left to itself, a leaving owner ends with its id out of every table it listed |
| BridgeLife.FinishClears | client/discord/runtime/src/embedded.rs:314-319 | finishing a bridge takes its id out of every table and leaves every other id where it was |
| BridgeLife.EmbeddedService.AllocateId | client/discord/runtime/src/runtime.rs:141-143 | ids are given in order, wrapping at 2^64 |
| BridgeLife.EmbeddedService.RegisterRoute | client/discord/runtime/src/embedded.rs:565-569 | the in-place update equals the owner's first step |
| BridgeLife.EmbeddedService.Open | client/discord/runtime/src/runtime.rs:112-121 | opening equals the owner's two steps: session, then worker or a refused thread |
| BridgeLife.EmbeddedService.EnqueueOpen | client/discord/runtime/src/runtime.rs:151-158 | queueing the opening command equals the owner's step |
| BridgeLife.EmbeddedService.ListBridge | client/discord/runtime/src/embedded.rs:99-100 | inserting the cancel entry equals the owner's step |
| BridgeLife.EmbeddedService.CloseBridge | client/discord/runtime/src/embedded.rs:211-221 | cancelling finds the bridge exactly when it is listed and removes only the cancel entry |
| BridgeLife.EmbeddedService.Close | client/discord/runtime/src/runtime.rs:124-138 | closing removes the session and its worker and nothing else |
| BridgeLife.EmbeddedService.Cleanup | client/discord/runtime/src/embedded.rs:571-574 | clean-up removes route, session and worker |
| BridgeLife.EmbeddedService.FinishBridge | client/discord/runtime/src/embedded.rs:314-319 | finishing removes the id from all four tables |
| HookBindings.ImageDecides | client/discord/hook/native/hooks.cpp:183-223 | two addresses equal within their length have the same target, and are both loopback, both IPv4 at the tunnel's port, or neither |
| HookBindings.EnsureKeeps | client/discord/hook/native/hooks.cpp:244-300 | ensuring a binding keeps the ownership, and a binding it gives reaches the address and protocol asked for |
| HookBindings.CloseKeeps | client/discord/hook/native/hooks.cpp:244-256 | closing a binding closes its bridge and leaves every other socket its own |
| HookBindings.NextKeeps | client/discord/hook/native/hooks.cpp:524-737 | every hook call keeps the ownership, and what it redirects goes to a bridge opened for the address it was meant for |
| HookBindings.Ownership | client/discord/hook/native/hooks.cpp:244-300 | over every sequence of hook calls the bridges opened and not yet closed by the hook are exactly the bound ones, none shared, none for loopback or for an IPv4 host at the tunnel's port, and none left once the sockets are closed |
| HookBindings.RedirectsReach | client/discord/hook/native/hooks.cpp:603-737 | any redirected connect or send of any run reaches a bridge opened for its own destination and protocol |
| HookBindings.SendToOutcome | client/discord/hook/native/hooks.cpp:638-707 | a send to an address on a hooked UDP socket passes exactly when the address is exempt or the hook overlooks the send (empty, or not of one nonempty buffer), is redirected exactly when it is looked at and a bridge can be opened for the address and is there or can be had, and is refused otherwise |
| HookBindings.DataPasses | client/discord/hook/native/hooks.cpp:638-707 | bytes sent to an address leave a hooked UDP socket past the bridges exactly when it is loopback, or IPv4 at the tunnel's port whatever the host, or when they come in a number of buffers other than one |
| HookBindings.ConnectOutcome | client/discord/hook/native/hooks.cpp:524-576 | a TCP connect to an address with a target is left to the system exactly for loopback and any IPv4 host at the tunnel's port, and else redirected exactly when the runtime is up and the bridge is there or can be had |
| HookBindings.TwoBuffersPass | client/discord/hook/native/hooks.cpp:638-672 | data in two buffers, the first not empty, passes to any address in any state |
| HookBindings.TunnelPortPasses | client/discord/hook/native/hooks.cpp:486-490 | 8.8.8.8 at the tunnel's port 443 is connected to and sent to past the bridges, though a bridge could be opened for it |
| HookBindings.SendFollowsConnect | client/discord/hook/native/hooks.cpp:524-636 | a send of any kind follows the last connect exactly unless the connect is one the hook leaves to the system while an earlier peer is on record and the hook looks at the send, or the connect is one it takes on and the send is one it overlooks; both can be told before the calls |
| HookBindings.StalePeer | client/discord/hook/native/hooks.cpp:536-541 | the exception happens: connect outside, connect to loopback, send goes to the outside peer's bridge |
| HookBindings.StrayBuffers | client/discord/hook/native/hooks.cpp:603-636 | the other exception happens: connect outside through a bridge, then a send of two buffers goes to the system on the socket that was never connected |
| HookBindings.Hooks.RuntimeStarts | client/discord/hook/native/hooks.cpp:157-159 | the runtime becoming ready equals the model's step |
| HookBindings.Hooks.Register | client/discord/hook/native/hooks.cpp:507-522 | a created socket enters the table |
| HookBindings.Hooks.EnsureBridgeBinding | client/discord/hook/native/hooks.cpp:286-300 | the in-place tables change as the model says, and the binding is the model's |
| HookBindings.Hooks.OpenBridgeForSocket | client/discord/hook/native/hooks.cpp:258-284 | opening records the new bridge for the socket, or changes nothing |
| HookBindings.Hooks.CloseBridgeBinding | client/discord/hook/native/hooks.cpp:244-256 | closing a binding closes its bridge and leaves the others |
| HookBindings.Hooks.Connect | client/discord/hook/native/hooks.cpp:524-576 | the connect hook equals the model's step |
| HookBindings.Hooks.SendTo | client/discord/hook/native/hooks.cpp:676-707 | the sendto hooks equal the model's step |
| HookBindings.Hooks.Send | client/discord/hook/native/hooks.cpp:709-737 | the send hooks equal the model's step |
| HookBindings.Hooks.CloseSocket | client/discord/hook/native/hooks.cpp:767-778 | the close hook equals the model's step |
| Text.TrimFixes | client/discord/shared/config.cpp:16-23 | stripping leaves no blank at either end, and leaves exactly the stripped texts alone |
| Ini.ParseIni | client/discord/shared/config.cpp:37-71 | the reading loop gives the table the line-by-line specification gives, in either dialect |
| Ini.LinesRoundTrip | client/discord/hook/native/config.cpp:91-92 | lines without line feeds, written out, are read back |
| Ini.ParsedIsClean | client/discord/shared/config.cpp:44-69 | whatever the text, every value read is on one line and stripped |
| Ini.WrittenLine | client/discord/hook/native/config.cpp:98-108 | a written key and value set that key to the stripped value in either reader |
| Ini.WrittenSection | client/discord/hook/native/config.cpp:100-103 | a written header opens its section in either reader |
| Config.NumberRoundTrip | client/discord/shared/config.cpp:126-135 | a printed number reads back through `std::stoul` |
| Config.ParseSaved | client/discord/shared/config.cpp:148-164 | a saved file holds every setting, stripped the reader's way, for any values on one line |
| Config.LoadedIsPrintable | client/discord/shared/config.cpp:113-146 | whatever the text, a configuration that loads is one that can be printed |
| Config.LoadSaveRoundTrip | client/discord/shared/config.cpp:113-164 | loading what was saved gives the configuration back exactly when server, token and CA path are nonempty, all values are on one line and stripped, and the port is 1 to 65535 |
| Config.HookReadsSaved | client/discord/hook/native/config.cpp:137-179 | the hook finds in any saved file what was saved, stripped its own way, enabled, with listen port 17821 |
| Config.ReadersAgree | client/discord/hook/native/config.cpp:20-25 | the two readers agree exactly when server, token and CA path have no vertical tab or form feed at an end |
| Config.SaveConfig | client/discord/shared/config.cpp:148-164 | the statements that write the file give the specified text |
| Config.LoadConfig | client/discord/shared/config.cpp:113-146 | filling in the fields gives the specified result, and only printable configurations |
| Allowlist.IsAllowedDestination | server/app/discord_protocol.py:135-151 | the loop over the entries answers as specified |
| Allowlist.MatchIsLabelSuffix | server/app/discord_protocol.py:149-150 | equality or the dotted ending holds exactly when the entry's labels end the host's labels, for all texts |
| Allowlist.AllowedMeansLabels | server/app/discord_protocol.py:135-151 | a host that is no IP address is let through exactly when the labels of some nonempty entry end its labels |
| Allowlist.OuterSpace | server/app/discord_protocol.py:136-136 | white space around a host changes nothing |
| Allowlist.LetterCase | server/app/discord_protocol.py:136-136 | letter case changes nothing |
| Allowlist.TrailingDot | server/app/discord_protocol.py:136-136 | a trailing dot changes nothing exactly when it does not follow white space behind a name |
| Allowlist.SameAnswer | server/app/discord_protocol.py:135-151 | the answer is the same for every such spelling |
| Allowlist.DotBehindSpace | server/app/discord_protocol.py:135-151 | behind white space a dot shuts the host out of every list whose entries are stripped |

## Left out

- QUIC, HTTP/3, TLS, DNS and certificates: a reliable stream is a FIFO, the datagram channel a bag that loses,
  repeats and reorders, the send buffer the byte-counted queue quinn keeps (drops its oldest while over-full, then
  appends).
- IDNA, UTF-8 validity and the text form of IPv6: parameters of the codec, with parse and print inverse on
  canonical text; host text is an opaque byte string.
- UTF-8 and wide text, and the text mode of Windows streams: taken as the identity on characters below 256.
- Letter case outside ASCII: `Lower` changes `A` to `Z` only.
- IP addresses in the allowlist: whether a text is one and whether it is global is a parameter.
- The server's cap of 128 UDP flows: check and insertion are separated by an await, so it is no invariant.
- Idle and read timeouts of the server, and the swallowing of a cancellation by `asyncio.wait_for`: an exception
  or a cancellation can strike at any await of a tunnel's task.
- Driver.TransportDriver.Iterate: a panic inside an operation, as `SendUdp` shows for a host text of 1,131 bytes,
  ends the driver's thread in the middle of a batch; the loop is modelled without it, and `Upstream` lets the driver
  stop at any step.
- Panics other than refused threads and that division, and the lock poisoning they would cause.
- Trailers and a second header block on a tunnel stream.
- The other threads of `Upstream`, `FlowRouting` and `BridgeLife` are steps on values rather than classes: their
  interleaving is what the theorems are about.
- `Transport.flows` after a close: a queued send can register its flow again, so nothing is claimed of it.
- `WSAConnect`, `ConnectEx` and `WSASendMsg`, which are not hooked, and sockets not created through the hooked calls.
- A local connection that its threads drop after a failure or a cancellation: the system ends it, and only the
  writer's own shutdown is an event of `Downstream`.
- Overlapped receives, completion callbacks and the rewriting of source addresses in the hook.
- Two hook calls racing on one socket: each hook call is one step.
- Addresses longer than `sockaddr_storage` passed to the send hooks.
- The runtime answering an open with success and id or port zero: it binds its port before it answers.
- The UDP, proxy and logging sections of the hook's configuration, and its strategy names.
- Session epochs and back-off, the loopback mode of the runtime, the C interface, the installer's windows, logging,
  deployment: no protocol state.
