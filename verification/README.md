# Verified models of smux, the sharded map and the ssh configuration parser

Dafny models of three parts of the repository, with proofs of what they promise:

* **smux**, a multiplexer of byte streams over one connection: the wire format, the scheduling heap, the buffer
  allocator, buffer ownership, the stream protocol between two endpoints with its sliding window, the token bucket of
  the receiving side, and the objects that implement them.
* **ws/concurrent_map.go**, a map in 32 locked shards, with a snapshot that runs while others write.
* **sshconfig**, a lexer of state functions that feeds a parser through a channel.

`dafny verify dfyconfig.toml` checks everything.

## How the models are built

Code that works by changing fields in place is written as classes and methods with loops (`Conn`, `Sender`,
`ShaperHeap`, `Allocator`, `Stream`, `Session`, `ConcurrentMap`, `Lexer`, and the parser's loop). Each method is tied to
a specification function, and the theorems are about those functions.

Code that runs in several goroutines is written as state machines. A step is one section under a lock, one atomic
operation or one channel operation, and the steps interleave freely:

| module | what runs concurrently |
|---|---|
| `Buffers` | pools, `recvLoop`'s hand, streams, running `WriteTo` calls, over one memory |
| `StreamLink` | one stream: the opener's writer and `recvLoop`, the acceptor's `recvLoop` and reader, two wires |
| `Mux` | all streams of two endpoints over two shared wires; each stream projects to `StreamLink` |
| `Receive` | one endpoint against any peer that does not reuse ids: `recvLoop`, any number of reading and closing goroutines, the token bucket |
| `Gated` | `Mux` with a token bucket before each `recvLoop`, and readers that give tokens back |
| `Duplex` | one stream that both ends write and read: two links over the same two wires and `recvLoop`s |
| `Counting` | one `Count` call and any writers |
| `Snapshot` | one `Items` call: 32 filling goroutines, the fan-in, the caller, and any writers |

What can happen is treated apart from what always holds. `ReceiveProgress` shows that `recvLoop` comes back to reading,
`GatedProgress` that everything under way in the whole system drains away and a blocked writer can then send, `Closing`
that the reader of a closed stream comes to the end of it, and `Deadlock` and `GatedDeadlock` what happens without the
room or the tokens for that; `Settings` says it in terms of what `VerifyConfig` accepts. The objects of `Sessions` share
one memory and one allocator; `Session.Valid` is the ownership invariant of `Buffers` over them, and every method that
touches a buffer is a step, or a few, of `Buffers`.

The configuration parser is followed item by item in `SshLex` and `SshParse`. `SshDoc` says what a text means without
them: a document of lines, each field the last value that its host sets, forwards gathered, the first bad line refused.
`DocParses` and `FaultRefuses` show that lexer and parser compute that.

Assumptions, as the code needs them: one reader and one writer goroutine for each stream; both ends run this code with
one version, one of them as client; no deadline, no socket error and no session close; a version 2 write is shorter than
2^31 bytes (`OpenWindowFitsIff` says what a longer one does).

## Where the code and its documentation differ

The models follow the code.

* The first stream id of a client is 3 and of a server 2, because the counter is raised before it is used
  (smux/session.go:134-135); smux/README.md says 1 and 0.
* `MaxReceiveBuffer` is cast to `int32` (smux/session.go:98) and `VerifyConfig` does not bound it: `InitialBucketIff`,
  `AcceptedAndParkedIff` and `BucketFitsIff` say exactly what that costs, and `AcceptedWithoutTokens` is an accepted
  size that leaves no token at all.
* A window update whose count is 0 modulo 2^32 is not sent (smux/stream.go:154). A version 2 writer can then wait for
  ever (`StarvesWithoutRoom`), and it can also when a bucket starts without a token (`StarvesWithoutTokens`).
  `Settings.NeverStuckIff` gives the exact condition on two accepted configurations; the default sizes meet it, the
  windows with no byte to spare.
* `OpenStream` enters the stream in its map only after the SYN is written (smux/session.go:145-159), and data for a
  stream that is not in the map is dropped without a trace (smux/session.go:366). So the first bytes of an acceptor that
  writes at once can be lost (`LosesEarlyByte`); `NothingIsLostIff` gives the condition.
* `SYN`, `FIN` and `UPD` frames ignore the length field of the header, and `UPD` is accepted in version 1, which
  smux/README.md restricts to version 2.
* `Items` is not always the map at one moment but each shard at one moment (`ItemsPerShard`), and neither is `Count`
  (`CountPerShard`); `ItemsIsAMomentIff` and `CountIsAMomentIff` give the exact condition for the whole.
* A space after the last name of a `Host` line loses the names, and refuses the file if lines end in CRLF
  (`SpaceAfterNames`): sshconfig/lex.go:222-224 looks at one character twice.

## Model

| member | source | states |
|---|---|---|
| Arith.WrappedDifference | smux/stream.go:369-377 | the signed 32-bit difference of two wrapped counters is the true difference if and only if that difference fits into an int32, after any number of wraps |
| Wire.LittleEndianRoundTrip | smux/frame.go:61-67 | the 16-bit length keeps the low 16 bits of a payload's length, and a stream id comes back whole |
| Wire.FrameLayout | smux/frame.go:31-67 | version, command, 16-bit length and stream id stand at bytes 0, 1, 2 and 4 of the eight of the header, little endian, before the payload; the commands are 0 to 4 |
| Wire.UpdateDataBack | smux/stream.go:253-257 | a window update has 8 bytes, the count in the first four and the window in the last four, and both are read back |
| Wire.OneFrameRoundTrip | smux/session.go:333-391 | a serialised frame is read back as it was, leaving what follows it, if and only if it has the session's version, a known command and a payload of the size that the command makes the receiver read |
| Wire.AnyFrameReceived | smux/session.go:333-391 | what is made of every frame, sound or not, whatever follows it: a wrong version or an unknown command is a protocol error; otherwise the frame is the one that the command makes the receiver read |
| Wire.FramesRoundTrip | smux/session.go:486-499 | any sequence of such frames, written one after the other, is read back as the same sequence |
| Wire.MoreBytesOne | smux/session.go:333-391 | bytes that arrive later never change a frame, or a protocol error, that the bytes so far have settled |
| Wire.PartIsShort | smux/session.go:333-335 | a beginning of a sound frame is never taken for anything: the receiver waits for more |
| Wire.PartIsLeft | smux/session.go:320-397 | so, when the connection ends within a frame, all frames before it are handled and the part is left |
| Wire.ErrorStops | smux/session.go:336-339 | after any sound frames, a frame of a wrong version or command stops the loop with a protocol error, exactly those frames handled |
| Wire.SplitAnywhere | smux/session.go:320-397 | handling a prefix of the connection's bytes and then the rest gives the same frames as handling all at once, for every cut |
| Wire.Conn.ReadFull | smux/session.go:364 | reading exactly n bytes from a connection that delivers pieces of any size gives the next n bytes, or fails when the connection ends first |
| Wire.Conn.ReceiveFrame | smux/session.go:333-391 | the reading part of a turn of recvLoop, version check included, depends on the bytes only, not on how they are cut; `AnyFrameReceived` says what it makes of them |
| Wire.Conn.ReceiveLoop | smux/session.go:320-397 | the frames handled until the connection ends or breaks the protocol are those of the byte string |
| Wire.Sender.SendFrame | smux/session.go:486-504 | both ways of writing, vectored and through the 64 KB buffer, put header and payload of one frame on the connection and report the payload's length |
| Shaper.SerialOrder | smux/shaper.go:3-15 | of two requests of one class, the i-th issued comes before the j-th if and only if 0 < (j - i) mod 2^32 < 2^31, as in section 3.2 of RFC 1982 |
| Shaper.LessIsKeyOrder | smux/shaper.go:10-15 | if all numbers lie in a window of 2^31, wherever it wraps, Less is the strict total order by class and then by distance from the start of the window |
| Shaper.RankIsIssueOrder | smux/session.go:530-535 | numbers drawn from any 2^31 consecutive issues have that distance equal to their unbounded issue distance |
| Shaper.UnorderedIff | smux/shaper.go:10-15 | two requests of one class are ordered neither way if and only if their issue distance is a multiple of 2^31: the window bound is sharp |
| Shaper.ControlFirst | smux/shaper.go:10-15 | every control request comes before every data request, and none the other way round |
| Shaper.HeapOrderedIsHeap | smux/shaper.go:7-18 | no request comes before its parent if and only if the keys form a heap |
| Shaper.RiseStep | smux/shaper.go:17-18 | exchanging a request with the parent that it precedes moves the only possible disorder up by one level |
| Shaper.SinkOnce | smux/shaper.go:17-26 | exchanging a request with the first of its children moves the only possible disorder down by one level |
| Shaper.RootIsLeastOfAll | smux/shaper.go:20-26 | no request of a heap comes before its root |
| Shaper.ShaperHeap.Up | smux/shaper.go:17-18 | sift up restores the heap and keeps its contents |
| Shaper.ShaperHeap.Down | smux/shaper.go:17-26 | sift down restores the heap and keeps its contents |
| Shaper.ShaperHeap.Push | smux/shaper.go:18 | the heap gains exactly the pushed request and stays a heap |
| Shaper.ShaperHeap.Pop | smux/shaper.go:20-26 | the popped request is one that no other precedes, the rest stays, and stays a heap |
| Shaper.ShaperHeap.Drain | smux/shaper.go:9-26 | popping until empty gives the requests in order, a permutation of the heap |
| Shaper.ShaperHeap.Turn | smux/session.go:431-462 | one turn of shaperLoop either accepts a request or sends the least pending one, next included; the heap never holds more than 1025; both channels are never nil, so the panic is unreachable |
| Shaper.ShaperHeap.Loop | smux/session.go:425-463 | the loop, against any sequence of producers and of a sendLoop that is ready, answers each offer as the rule says: accepts while there is room, sends the least pending while there is any |
| Shaper.AnswersAreRun | smux/session.go:431-462 | what the loop does in answer to offers is a run of "repeatedly send the least pending request", so the next two hold of it |
| Shaper.AcceptedIff | smux/session.go:440-445 | a request on offer is accepted exactly while at most 1024 are pending |
| Shaper.IdleTurnSends | smux/session.go:433-436 | without an offer, one that no pending request precedes is sent, while there is any |
| Shaper.AllAreSent | smux/session.go:425-463 | after as many turns without an offer as requests are pending, each has been sent once and none is left |
| Shaper.NothingLostNothingTwice | smux/session.go:425-463 | over any run, each accepted request has been sent or is pending, exactly once, and at most 1025 are pending |
| Shaper.LeavesFirst | smux/session.go:425-463 | a pending request that comes before another leaves before it, whatever is accepted meanwhile |
| Alloc.SmearStep | smux/alloc.go:66-70 | one shift-and-or doubles the run of ones below the highest bit |
| Alloc.DeBruijnTable | smux/alloc.go:71 | for every length, the all-ones word of that length, multiplied modulo 2^32 and shifted, finds its highest bit in the table |
| Alloc.MsbFindsHighestBit | smux/alloc.go:64-72 | smear, multiply and look up give the position of the highest bit of every 32-bit word |
| Alloc.Msb | smux/alloc.go:64-72 | msb is floor(log2 size) for every 32-bit size from 1 on |
| Alloc.SizeClassIsLeast | smux/alloc.go:43-48 | for 1 to 65536, the pool chosen holds the least power of two that is not below the size, which is less than twice the size, and its index is in range |
| Alloc.GetReuses | smux/alloc.go:38-49 | a slice that the pool has to give is used again and leaves its pool, all other pools stay as they are; storage is made only when there is none |
| Alloc.PoolableIffPowerOfTwo | smux/alloc.go:54-57 | the test in Put holds if and only if the capacity is a power of two up to 65536 |
| Alloc.Allocator.constructor | smux/alloc.go:25-35 | 17 empty pools |
| Alloc.Allocator.Get | smux/alloc.go:38-49 | nil outside 1 to 65536; else a slice of the asked length from its size class, pooled or new, and every pool keeps its capacity |
| Alloc.Allocator.Put | smux/alloc.go:53-60 | refused unless the capacity is a power of two up to 65536, else it joins the pool of its capacity |
| Buffers.GetFromCount | smux/alloc.go:38-49 | getting moves one storage out of its pool, or makes one that nobody holds |
| Buffers.PutAllCount | smux/stream.go:514-524 | giving slices back adds exactly their storages to the pools, if all are poolable, and never more |
| Buffers.HoldersAfter | smux/stream.go:92-104 | every step keeps exact count of the holders of a storage among pools, streams, WriteTo calls and recvLoop: a new one gets one; the buffer of a payload for no stream, and the rest of a buffer that WriteTo cannot give back, lose theirs; no other changes |
| Buffers.NewOrPooled | smux/alloc.go:25-35 | a slice from Get lies in the memory or is the whole of a new storage |
| Buffers.FillTouchesNoStream | smux/session.go:363-364 | filling a fresh buffer changes no byte that any stream still holds, also when its storage was recycled |
| Buffers.InvKept | smux/stream.go:505-524 | every step keeps: buffers and heads in lockstep, each buffer a non-empty suffix of its head, pool k at capacity 2^k, no storage owned twice |
| Buffers.StepIsQueueStep | smux/stream.go:92-104 | each push, partial read, WriteTo step and recycling elsewhere is a step of a byte queue: in at the back, out at the front |
| Buffers.EveryRunIsSafe | smux/stream.go:178-189 | the ownership invariant holds in every world that any run reaches, so nothing is put back twice |
| Buffers.StartIsSafe | smux/alloc.go:25-35 | it holds at the start |
| Buffers.FirstInFirstOut | smux/stream.go:82-117 | over any run, what the reader got is a prefix of what was delivered, and the rest waits in order |
| Buffers.ArriveQueues | smux/session.go:361-376 | getting, filling and pushing a payload puts it at the back of one queue and changes no other |
| Buffers.WriteOutQueues | smux/stream.go:176-201 | a turn of WriteTo takes the first buffer's bytes off one queue and changes no other |
| StreamLink.ConservedKept | smux/stream.go:298-425 | every step of either end keeps the bytes of the stream in order wherever they are |
| StreamLink.MeasureKeepsWindow | smux/stream.go:369-377 | the number of bytes in flight that writeV2 computes is the true number and never negative |
| StreamLink.RefusedIff | smux/stream.go:369-377 | in any state, reachable or not, ErrConsumed is returned if and only if the count written less the count acknowledged, modulo 2^32, is at least 2^31 |
| StreamLink.OpenWindowSplits | smux/stream.go:379-387 | the round sends as much of b as the window has room for, all of it if it fits, and keeps the rest |
| StreamLink.FirstRoundTakes | smux/frame.go:26-29 | the first round of a stream takes what fits into 262144 bytes |
| StreamLink.OpenWindowFitsIff | smux/stream.go:379-387 | for writes of any length: the round keeps to the open window if and only if b fits or its length, cast to int32, is not below the window; 2^31 bytes are sent all at once |
| StreamLink.ReaderToldKept | smux/stream.go:262-292 | every step keeps: a reader that waits while there is data has an event |
| StreamLink.ReadReportsIff | smux/stream.go:144-156 | a read reports if and only if half a buffer has gathered or nothing was read before, and the count is not 0 modulo 2^32; incr is reset also when that report is not sent |
| StreamLink.TryReadKeepsAcks | smux/stream.go:138-149 | away from a wrap, incr is exactly what is read and not reported, and below half a buffer |
| StreamLink.SignalOkKept | smux/stream.go:535-541 | every step keeps: a writer that measured or found its window closed has no update that it has not been told of |
| StreamLink.InvKept | smux/stream.go:364-425 | every step of the two endpoints keeps the whole invariant |
| StreamLink.ReachableInv | smux/session.go:320-521 | it holds in every reachable state |
| StreamLink.EndToEnd | smux/stream.go:83-168 | in every reachable state the bytes passed to Write are, in order, those read, those buffered at the receiver, those on the wire, those pending and those not yet cut |
| StreamLink.EofMeansComplete | smux/stream.go:273-281 | io.EOF comes only after every byte written before Close; a reader that wakes by the FIN gets EOF if and only if it has read them all; that it does come is `Closing.ClosedMustReachEof` |
| Closing.FinIsNotLost | smux/session.go:354-360 | in every reachable state, a FIN that was written has been handled by the acceptor or is the last frame on its way |
| Closing.ClosedMustReachEof | smux/stream.go:273-281 | once the FIN is written, in whatever order the two ends go on, a bounded number of steps is left, they do not run out before the reader is at io.EOF, and it then has every byte |
| Closing.CloseReachesEof | smux/stream.go:427-445 | from every reachable state in which nothing is being written, Close sends the FIN and some run brings the reader to io.EOF with every byte |
| Closing.EofStays | smux/stream.go:262-292 | a Read after io.EOF comes to io.EOF again, with nothing more |
| StreamLink.WindowSafety | smux/stream.go:364-403 | bytes sent and not known to be consumed never exceed max(262144, MaxStreamBuffer of the receiver), and neither does what is buffered, on the wire and pending, whatever half-applied updates the writer sees |
| StreamLink.WindowArithmeticIsExact | smux/stream.go:369-379 | the wrapped arithmetic of the window equals the unbounded one after any number of wraps, and ErrConsumed is never returned, also when an update arrives before numWritten is raised |
| StreamLink.DrainedMeansOpen | smux/stream.go:374-383 | when all is read and reported, away from a wrap or given the room, unacknowledged bytes equal incr, which is below half a buffer, the window is at least 1 and a waiting writer has a signal |
| StreamLink.NoLostUpdateSignal | smux/stream.go:408-420 | if the writer waits while its window is open, a signal is in the channel or recvLoop is about to send one |
| Deadlock.OwnStepGetsOn | smux/stream.go:364-425 | while a writer waits, every step of the two endpoints sends a byte or takes away some of the finite work that is left |
| Deadlock.BlockedCanStep | smux/stream.go:408-420 | on one stream whose recvLoops no bucket holds back, given the room: a blocked writer is never left with nothing under way; some step of the protocol is possible, reading counted only when there is data |
| Deadlock.MustSend | smux/stream.go:364-425 | in whatever order they run, the endpoints cannot take more than a fixed number of steps without sending a byte; given the room, and with recvLoops that no bucket holds back, they do not stop before |
| Deadlock.StuckForEver | smux/stream.go:408-420 | once all is drained, the window is closed and no signal is left, no run whatever, calls of Read included, changes the writer or sends a byte |
| Deadlock.WithoutRoomTheWriterStarves | smux/stream.go:146-156 | without the room there is a run that blocks the writer in such a state: the 2^32nd byte fills the window and its report is not sent |
| Deadlock.NeverStuckIff | smux/stream.go:138-160 | on one stream whose recvLoops no bucket holds back, a blocked writer can still send in every reachable state of version 2 if and only if half a receive buffer, less one byte, and a frame fit below MaxStreamBuffer |
| Mux.OpenIsFresh | smux/session.go:134-140 | a new id has its side's parity and was never used; at the wrap of the counter none is given |
| Mux.OpenedIs | smux/session.go:122-162 | OpenStream starts one stream under the next number of its side and changes nothing else; when the numbers are used up it only marks the side as gone away |
| Mux.FirstIds | smux/session.go:134-135 | the first streams of client and server are 3 and 2 |
| Mux.NopOnWire | smux/session.go:399-410 | a keepalive puts one NOP at the end of its wire, which the other end takes off |
| Mux.IdsOkKept | smux/session.go:134-159 | every step keeps: ids unique, of their opener's parity, and no frame names a stream that was not opened |
| Mux.DoProjects | smux/session.go:341-391 | a step of a stream in the shared system is a step of that stream alone |
| Mux.DoLeavesOthers | smux/session.go:341-391 | it leaves every other stream, and its frames on both wires, as they were |
| Mux.EveryStreamAsIfAlone | smux/session.go:320-521 | in every run of the system, whatever the interleaving, each stream is in a state that it could reach alone |
| Mux.SystemEndToEnd | smux/stream.go:298-425 | end-to-end order, complete EOF and no ErrConsumed for every stream of every reachable system |
| Closing.SystemFinArrives | smux/session.go:354-360 | for every stream of every reachable system, a FIN that was written has been handled or is the last frame of the stream on the shared wire |
| Mux.SystemWindow | smux/stream.go:364-403 | in version 2 no receiver buffers more of a stream than its window; and given the room every blocked writer of any reachable system can still send, its stream taken by itself and no bucket holding frames back |
| Mux.PacketRoundTrip | smux/stream.go:253-258 | the consumed count and the window of an update survive its eight bytes |
| Mux.EveryFrameIsWireSafe | smux/stream.go:317-334 | every frame that any producer emits survives the trip; no 16-bit length is truncated |
| Mux.ConnectionRoundTrip | smux/session.go:482-499 | the bytes of a wire of any reachable system are read back as exactly the frames that were put on it |
| Gated.PairRefinesSystem | smux/session.go:320-397 | a run under token buckets is a run of `Mux`: order, windows, ids and the wire format hold of it |
| Gated.PairInvKept | smux/session.go:313-376 | every step of the whole system keeps its gates in order: tokens conserved over all streams of an endpoint, a parked recvLoop with tokens signalled, an update stored for exactly the stream whose recvLoop is busy with it |
| Gated.PairTokens | smux/session.go:361-376 | in every reachable state of the whole system the int32 bucket is, outside of a push, exactly its first value less what the streams hold, whatever wraps meanwhile, and the streams hold at most 65534 bytes more than it |
| Gated.PingWakes | smux/session.go:406-408 | a keepalive wakes a parked recvLoop and changes no stream |
| GatedProgress.CanDrain | smux/session.go:325-397 | with tokens at both ends, as long as anything of any stream is under way something can be finished, frames of other streams ahead and tokens that other streams hold included |
| GatedProgress.DrainToils | smux/session.go:313-397 | every such step takes away some of a finite amount of work, over all streams, both gates and both wires |
| GatedProgress.MustDrain | smux/session.go:313-397 | in whatever order they are taken there are at most that many, and they do not run out before a stream is at rest |
| GatedProgress.RestedWriterSends | smux/stream.go:364-425 | when all of a stream is at rest and there is room, one round of its loop makes a blocked writer send |
| GatedProgress.RoomSuffices | smux/stream.go:364-425 | with tokens at both ends and room, a blocked writer of any reachable system can send by the endpoints' own steps |
| Closing.PairClosedReachesEof | smux/session.go:320-397 | with tokens at both ends, a stream whose FIN is written comes to io.EOF with every byte, over the shared wires and under both buckets, whatever other streams hold |
| GatedDeadlock.StarvesWithoutTokens | smux/session.go:325-331 | if one bucket starts without a token, at either end, a run leaves a writer waiting that no step whatever makes send |
| GatedDeadlock.StarvesWithoutRoom | smux/stream.go:146-156 | without the room so does a run with tokens at both ends |
| GatedDeadlock.NeverStuckIff | smux/stream.go:364-425 | the writers of the streams that one end opens are never stuck, in any run of the whole system, if and only if both buckets start with a token and their windows have room |
| Duplex.FwdProjects | smux/session.go:341-391 | on a stream that both ends write, every step is a step of the opener's direction alone or leaves it as it is |
| Duplex.RevProjects | smux/session.go:341-391 | unless a frame comes before the opener has entered the stream, the same holds of the acceptor's direction |
| Duplex.BothDirections | smux/stream.go:298-425 | if the acceptor writes only after it has read a byte, both directions have all that is proved of a link: order end to end, windows, no ErrConsumed |
| Duplex.LostAreFirst | smux/session.go:361-376 | whether it waits or not: the opener's bytes are never affected, what is lost of the acceptor's are its first bytes, and all the others arrive in order |
| Duplex.LosesEarlyByte | smux/session.go:145-159 | a run in which the acceptor's first byte is dropped, because it arrives before OpenStream has entered the stream |
| Duplex.NothingIsLostIff | smux/session.go:145-159 | nothing that the acceptor writes is lost in any run if and only if it writes only after it has read a byte |
| Receive.InvKept | smux/session.go:300-376 | every atomic step of recvLoop, readers, closers and keepalive keeps the invariant of the receiving side |
| Receive.TokenConservation | smux/session.go:361-376 | in every reachable state: bucket, bytes buffered over all streams and tokens taken but not returned add up to MaxReceiveBuffer plus bytes pushed but not charged, through reads, WriteTo, close with unread data and frames for unknown streams |
| Receive.ReceiveBound | smux/session.go:325-331 | bytes buffered, bytes taken and not returned, and the payload that recvLoop has read and not yet pushed never exceed MaxReceiveBuffer + 65534 together |
| Receive.NoLostBucketSignal | smux/session.go:225-230 | if recvLoop is parked while the bucket is positive, a signal is in the channel or some goroutine is about to send one |
| Receive.NoLostReadEvent | smux/stream.go:262-292 | if a reader waits while its stream has data, a read event is in the channel or recvLoop is about to send one |
| Receive.StreamBytes | smux/session.go:361-376 | in every step each stream gains exactly the payload that arrives for it while it is in the map, and loses what is read or recycled, and no other stream changes |
| Receive.NewStreams | smux/session.go:343-353 | an unknown stream enters the map exactly by its SYN or by OpenStream, empty |
| Receive.ReadWaitsIff | smux/stream.go:68-80 | a reader waits exactly when it finds nothing, and takes nothing until it is woken |
| Receive.FinIsRemembered | smux/session.go:354-360 | after the FIN of a stream in the map, whatever happens then, a waiting reader can be woken |
| Receive.ClosedStaysEmpty | smux/session.go:301-310 | a stream that was closed is out of the map and holds no byte in all that follows |
| Receive.ForcedWakeUps | smux/session.go:399-423 | a keepalive wakes a parked recvLoop; a deadline, a FIN and a payload wake a waiting reader |
| Receive.DrainedMeansReceiving | smux/session.go:313-331 | once every byte is read and every token returned the bucket is full and a parked recvLoop is woken |
| ReceiveProgress.ParkedCanStep | smux/session.go:325-331 | with tokens to start with, whenever recvLoop is parked it is woken, or some goroutine can notify, return tokens, or read bytes that are there |
| ReceiveProgress.HolderCanStep | smux/session.go:365-371 | recvLoop waits for streamLock only while a closing goroutine holds it and can go on |
| ReceiveProgress.SettlingToils | smux/session.go:300-376 | every step that finishes something under way takes away some of a finite amount of work, token returns and closes included |
| ReceiveProgress.MustRead | smux/session.go:320-331 | in whatever order such steps are taken there are at most that many, and with tokens to start with they do not run out before recvLoop is reading |
| ReceiveProgress.ReceivesIff | smux/session.go:325-331 | recvLoop can come back to reading from every reachable state if and only if the bucket starts with a token |
| Receive.BucketPeak | smux/session.go:367-368 | the gap between push and charge lets the bucket exceed its limit by a whole payload |
| Receive.NothingIsReceived | smux/session.go:325-331 | a bucket that does not start with a token never gets one: recvLoop reads nothing in any run |
| Receive.BucketFitsIff | smux/session.go:98 | the int32 bucket is the true count in every run if and only if its first value is an int32 and that value plus 65535 is |
| Settings.VerifyConfig | smux/mux.go:56-87 | accepted if and only if the version is 1 or 2, the sizes are within their bounds and the keepalive times are in order |
| Settings.FirstViolated | smux/mux.go:57-87 | what is reported is the first violated check, in the order of the source |
| Settings.AcceptedSuffices | smux/mux.go:56-87 | two accepted configurations of one version give all that the stream protocol assumes |
| Settings.InitialBucketIff | smux/session.go:98 | the bucket starts with the configured size if and only if that is below 2^31 |
| Settings.AcceptedAndParkedIff | smux/session.go:325-331 | with an accepted configuration recvLoop parks at once, and never reads in any run, if and only if MaxReceiveBuffer modulo 2^32 is 0 or at least 2^31 |
| Settings.AcceptedAndReadingIff | smux/session.go:325-331 | with an accepted configuration recvLoop can always come back to reading if and only if MaxReceiveBuffer modulo 2^32 is between 1 and 2^31 - 1 |
| Settings.AcceptedWithoutTokens | smux/session.go:98 | an accepted version 2 configuration, with room in its window, whose bucket starts at 0 |
| Settings.NeverStuckIff | smux/mux.go:56-87 | two accepted configurations of version 2 never leave a writer of either side stuck, over shared wires and under both buckets, if and only if both MaxReceiveBuffers leave tokens after the cast and in each direction half a receive buffer, less one byte, and a frame fit below MaxStreamBuffer |
| Settings.DefaultIsRoomy | smux/mux.go:43-53 | the default sizes give a version 2 writer exactly the room it needs |
| Sessions.Stream.PushBytes | smux/stream.go:505-511 | the buffer joins buffers and heads together |
| Sessions.Stream.CopyOut | smux/stream.go:92-104 | a read copies from the first buffer only, leaves the rest of the caller's slice alone, and gives the head back exactly when the buffer is used up |
| Sessions.Stream.ReadFront | smux/stream.go:92-104 | in a sound session that is the Read step of `Buffers`: the reader gets the front of the stream's queue, no other stream's bytes change, and the session stays sound |
| Sessions.Stream.TryRead | smux/stream.go:83-117 | version 1 read: as much of the front of the queue as the first buffer and the slice allow, as many tokens back, a signal exactly when the bucket is then positive, the status in all three cases |
| Sessions.Stream.TryReadV2 | smux/stream.go:119-168 | version 2 read: besides, the counters, and the window update frame, as `UpdateAt` describes it, that is handed to the shaper exactly when it is due |
| Sessions.UpdateAt | smux/stream.go:244-260 | each report is one data request with the next number, an UPD frame of 8 bytes: the count, and then the size of the receive buffer |
| Sessions.CountReadIsLink | smux/stream.go:144-156 | the counters of the object are those of the one-stream machine after a read, and it reports exactly when the machine does, and the same count |
| Sessions.Stream.WriteTo | smux/stream.go:171-201 | version 1, until it must wait: the whole queue is written in order and becomes tokens, no other stream's bytes change |
| Sessions.Stream.WriteToV2 | smux/stream.go:203-242 | version 2, until it must wait: besides, every buffer is counted and every report that falls due is handed to the shaper as `UpdateAt` describes it |
| Sessions.Stream.RecycleTokens | smux/stream.go:514-524 | the unread bytes become tokens, every head goes back, nothing stays |
| Sessions.Stream.WriteRound | smux/stream.go:364-403 | one round of writeV2 refuses, or hands the shaper exactly the frames of the part that the window allows and counts its bytes |
| Sessions.PayloadsAreWhole | smux/stream.go:317-334 | the payloads that a write is cut into are non-empty, at most a frame long, and together are the bytes written |
| Sessions.PayloadAt | smux/stream.go:317-334 | the i-th payload starts at i frame lengths, and every one but the last is a whole frame long |
| Sessions.CutTakesPayload | smux/stream.go:321-334 | the one-stream machine cuts the same payloads, one after the other |
| Sessions.RequestAt | smux/stream.go:321-334 | the i-th payload of a write goes into a data request with the i-th next number, in a PSH frame of its stream |
| Sessions.FramesOfOneWriteAreOrdered | smux/session.go:530-535 | the frames of one write are in the shaper's order, wherever the numbering wraps, up to 2^31 apart |
| Sessions.Session.constructor | smux/session.go:91-119 | a new session is sound: an empty world in which no storage is owned, no id given out |
| Sessions.Session.WriteFrames | smux/stream.go:321-334 | the cutting loop hands over one request for each payload, numbered in order, and sends every byte |
| Sessions.Session.OpenStream | smux/session.go:122-162 | a fresh empty stream under an id of this side's parity that was not given out before, after its SYN; nothing once the ids are used up; every other stream keeps its bytes |
| Sessions.Session.HandleSyn | smux/session.go:343-353 | an unknown id opens an empty stream, a known one changes nothing, and every other stream keeps its bytes |
| Sessions.Session.StreamClosed | smux/session.go:301-310 | the Recycle step of `Buffers`: the unread bytes become tokens, the stream leaves the map, no other stream's bytes change, and the session stays sound |
| Sessions.Session.HandlePush | smux/session.go:361-376 | the Get, Fill and Deliver steps of `Buffers`: the payload joins the back of its stream's queue, or is dropped when the stream is unknown; no other stream's bytes change, the bucket is charged, and the session stays sound |
| ShardMap.UnionLookup | ws/concurrent_map.go:56-58 | looking in a key's own shard is looking in the whole map |
| ShardMap.SameShardIff | ws/concurrent_map.go:56-58 | two keys share a shard if and only if their hashes differ by a multiple of the number of shards, and a hash below that number is the shard's own number |
| ShardMap.UnionPut | ws/concurrent_map.go:70-76 | setting a key in its shard sets it in the whole and keeps every key in its own shard |
| ShardMap.UnionDrop | ws/concurrent_map.go:143-149 | removing a key from its shard removes it from the whole |
| ShardMap.SizesAddUp | ws/concurrent_map.go:120-129 | the shards' sizes add up to the size of the whole map |
| ShardMap.ConcurrentMap.constructor | ws/concurrent_map.go:29-38 | 32 distinct empty shards, the empty map |
| ShardMap.ConcurrentMap.Set | ws/concurrent_map.go:70-76 | the effect of setting a key of a plain map |
| ShardMap.ConcurrentMap.Remove | ws/concurrent_map.go:143-149 | the effect of removing a key |
| ShardMap.ConcurrentMap.MSet | ws/concurrent_map.go:60-67 | in whatever order data is visited, the map is overridden by data |
| ShardMap.ConcurrentMap.Upsert | ws/concurrent_map.go:85-93 | the callback sees the old value, if any; its result is stored and returned |
| ShardMap.ConcurrentMap.SetIfAbsent | ws/concurrent_map.go:96-106 | sets and says so exactly when the key was absent |
| ShardMap.ConcurrentMap.Get | ws/concurrent_map.go:109-117 | the plain map's answer |
| ShardMap.ConcurrentMap.Pop | ws/concurrent_map.go:172-180 | returns what was there and removes it |
| ShardMap.ConcurrentMap.RemoveCb | ws/concurrent_map.go:158-169 | the callback's answer is returned in any case and decides about removal |
| ShardMap.ConcurrentMap.Count | ws/concurrent_map.go:120-129 | the size of the plain map, when nobody writes meanwhile |
| ShardMap.ConcurrentMap.Items | ws/concurrent_map.go:269-278 | the plain map, when nobody writes meanwhile |
| ShardMap.ConcurrentMap.Clear | ws/concurrent_map.go:216-220 | the empty map, when nobody writes meanwhile |
| Snapshot.MoveKeepsPipe | ws/concurrent_map.go:253-266 | handing pairs on through the channels keeps the sequence that each shard sent |
| Snapshot.LiveMapAfter | ws/concurrent_map.go:222-250 | a write or removal of another goroutine does to the live map what it does to a plain one, and no step of Items changes it |
| Snapshot.SendKeepsShard | ws/concurrent_map.go:241-243 | each send moves one pair of the locked shard from to-do to sent |
| Snapshot.InvKept | ws/concurrent_map.go:226-266 | every step of writers, walkers, fan-in and caller keeps: what shard i sent and still has to send is what it held when it was locked |
| Snapshot.SendsNeverBlock | ws/concurrent_map.go:239-243 | a walking goroutine always finds room in its channel, even if nobody receives |
| Snapshot.FanInNeverBlocks | ws/concurrent_map.go:204-213 | the channel of IterBuffered has room for every pair, even if nobody receives |
| Snapshot.ReceivedOnce | ws/concurrent_map.go:269-278 | a pair is received exactly once if its shard held it when locked, else never |
| Snapshot.EachKeyOnce | ws/concurrent_map.go:269-278 | no key is received twice |
| Snapshot.ItemsIsUnionOfSnapshots | ws/concurrent_map.go:269-278 | what Items builds is the union of what each shard held when it was locked |
| Snapshot.ItemsPerShard | ws/concurrent_map.go:222-250 | in every run with concurrent writers, for each shard there is a moment of the call at which the shard held exactly what Items returns for its keys |
| Snapshot.OneShardIsEnough | ws/concurrent_map.go:222-250 | if the keys written during a call all live in one shard, Items returns what the whole map was at a moment of the call |
| Snapshot.TornAcrossShards | ws/concurrent_map.go:222-250 | for any number of shards and any two keys of different shards, a run in which Items returns a map that the whole never was |
| Snapshot.ItemsIsAMomentIff | ws/concurrent_map.go:269-278 | Items is always the whole map at one moment of the call if and only if the keys that others may write meanwhile all live in one shard |
| Counting.CountPerShard | ws/concurrent_map.go:120-129 | with others writing, Count is the sum of the shards' sizes, each at a moment of the call, one after the other |
| Counting.LiveMapAfter | ws/concurrent_map.go:120-129 | the same of Count |
| Counting.OneShardIsEnough | ws/concurrent_map.go:120-129 | if the keys written during a call all live in one shard, Count is the size of the whole map at a moment of the call |
| Counting.CountedTwice | ws/concurrent_map.go:120-129 | for any two keys of different shards, a run in which the map never holds more than one key and Count is 2 |
| Counting.CountIsAMomentIff | ws/concurrent_map.go:120-129 | Count is always the size of the map at one moment of the call if and only if the keys that others may write meanwhile all live in one shard |
| SshLex.Lexer.Next | sshconfig/lex.go:83-92 | the next character, or the end, and the width that backup takes back |
| SshLex.Lexer.Peek | sshconfig/lex.go:95-99 | the next character, without consuming it |
| SshLex.Lexer.LexEnv | sshconfig/lex.go:146-170 | between lines: what a scan from here sends is sent or promised, with progress unless the lexer stops; what that is for each line is in `SshDoc` and `SshFaults` |
| SshLex.Lexer.LexComment | sshconfig/lex.go:172-190 | a comment sends nothing and ends with its line |
| SshLex.Lexer.LexVariable | sshconfig/lex.go:192-216 | a known word is sent as its keyword, an unknown one becomes part of a value, anything but a space or an equals sign after it is an error |
| SshLex.Lexer.LexHostValue | sshconfig/lex.go:218-252 | the names up to the end of the line, with the detour for a space before it |
| SshLex.Lexer.LexValue | sshconfig/lex.go:254-274 | the value up to the end of the line, or an error at a bare carriage return |
| SshLex.Lexer.Run | sshconfig/lex.go:140-144 | on every input the state functions stop, and have sent exactly the items of the text read line by line |
| SshLex.TokensInGrammar | sshconfig/lex.go:146-274 | every stream is (keyword Value, or Value, or Host Value? HostValue) repeated, then EOF, or is cut by one Error, with nothing after |
| SshLex.TokensSliced | sshconfig/lex.go:107-110 | all items but an error are exact stretches of the input, in order and without overlap |
| SshParse.Receive | sshconfig/parser.go:139-260 | the loop of parse computes the meaning of the item stream, which `SshDoc.DocParses` gives without it, and always has a host where it writes to one |
| SshParse.Parse | sshconfig/parser.go:133-261 | lexer and parser together |
| SshParse.ErrorIsNoValue | sshconfig/parser.go:200-220 | where parse does not look at the kind of the next item, the text of a lexer error is still no forward |
| SshParse.NeverStarves | sshconfig/parser.go:139-260 | on a stream of the grammar, parse never asks for an item past the last |
| SshParse.ParseNeverStarves | sshconfig/parser.go:133-261 | on every text, parse never waits for an item that is not coming |
| SshDoc.BlankIsSkipped | sshconfig/lex.go:163-165 | between lines a space or a tab that is no letter or digit means nothing: the items are those from the next character on |
| SshDoc.NoteIsSkipped | sshconfig/lex.go:172-190 | a comment with its line end means nothing |
| SshDoc.KeywordTokens | sshconfig/lex.go:192-274 | a line of a keyword and a value, with any indentation, any spelling of the keyword, a space or an equals sign, and LF, CRLF or the end of the text, gives exactly those two items and then those of what follows |
| SshDoc.HostTokens | sshconfig/lex.go:218-252 | so does a line of names that does not end in a space |
| SshDoc.UnknownTokens | sshconfig/lex.go:197-210 | a line with any other word is a single value |
| SshDoc.SplitIff | sshconfig/parser.go:159 | the names of a text are the pieces without spaces that it is joined from, one space between each two |
| SshDoc.BodyMeaning | sshconfig/parser.go:151-220 | the lines of a host, in any order and mixed with comments, blank lines and unknown words, give each field the value of the last line that sets it, 22 for a port that none sets, and all forwards in order; or the first bad line is refused |
| SshDoc.DocMeaning | sshconfig/parser.go:133-261 | after any lines that are not refused, whatever comes then, parse has all hosts but the last, and the last as the current one |
| SshDoc.DocParses | sshconfig/parser.go:133-261 | every text made up of such lines gives the hosts that the lines say, includes first, or is refused with the reason and position of the first line that is misplaced or cannot be read |
| SshFaults.LastLineParses | sshconfig/lex.go:261-270 | the line end of the last line may be missing; the line means the same |
| SshFaults.FaultRefuses | sshconfig/lex.go:146-274 | a character that starts nothing, a bare carriage return, a word not ended by a space or an equals sign, and a line cut at a bare carriage return, after any good lines and before anything, make parse refuse the text, each for its own reason at its own position |
| SshFaults.SpaceAfterNames | sshconfig/lex.go:221-234 | for every host line that ends in a space: with CRLF the text is refused, otherwise the host is left with one empty name |
| SshShape.ParsedIsShaped | sshconfig/parser.go:151-220 | on every text, what parse returns has at least one name, names without spaces or line breaks, values without line breaks, a 64-bit port, and only forwards that some value is read as |
| SshPrint.SpellingIff | sshconfig/lex.go:52-64 | a word is the keyword of a kind if and only if its characters in lower case are those of that kind's name |
| SshPrint.AtoiIff | sshconfig/parser.go:177-181 | the port is read from exactly the decimal numerals of 64-bit numbers, with an optional sign and leading zeros |
| SshPrint.DecimalBack | sshconfig/parser.go:177-181 | every 64-bit port printed in decimal is read back |
| SshPrint.PrintThenParse | sshconfig/parser.go:133-261 | hosts of the right shape, printed in any layout and parsed, come back if and only if each of their forwards is read back from what is written for it |
| SshPrint.RoundTripIff | sshconfig/parser.go:133-261 | parse undoes print on a list of hosts if and only if all have that shape and forwards that are read back |
| SshPrint.ReprintKeeps | sshconfig/parser.go:133-261 | printing what was parsed, in any layout, and parsing it again changes nothing, if the printer writes forwards that are read back |
| SshPrint.PlainPrinter | sshconfig/lex.go:52-64 | unindented lines with the lower-case keywords are such a layout in any alphabet that has them |

## Left out

* Real connections, timers, deadlines, keepalive timeouts and addresses; runs end at a socket error or a session close.
* Several readers or writers on one stream, for which the code promises no order.
* Closing a stream that both ends write: in `Duplex` nobody closes, and in `StreamLink`, `Mux` and `Gated`, where the
  opener does, the acceptor reads and neither writes nor closes. Closing with unread data is in `Receive`.
* Reading into an empty buffer changes nothing (`Sessions.Stream.TryRead` and `TryReadV2`), and is no step of `StreamLink`.
* Version 1 counts frames in `numWritten`; nothing reads that counter, and `StreamLink` counts bytes in both versions.
* `StreamLink` and `Mux` let any queued frame be written at any time, whatever the heap says, and let recvLoop read
  whatever the bucket holds: they have more runs than the code, and what they say of every run holds of the code's.
  What can happen does not carry over that way: it is proved under the buckets in `Gated`. The order of the heap, which
  only says which of the queued frames goes next, is in `Shaper`.
* In `StreamLink` and `Gated` pushing a payload and telling the reader is one step; `Receive` keeps push, charge and event
  apart.
* `Receive` lets a peer send any frames, but an id that was closed is not opened again by a SYN.
* The accept backlog, which can block recvLoop while it holds the stream lock.
* Sessions.Stream.WriteTo: is followed up to the point where it would wait, with a writer that takes every byte.
* Sessions.Stream.WriteToV2: likewise.
* Sessions.Stream.WriteRound: ends when its frames are handed to the shaper; waiting for their results is in `StreamLink`.
* Sessions.Session.OpenStream: ends when the SYN is handed to the shaper and the stream is entered; waiting for the
  result of the SYN in between is in `StreamLink`.
* Other requests of `Sessions` end when they are handed to the shaper, too.
* Wire.Sender.SendFrame: through the write buffer, takes payloads of at most 65536 bytes, the size of the buffer;
  `Mux.EveryFrameIsWireSafe` says that no longer one is ever sent.
* Sessions.Session.HandlePush: has the payload in hand; reading it from the connection is in `Wire`.
* `sync.Pool` may drop what it holds at any time; in `Alloc` and `Buffers` the caller picks any pooled slice or a new one.
* Buffers counts streams in the order in which they are opened, and has one recvLoop.
* ShardMap.ConcurrentMap.Count: adds up the shards while nobody writes; with writers in between, see `Counting`.
* ShardMap.ConcurrentMap.Items: returns the map while nobody writes; with writers in between, see `Snapshot`, whose
  writers set and remove single keys.
* ShardMap.ConcurrentMap.Clear: empties the map while nobody writes; keys that are set meanwhile may stay.
* `fnv32` is any function to uint32; `Keys`, `IterCb`, `Has`, `IsEmpty` and JSON are left out as easy or alike.
* `Lexer` positions count characters, not bytes of UTF-8; letters, digits and lower case are parameters.
* The texts of lexer errors are kept, but the quoting of an invalid pattern in its message is not.
* Forward values, which the code takes apart with regular expressions, and `Include`, which reads files, are parameters of
  the parser; of the expressions it is assumed that they ask for a digit.
* Home directory expansion, go-socks5, the relay, SSH and SFTP clients, file watching, cron and web handlers.
