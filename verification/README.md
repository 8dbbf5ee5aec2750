# A verified model of the h2proxy HTTP/2 engine

The repository is a hand-built HTTP/2 proxy. Its engine is in `core/src`: an
HPACK codec, a frame codec, flow-control windows, a stream table, a connection
to each client, a connection to each backend, and the arithmetic that decides
how many streams to admit. This project models that engine in Dafny and proves
what it keeps over whole runs: what every handler preserves, what the two ends
of a codec or of a window agree on, and what holds in every interleaving of the
tasks.

Each step-by-step part of the source is modelled twice. A class or a method
with loops has the source's form and is proved to compute a function of its
inputs and old state; the lemmas are about those functions. A handler returns
either the connection it leaves or the error code that ends it. All input and
output is octet sequences and message queues, and a run is a sequence of
stimuli in any order.

## Layers

1. **HPACK (RFC 7541).** `HuffmanCode` holds the 257 codes and shows, by one
   pass over their left-justified tiles, that the code is prefix-free and
   complete. `Huffman` defines coding and the bit-by-bit walk; `HuffmanEncoder`
   and `HuffmanDecoder` are the 64-bit accumulator and the nibble automaton
   with the tree it is derived from. `HpackPrimitives`, `HpackTable` and
   `HpackCodec` are integers, strings, tables, decoder and encoder;
   `HpackLockstep` is the two ends over a connection.
2. **Framing.** `Frame` parses and prints the eight frame types,
   `HeaderBlocks` puts header blocks together, and `EndToEnd` joins them to
   HPACK.
3. **One connection.** `Flow` and `Streams` are windows and the stream table.
   `ClientLeg` gives every handler of the client connection as a function,
   `Scheduler` its round-robin writer and `ClientRuns` its runs; `Ring`,
   `Fairness`, `ClientCredit`, `ClientWindows` and `ClientOrder` are one
   invariant each, `ClientHeads` is what it puts on the wire first and how long,
   `ClientBreaks` holds runs that break what is meant, and `ClientConnection` is
   the connection as an object.
4. **Between tasks.** `Upstream` gives the backend connection's handlers,
   `UpstreamConnection` the object; `Remapping` is what its two maps and its
   record of events keep, and `Responses` judges what it tells its clients by
   the duty `ClientOrder` assumes. `UpstreamSteps` is what each handler does to
   those who wait, `Waiting` whose turn it is over whole runs, and
   `BackendBreaks` holds runs that break what is meant. `FrameSizes` is which
   frames fit, on either connection. `Bridge` is the whole process of one backend,
   its clients and the channels between; `BridgeClients` ties its counts to the
   client connection's queues. `AdmissionLimit`, `AdmissionControl` and
   `TokenBucket` are the advertised limit, the control loop and the reset
   meters.

`Octets` and `Sums` are arithmetic and sums over maps.

## Where the code parts from its documentation or from the RFCs

The model follows the code. Each difference is a lemma.

- `set_max_table_size` remembers only the last of several resizes
  (core/src/hpack.rs:560-565), where section 4.2 of RFC 7541 asks for the
  smallest to be signalled too. The decoder may then keep entries the encoder
  has dropped (`HpackLockstep.TwoResizesCanPart`). Every block still decodes
  (`HpackLockstep.Lockstep`), and `HpackLockstep.EqualAfterResizes` says
  exactly when the tables are equal.
- Both connections charge their receive windows with DATA's length after its
  padding is stripped (core/src/conn.rs:2104-2118,
  core/src/upstream.rs:1421-1425), where section 6.1 of RFC 9113 has the sender
  charged for the padding too. The two ends agree on a window if and only if no
  padding has arrived (`Flow.AlwaysAgree`), and a peer that only pads ends
  without credit for good (`Flow.PaddingStrands`).
- The comment at core/src/conn.rs:1369-1375 promises that an event for a
  stream already gone is a silent drop. A failed or shed exchange for such a
  stream reaches `open_peer` with an identifier below the mark, which ends the
  connection with PROTOCOL_ERROR: `ClientOrder.MissingStream` says exactly for
  which events, and `ClientBreaks.ShedAfterReset` is a run that does it.
- An oversized trailer section is answered with a 431 and END_STREAM
  (core/src/conn.rs:1794-1801) whatever the response is doing, and the responder
  is not told. Responses stay in order over a run if and only if every such 431
  closes its stream, that is finds the peer finished and nothing queued
  (`ClientOrder.ResponsesAlwaysOrdered`, `ClientOrder.OversizedBreaksOrder`). In
  `ClientBreaks.HeadAfterOversized` a dutiful responder answers after the 431,
  and its HEADERS follow END_STREAM.
- A backend that sends trailers without END_STREAM, or octets before its head,
  can have a client told something after the last word
  (core/src/upstream.rs:1358-1373); `Responses.AlwaysDutiful` says exactly when,
  and `BackendBreaks.TrailersGoOn` and `BackendBreaks.OctetsBeforeHead` are runs.
- Requests that wait are started wherever a stream is let go
  (core/src/upstream.rs:933-937), but in two places room is made and nobody is
  started: SETTINGS that leave the limit above the live streams, and a
  WINDOW_UPDATE that resets a stream for its increment
  (core/src/upstream.rs:1474-1506). A request that comes next passes all who wait.
  Nobody waits while there is room, and requests are begun in the order they came,
  over a run without either; `Waiting.ServedInTurn` says exactly when each holds,
  and `BackendBreaks.RaisedLimitOvertakes` and `BackendBreaks.ResetOvertakes` are
  runs for the two.
- A comment (core/src/frame.rs:629-631) promises that the peer's
  SETTINGS_MAX_FRAME_SIZE will be enforced on what is sent. DATA keeps to it;
  HEADERS go out in one piece (core/src/conn.rs:1985-2010,
  core/src/upstream.rs:920-927) and fit if and only if their block does
  (`FrameSizes.ClientFitsExactly`, `FrameSizes.BackendFitsExactly`,
  `FrameSizes.LongHeadDoesNotFit`).
- A client's response begins with DATA when the responder gives octets before its
  head (core/src/conn.rs:1395-1416); `ClientHeads.HeadersComeFirst` says exactly
  when, and `ClientBreaks.DataComesFirst` is a run.
- A first admission budget above the static ceiling can have a conforming peer
  refused (`AdmissionLimit.InitialAboveCeilingCanRefuse`), and so can a stream
  the table still counts after the peer has closed it, as one is after that 431
  (`AdmissionLimit.LingeringStreamCanRefuse`).

## What the runs assume

- The peer of a receiving window may do anything. A responder accepts no more
  octets than it was given (`ClientCredit.Honest`).
- In the order of responses a responder is held to what it has itself said
  (`ClientOrder.Dutiful`): on a stream, no head, octets or trailers after its
  last word, which is a head or octets with the end marked, trailers, or a
  failed or shed exchange; no head that is also the end once it has given
  octets; and no failed or shed exchange, unless it has given a head, after its
  last word or once it has given octets. `Responses` proves this of what the
  backend connection tells, under the condition above.
- A client of the bridge asks for each request once and reports only octets it
  has written out; both are enforced by how the bridge steps, not assumed of
  its messages. Octets of DATA that overspend a stream's window are counted
  apart (core/src/upstream.rs:1443-1448): the code never returns them.
- The control loop has a ceiling of at least 2 and a ceiling times connections
  of at least 64, without which its clamps would panic.
- Fewer than 2^32 - 1 SETTINGS frames are unacknowledged at once; and when a
  stream arrives, the table counts no more live ones than the peer had open when
  it opened it (`AdmissionLimit.Agrees`).

## Model

| member | source | states |
|---|---|---|
| HuffmanCode.TilesDisjoint | core/src/hpack/huffman.rs:27-285 | Left-justified to 30 bits, the words that begin with one symbol's code and those that begin with another's never overlap |
| HuffmanCode.TilesFillTheLine | core/src/hpack/huffman.rs:27-285 | every 30-bit word begins with some symbol's code: the 257 tiles leave no gap in [0, 2^30) |
| HuffmanCode.PrefixFree | core/src/hpack/huffman.rs:27-285 | no symbol's code is a prefix of another's |
| HuffmanCode.BeginsOrExtends | core/src/hpack/huffman.rs:27-285 | any run of at most 30 bits begins with a code or is the beginning of one |
| HuffmanCode.Complete | core/src/hpack/huffman.rs:27-285 | from any inner point of any code both next bits lead towards some code, so every inner node of the tree has two branches |
| HuffmanCode.CodeFits | core/src/hpack/huffman.rs:27-285 | each table entry's bits fit in its stated length, so its bit string spells the entry |
| Huffman.EncodedLenExact | core/src/hpack/huffman.rs:290-293 | the predicted length is the number of octets the encoder writes, for every string |
| Huffman.EncodedBits | core/src/hpack/huffman.rs:300-321 | octets are the coded form of a string if and only if their bits are its codes end to end followed by fewer than eight ones |
| Huffman.WalkCoded | core/src/hpack/huffman.rs:300-321 | reading a coded string bit by bit from the root reads that string and continues with whatever follows it |
| Huffman.WalkSpells | core/src/hpack/huffman.rs:468-508 | what a walk has emitted, re-encoded, and the path it stands on are exactly the bits it consumed |
| Huffman.WalkConcat | core/src/hpack/huffman.rs:468-508 | a walk may be cut after any bit and resumed with the same outcome |
| Huffman.DecodeOfEncode | core/src/hpack/huffman.rs:290-508 | every octet string survives encoding and decoding |
| Huffman.EncodeOfDecode | core/src/hpack/huffman.rs:290-508 | whatever the decoder accepts is the encoder's own output for what it returned: padding is unique |
| Huffman.Bijection | core/src/hpack/huffman.rs:290-508 | the decoder accepts `coded` with result `src` if and only if `src` encodes to `coded`, for all octet strings |
| HuffmanEncoder.EncodeInto | core/src/hpack/huffman.rs:300-321 | the 64-bit accumulator loop appends exactly the coded form, though the accumulator shifts its high bits out |
| HuffmanEncoder.ShiftIn | core/src/hpack/huffman.rs:300-321 | shifting a code into the 64-bit word keeps every bit not yet flushed, as long as at most 64 are held |
| HuffmanEncoder.FlushOctet | core/src/hpack/huffman.rs:300-321 | the octet flushed is the oldest eight bits held and the rest are untouched |
| HuffmanEncoder.FillOctet | core/src/hpack/huffman.rs:300-321 | the last octet is the bits left over followed by ones |
| HuffmanDecoder.BuildTree | core/src/hpack/huffman.rs:360-381 | the arena is the tree of the 257 codes: distinct nodes, each on the way to a code, a leaf labelled with each symbol, nothing missing |
| HuffmanDecoder.LeafHasNoBranch | core/src/hpack/huffman.rs:360-381 | no code passes through another code's leaf |
| HuffmanDecoder.InnerHasBranch | core/src/hpack/huffman.rs:360-381 | an inner node has both branches, so the table builder never follows a missing one |
| HuffmanDecoder.NumberStates | core/src/hpack/huffman.rs:383-392 | states number exactly the inner nodes, one each, the root first |
| HuffmanDecoder.Tabulate | core/src/hpack/huffman.rs:399-438 | a table entry does in one step what the bit-by-bit walk does over its four bits, emitting at most one symbol |
| HuffmanDecoder.TabulateRow | core/src/hpack/huffman.rs:399-438 | all sixteen entries of a state do so |
| HuffmanDecoder.Descent | core/src/hpack/huffman.rs:440-457 | the depth-first pass records, for every state, its depth and whether its path is all ones |
| HuffmanDecoder.BuildTable | core/src/hpack/huffman.rs:360-460 | the finished table represents the code tree: states, depths and the prefix-of-EOS marks |
| HuffmanDecoder.NibbleStep | core/src/hpack/huffman.rs:468-508 | driving the automaton by a nibble keeps it at the state of the path the walk would be on |
| HuffmanDecoder.DecodeWith | core/src/hpack/huffman.rs:468-508 | the nibble automaton gives the same answer as the bit-by-bit walk, the three errors included |
| HuffmanDecoder.DecodeString | core/src/hpack/huffman.rs:359-508 | the decoder with the table it built accepts `src` with `out` if and only if `out` encodes to `src` |
| HpackPrimitives.IntRoundTrip | core/src/hpack.rs:158-199 | an integer written with any prefix reads back as itself, with exactly the following octets left, if and only if it fits in 32 bits (section 5.1 of RFC 7541) |
| HpackPrimitives.IntInRange | core/src/hpack.rs:158-181 | whatever integer is accepted fits in 32 bits and was read from the front |
| HpackPrimitives.StringRoundTrip | core/src/hpack.rs:203-231 | a string literal reads back as itself, Huffman-coded or not, if and only if its wire length fits in 32 bits (section 5.2 of RFC 7541) |
| HpackPrimitives.StringShrinks | core/src/hpack.rs:203-213 | a string that is accepted consumed at least one octet |
| HpackPrimitives.Cursor.constructor | core/src/hpack.rs:119-121 | a new cursor has the whole block unread |
| HpackPrimitives.Cursor.IsEmpty | core/src/hpack.rs:123-125 | empty exactly when nothing is unread |
| HpackPrimitives.Cursor.NextByte | core/src/hpack.rs:127-134 | hands over the first unread octet, or reports truncation and moves nothing |
| HpackPrimitives.Cursor.Take | core/src/hpack.rs:136-149 | hands over the next `len` octets, or reports a string past the end and moves nothing |
| HpackPrimitives.ReadInt | core/src/hpack.rs:158-181 | the accumulating loop computes the integer its octets denote, and stops at the same octet with the same fault |
| HpackPrimitives.WriteInt | core/src/hpack.rs:185-199 | the emitting loop appends the integer's one representation |
| HpackPrimitives.ReadString | core/src/hpack.rs:203-213 | reads the string the octets denote, or the first fault |
| HpackPrimitives.WriteString | core/src/hpack.rs:222-231 | appends the literal, Huffman-coded whenever that is no longer |
| HpackTable.EvictIsLongest | core/src/hpack.rs:285-293 | what eviction keeps is the longest newest-first run that fits: no entry goes that could have stayed (section 4.3 of RFC 7541) |
| HpackTable.EvictPrefix | core/src/hpack.rs:285-293 | eviction of a newer part of a table keeps a newer part of what eviction of the whole keeps |
| HpackTable.EvictTwice | core/src/hpack.rs:285-293 | evicting to two bounds in turn is evicting once to the smaller |
| HpackTable.EvictNothing | core/src/hpack.rs:285-293 | eviction changes nothing if and only if the table already fits |
| HpackTable.InsertFits | core/src/hpack.rs:269-277 | after an insertion the entries' costs sum to at most the maximum, an entry larger than the table included (section 4.4 of RFC 7541) |
| HpackTable.EntryCount | core/src/hpack.rs:240-293 | every entry costs at least 32, which bounds how many there can be |
| HpackTable.FindIsBest | core/src/hpack.rs:327-352 | the index found is a full match with none before it, or else the first of that name when no full match exists anywhere, or else nothing has that name |
| HpackTable.PrefixResolves | core/src/hpack.rs:297-313 | an index that resolves against the newer part of a table resolves to the same field against the whole |
| HpackTable.DynamicTable.constructor | core/src/hpack.rs:248-254 | a new table is empty and its size is the sum of its entries' costs |
| HpackTable.DynamicTable.Evict | core/src/hpack.rs:285-293 | the popping loop keeps what eviction should keep, with the running size still the sum of the costs |
| HpackTable.DynamicTable.Insert | core/src/hpack.rs:269-277 | room is made first, and the running size stays the sum of the costs and within the maximum |
| HpackTable.DynamicTable.SetMaxSize | core/src/hpack.rs:280-283 | the bound moves and the oldest entries go until it holds |
| HpackTable.DynamicTable.Lookup | core/src/hpack.rs:297-313 | resolves an index across the static and dynamic tables; 0 and anything past the end resolve to nothing |
| HpackTable.DynamicTable.Find | core/src/hpack.rs:327-352 | the two search loops, which stop early and remember the first name seen, find the best match |
| HpackCodec.DecodeStaysBounded | core/src/hpack.rs:265-293 | decoding any block, accepted or not, leaves entries whose costs sum to at most the maximum and a maximum no larger than the capacity |
| HpackCodec.BlockIsVerdict | core/src/hpack.rs:407-480 | reading a block under a list limit, which keeps no headers past the limit but goes on counting and updating the table, gives the answer and the table of reading it without one and judging the list at the end |
| HpackCodec.LimitDisturbsNothing | core/src/hpack.rs:407-480 | one block read with a limit and without: the same table is left and the same compression fault found, and a block that decodes is turned away if and only if its list is larger than the limit |
| HpackCodec.ListSizeConcat | core/src/hpack.rs:64-66 | list sizes add up over parts of a list |
| HpackCodec.DecodeTurn | core/src/hpack.rs:407-480 | one turn of the loop consumes one representation, applies it to the table and hands on the rest, and a size update is allowed only before the first field |
| HpackCodec.HpackDecoder.constructor | core/src/hpack.rs:379-385 | an empty table under the advertised size |
| HpackCodec.HpackDecoder.Literal | core/src/hpack.rs:483-501 | an indexed or spelled-out name and then the value, with the never-indexed mark as given (section 6.2 of RFC 7541) |
| HpackCodec.HpackDecoder.Step | core/src/hpack.rs:407-480 | the five representations told apart by their leading bits, each with its effect on the table |
| HpackCodec.HpackDecoder.Decode | core/src/hpack.rs:407-480 | the verdict and the table left are those of decoding without a limit and then judging the list's size: the limit never disturbs the table |
| HpackCodec.HpackEncoder.constructor | core/src/hpack.rs:534-540 | an empty table, no update owed |
| HpackCodec.HpackEncoder.SetMaxTableSize | core/src/hpack.rs:560-565 | a changed size evicts at once and is owed to the peer; the same size changes nothing |
| HpackCodec.HpackEncoder.EncodeField | core/src/hpack.rs:577-608 | an indexed field, an incremental literal or, for a sensitive field, a never-indexed literal that reaches neither table |
| HpackCodec.HpackEncoder.Encode | core/src/hpack.rs:568-575 | the owed update first, then every field; nothing is owed afterwards |
| HpackLockstep.ShapeIsRight | core/src/hpack.rs:577-608 | the index an encoded field carries names that very field, or its name |
| HpackLockstep.EncodeByShape | core/src/hpack.rs:577-608 | a field is written as one of two shapes, an index or a literal, fixed by its best match and its never-indexed mark, and only an incremental literal is added to the table |
| HpackLockstep.LiteralDecodes | core/src/hpack.rs:483-501 | a literal whose index names the field's name for the encoder decodes to that field for any decoder whose table extends the encoder's |
| HpackLockstep.FieldDecodes | core/src/hpack.rs:407-608 | an encoded field decodes to itself, never-indexed mark included, and the tables stay in step |
| HpackLockstep.FieldsDecode | core/src/hpack.rs:407-608 | so does any list of fields in one block |
| HpackLockstep.AnnounceDecodes | core/src/hpack.rs:407-575 | the update owed brings the decoder to the encoder's bound with the encoder's entries still its newest ones |
| HpackLockstep.BlockDecodes | core/src/hpack.rs:407-608 | an encoded block decodes to exactly its list and leaves the ends in step: the encoder's entries a newest-first prefix of the decoder's |
| HpackLockstep.Lockstep | core/src/hpack.rs:269-293 | over any run of blocks and resizes within the capacity, every block decodes to exactly the list that was sent and the ends are in step throughout |
| HpackLockstep.ResizeAllKeepsSmallest | core/src/hpack.rs:560-565 | resizes in a row leave what the smallest of them kept, under the last of them |
| HpackLockstep.EqualAfterResizes | core/src/hpack.rs:560-565 | tables equal before a run of resizes are equal once the owed update is read if and only if what the decoder then keeps fits the smallest size asked for (section 4.2 of RFC 7541) |
| HpackLockstep.OneResizeKeepsEqual | core/src/hpack.rs:560-565 | one resize between blocks never parts equal tables |
| HpackLockstep.BlockKeepsEqual | core/src/hpack.rs:560-608 | when that condition holds the tables are equal again after the block |
| HpackLockstep.TwoResizesCanPart | core/src/hpack.rs:560-565 | a concrete pair of resizes, to 0 and back, after which the decoder holds an entry the encoder has dropped |
| HpackLockstep.SpacedStaysEqual | core/src/hpack.rs:560-608 | over any run with at most one resize between any two blocks, the tables of the two ends are equal after every block |
| Frame.HeaderRoundTrip | core/src/frame.rs:138-157 | the nine header octets carry length, type, flags and stream |
| Frame.PartsRoundTrip | core/src/frame.rs:368-627 | the payload and flags a frame is printed with parse back to it, for all eight types |
| Frame.ParamsRoundTrip | core/src/frame.rs:493-522 | a SETTINGS payload gives back its parameters in order |
| Frame.FrameRoundTrip | core/src/frame.rs:339-750 | a well-formed frame printed and followed by any octets decodes to that frame with exactly those octets left |
| Frame.DecodeStable | core/src/frame.rs:339-358 | a frame or an error once decided is not changed by octets that arrive later |
| Frame.ProperPrefixNeedsMore | core/src/frame.rs:339-358 | a frame cut short anywhere decodes to "need more" |
| Frame.ParsedIsWellFormed | core/src/frame.rs:368-627 | whatever parses is well formed and prints to no more octets than were read |
| Frame.DecodeNormalises | core/src/frame.rs:339-750 | printing a decoded frame and decoding again gives that frame: padding, priority fields, reserved bits and unknown error codes are normalised once |
| Frame.ReadBuffer.Append | core/src/frame.rs:324-358 | octets join the end of what is unread |
| Frame.FrameCodec.constructor | core/src/frame.rs:306-308 | keeps the frame size limit |
| Frame.FrameCodec.TakeFrame | core/src/frame.rs:339-358 | takes exactly one frame off the front, or leaves the buffer as it was, or reports the error |
| Frame.FrameCodec.Decode | core/src/frame.rs:324-335 | the skipping loop finds the first modelled frame once every ignorable one before it is consumed |
| Frame.GotShrinks | core/src/frame.rs:339-358 | a frame that is taken leaves less to read |
| HeaderBlocks.DrainAppend | core/src/conn.rs:1546-1582 | reading what has arrived and then the rest is reading all of it |
| HeaderBlocks.DrainSettles | core/src/conn.rs:1546-1582 | what a drain leaves unread is not a whole frame |
| HeaderBlocks.CutsDoNotMatter | core/src/conn.rs:1546-1582 | octets delivered in any pieces give what they give in one: same deliveries, same state, same failure |
| HeaderBlocks.BlockReader.constructor | core/src/conn.rs:855-912 | no block open, an empty table |
| HeaderBlocks.BlockReader.ReadFragment | core/src/conn.rs:1759-1825 | fragments gather under the two caps and are decoded, once, when END_HEADERS comes; a list too large is answered and not fatal |
| HeaderBlocks.BlockReader.OnFrame | core/src/conn.rs:1546-1751 | nothing may come between a HEADERS frame and its CONTINUATION, and END_STREAM is taken from the opening frame (section 6.10 of RFC 9113) |
| HeaderBlocks.BlockReader.ReadAll | core/src/conn.rs:1546-1825 | the loop over frames in the buffer is the drain |
| EndToEnd.FragmentsAssemble | core/src/conn.rs:1715-1825 | any cut of a block into HEADERS and CONTINUATION frames within the caps is put together again |
| EndToEnd.SendingArrives | core/src/conn.rs:1715-1825 | one message sent arrives as its list, or as too large, and both ends stay in step |
| EndToEnd.AllArrive | core/src/conn.rs:1546-1825 | a whole run of messages arrives in order with nothing left over |
| EndToEnd.Delivered | core/src/frame.rs:339-358 | lists encoded, cut into fragments, framed and chopped into any reads are handed up exactly, in order, each with the END_STREAM of its opening frame |
| Flow.RecordAccounts | core/src/flow.rs:184-186 | a receiver refuses octets exactly when they exceed what it granted, and those recorded are held |
| Flow.ReleaseAccounts | core/src/flow.rs:195-213 | a release never overflows, keeps available + unreleased + held equal to the window, and announces exactly what it restores |
| Flow.DrainedIsOverHalf | core/src/flow.rs:195-213 | with nothing held, more than half the window is with the peer |
| Flow.BootstrapIsLegal | core/src/flow.rs:61-63 | the bootstrap increment is legal if and only if the window is above 65,535, and it brings the peer to exactly that window |
| Flow.SendWindow.constructor | core/src/flow.rs:81-83 | starts at the given size |
| Flow.SendWindow.Consume | core/src/flow.rs:102-111 | spends octets, or refuses and changes nothing |
| Flow.SendWindow.Increase | core/src/flow.rs:116-123 | credits octets, or refuses past 2^31-1 and changes nothing |
| Flow.SendWindow.ApplyDelta | core/src/flow.rs:132-141 | moves by a signed delta, possibly below zero; refuses past 2^31-1 |
| Flow.RecvWindow.constructor | core/src/flow.rs:163-169 | everything is available and nothing unreleased |
| Flow.RecvWindow.Record | core/src/flow.rs:184-186 | debits what arrived, or refuses it |
| Flow.RecvWindow.Release | core/src/flow.rs:195-213 | gathers credit and announces it once it is half the window |
| Flow.HandshakeAgrees | core/src/flow.rs:61-63 | with the bootstrap WINDOW_UPDATE in flight the two ends agree from the start |
| Flow.FreshAgrees | core/src/flow.rs:61-63 | so do two ends that start at any sizes with the difference in flight |
| Flow.MoveSquares | core/src/flow.rs:102-213 | the sender's window, DATA in flight with its padding, WINDOW_UPDATEs in flight and the padding that has arrived together equal what the receiver still accepts, after any move; no record and no increase ever fails |
| Flow.AlwaysSquared | core/src/flow.rs:102-213 | so it is over every run |
| Flow.UnpaddedStaysSo | core/src/conn.rs:2104-2118 | a peer that never pads leaves no padding anywhere |
| Flow.AlwaysAgree | core/src/conn.rs:2104-2118 | over every run from the opening of a window nothing is reported a violation, and the two ends agree if and only if no padding has arrived, which the receiving handlers strip before they count; with a peer that never pads they always agree |
| Flow.NeverStranded | core/src/flow.rs:184-213 | over every run, credit that is with the sender, on the way or held, and the padding that has arrived, exceed half the window together; once all is delivered and consumed, the sender's credit and its padding alone do |
| Flow.PaddingStrands | core/src/conn.rs:2104-2118 | for every window, a peer that sends only padding spends all of it: the receiver still offers the whole window, and no credit comes back whatever either end goes on to do |
| Flow.StrandedStays | core/src/flow.rs:184-213 | a sender with no credit and nothing but empty frames on the way gets none in any continuation |
| Streams.SummaryStep | core/src/stream.rs:128-175 | an event is legal exactly when the rules of section 5.1 of RFC 9113 permit it, with the right error otherwise |
| Streams.StateIsSummary | core/src/stream.rs:128-175 | over any accepted history the state says exactly who has ended and whether there was a reset, and the next event is accepted if and only if neither forbids it |
| Streams.DoMarked | core/src/stream.rs:390-536 | no table operation lowers the high-water mark or makes live an identifier at or below it |
| Streams.ClosedForGood | core/src/stream.rs:463-515 | an identifier once closed is closed after any further operations |
| Streams.OpeningsIncrease | core/src/stream.rs:390-445 | over any run streams open with strictly increasing odd identifiers above the mark |
| Streams.StreamTable.constructor | core/src/stream.rs:336-348 | an empty table with both marks at zero |
| Streams.StreamTable.OpenPeer | core/src/stream.rs:390-416 | opens an odd identifier above the mark; a refused one still moves the mark; anything else is a protocol error |
| Streams.StreamTable.OpenLocal | core/src/stream.rs:426-445 | the same on our side, where a refusal moves nothing |
| Streams.StreamTable.Retire | core/src/stream.rs:511-515 | the stream goes and the connection credit it held is kept to be reclaimed |
| Streams.StreamTable.Apply | core/src/stream.rs:483-503 | moves a stream by an event, retiring it when it closes; an illegal event changes nothing and names its error |
| Streams.StreamTable.TakeReclaimed | core/src/stream.rs:521-523 | hands over the reclaimed credit once |
| Streams.StreamTable.ApplyInitialWindowDelta | core/src/stream.rs:530-536 | moves every live send window and the size new streams get, unless one would overflow |
| Ring.WithoutFacts | core/src/conn.rs:2301-2301 | taking a stream out of the ring leaves every other in place and no duplicate |
| Ring.TouchesSound | core/src/conn.rs:1376-2319 | a change about one stream that leaves that stream's bookkeeping right leaves every stream's right |
| Ring.WriteRstTouches | core/src/conn.rs:2495-2513 | a reset always goes out; its stream leaves the table and the ring and no other is disturbed |
| Ring.ApplyEventTouches | core/src/conn.rs:2272-2306 | a stream event moves one stream only; an illegal one takes it out of table and ring and owes a reset |
| Ring.EnqueueTouches | core/src/conn.rs:2310-2319 | a stream is in the ring after this if it was, or if it has something to send; its place, if it has one, is kept |
| Ring.SendTrailersHandled | core/src/conn.rs:2018-2059 | trailers keep the ring right whether held back, sent or malformed |
| Ring.SendResponseHandled | core/src/conn.rs:1985-2010 | so does a response head |
| Ring.RejectStreamHandled | core/src/conn.rs:2066-2088 | so does a bare status, opening the stream if need be |
| Ring.ReleaseBodyHandled | core/src/conn.rs:1468-1497 | so does the responder accepting body octets |
| Ring.OnServiceHandled | core/src/conn.rs:1376-1459 | every event from the responder disturbs only its own stream and leaves it in the ring exactly when it has something to send |
| Ring.OnRequestHandled | core/src/conn.rs:1829-1965 | so does every request or request trailer section |
| Ring.OnDataHandled | core/src/conn.rs:2098-2162 | so does every DATA frame |
| Ring.OnRstHandled | core/src/conn.rs:2177-2215 | so does every RST_STREAM |
| Ring.OnWindowUpdateHandled | core/src/conn.rs:2218-2268 | so does every WINDOW_UPDATE for a stream |
| Scheduler.TakeCounts | core/src/conn.rs:2597-2606 | what is taken and what stays add up to what was queued |
| Scheduler.TakeFits | core/src/conn.rs:2597-2606 | no more is taken than the budget |
| Scheduler.TakeKeepsNonempty | core/src/conn.rs:2597-2606 | no empty chunk is ever left in the queue |
| Scheduler.TakeProper | core/src/conn.rs:2391-2483 | a visit with budget, or with nothing but an end to send, always sends something and leaves less to do; trailers and END_STREAM come only with the last octet |
| Scheduler.SendBodyFacts | core/src/conn.rs:2412-2450 | DATA spends both windows by exactly its length and moves nothing else |
| Scheduler.VisitFacts | core/src/conn.rs:2391-2483 | a visit to a stream of the ring either stalls, with octets queued and no credit, changing nothing, or writes at most the budget and leaves strictly less to send |
| Scheduler.LapFacts | core/src/conn.rs:2337-2387 | a lap keeps every stream in one place and never adds work |
| Scheduler.RebuildFacts | core/src/conn.rs:2337-2387 | rebuilding the ring puts every stream with something to send in it once, those stalled first, those served after |
| Scheduler.OneLapFacts | core/src/conn.rs:2337-2387 | a lap that wrote leaves strictly fewer octets, ends and trailers in all; one that did not leaves only streams with octets and no credit at one of the two levels |
| Scheduler.FlushFacts | core/src/conn.rs:2487-2492 | owed resets always go out and disturb neither the ring nor what has been settled |
| Scheduler.PumpSettles | core/src/conn.rs:2337-2387 | the pump ends with the output at its bound or with every stream that has something to send blocked on credit: it is work-conserving |
| ClientRuns.StepHandled | core/src/conn.rs:1376-2319 | everything that concerns one stream leaves every other as it was |
| ClientRuns.SettingsFacts | core/src/conn.rs:1604-1631 | SETTINGS move send windows and nothing else of any stream |
| ClientRuns.StepSound | core/src/conn.rs:1376-2513 | a live stream is in the ring, once, exactly when it has something to send: kept by every step |
| ClientRuns.AlwaysSound | core/src/conn.rs:1376-2513 | over every run, and settled whenever the writer has just run |
| ClientRuns.NewConnSound | core/src/conn.rs:855-912 | and true of a new connection |
| Fairness.FairSnoc | core/src/conn.rs:2337-2387 | one more frame keeps the record fair if it is the waiting stream's own, or the first of its sender's |
| Fairness.OtherVisit | core/src/conn.rs:2391-2483 | another stream's turn, with ours still to come, keeps our wait fair |
| Fairness.OwnVisit | core/src/conn.rs:2391-2483 | our own turn gets a frame out, or there is no credit left for anyone after us in the lap |
| Fairness.OneLapKeepsPatience | core/src/conn.rs:2337-2387 | a lap keeps the wait fair: whoever will be ahead of us next lap has had no turn since we began to wait |
| Fairness.PumpKeepsPatience | core/src/conn.rs:2337-2387 | so does the whole pump |
| Fairness.StepKeepsPatience | core/src/conn.rs:1376-2513 | so does everything else that can happen on the connection |
| Fairness.BoundedBypass | core/src/conn.rs:2337-2409 | over every run, from any moment a stream waits in the ring with octets and credit of its own, the DATA written until its next frame is fair to it, however scarce connection credit is |
| Fairness.FairMeaning | core/src/conn.rs:2337-2409 | fair means: until its frame, every other stream has sent at most one octet-carrying DATA frame, and none is larger than the send budget |
| Fairness.PatienceBegins | core/src/conn.rs:2337-2409 | the wait may be counted from any moment of any run |
| ClientCredit.ReleaseConnCredit | core/src/conn.rs:2166-2174 | returning octets nobody holds any more keeps the account and always succeeds |
| ClientCredit.DrainCredit | core/src/conn.rs:1506-1518 | reclaimed credit goes back to the window and is counted nowhere else |
| ClientCredit.DropCredit | core/src/stream.rs:511-515 | what a departing stream held is reclaimed, not lost |
| ClientCredit.WriteRstCredit | core/src/conn.rs:2495-2513 | a reset returns whatever its stream held |
| ClientCredit.ApplyEventCredit | core/src/conn.rs:2272-2306 | completion returns it at once and an illegal transition leaves it to be reclaimed by the reset it owes |
| ClientCredit.ReleaseBodyCredit | core/src/conn.rs:1468-1497 | acceptance by the responder returns exactly what it accepted, at both levels |
| ClientCredit.BodyArrivesCredit | core/src/conn.rs:2098-2162 | octets that arrive are held by their stream, or returned with the reset they cause |
| ClientCredit.OnDataCredit | core/src/conn.rs:2098-2162 | the connection account balances after any DATA frame, for a live, a closed or an overspent stream |
| ClientCredit.OnRequestCredit | core/src/conn.rs:1829-1965 | and after any request, refused, malformed or accepted |
| ClientCredit.RejectStreamCredit | core/src/conn.rs:2066-2088 | and after a bare status |
| ClientCredit.SendTrailersCredit | core/src/conn.rs:2018-2059 | and after trailers |
| ClientCredit.OnRstCredit | core/src/conn.rs:2177-2215 | and after a reset by the peer |
| ClientCredit.OnWindowUpdateCredit | core/src/conn.rs:2218-2268 | and after credit from the peer, the refused kinds included |
| ClientCredit.OnServiceCredit | core/src/conn.rs:1376-1459 | and after any event from a responder that accepts no more than it was given |
| ClientCredit.PumpCredit | core/src/conn.rs:2337-2387 | and after a pump, which leaves nothing reclaimed or owed |
| ClientCredit.StepCredit | core/src/conn.rs:1468-1518 | available + unreleased + reclaimed + what live streams hold equals the window after every step |
| ClientCredit.CreditConserved | core/src/conn.rs:1468-1518 | over every run; and when the writer has just run with no stream live, more than half the window is with the peer |
| ClientCredit.NewConnCredit | core/src/conn.rs:855-912 | and true of a new connection |
| ClientWindows.SettingsExact | core/src/conn.rs:1604-1631 | a new INITIAL_WINDOW_SIZE moves every live window by the difference, so each is again exact |
| ClientWindows.CreditExact | core/src/conn.rs:2218-2268 | credit for a stream is counted once, and refused credit not at all |
| ClientWindows.ConnectionCreditExact | core/src/conn.rs:2218-2268 | so is credit for the connection |
| ClientWindows.StepKeeps | core/src/conn.rs:1376-2319 | nothing but credit, SETTINGS and the writer moves a live stream's send window |
| ClientWindows.VisitExact | core/src/conn.rs:2400-2450 | a DATA frame is charged to both windows by its length |
| ClientWindows.StepExact | core/src/conn.rs:1604-2450 | every step keeps every window exact |
| ClientWindows.WindowsAlwaysExact | core/src/conn.rs:1604-2450 | over every run each live stream's window equals the peer's current INITIAL_WINDOW_SIZE plus its increments minus its octets sent, whenever it opened (section 6.9.2 of RFC 9113) |
| ClientWindows.ExactMeans | core/src/flow.rs:132-141 | so no window reaches the floor the code clamps to, and octets sent on the connection never exceed what the peer granted |
| ClientWindows.NewConnExact | core/src/conn.rs:855-912 | and true of a new connection |
| ClientOrder.OrderlySnoc | core/src/conn.rs:2412-2476 | one more frame on a stream that has not ended keeps its record orderly if an end comes only with the last octet and, when there are trailers, only on HEADERS that encode them |
| ClientOrder.TakeFlatten | core/src/conn.rs:2597-2606 | what is taken is the front of what was queued |
| ClientOrder.TakenFacts | core/src/conn.rs:2412-2476 | octets sent, octets taken and octets left, in that order, are what the responder supplied; an end is taken only with the last, and not when trailers will carry it |
| ClientOrder.SendResponseOrder | core/src/conn.rs:1985-2010 | a head keeps its stream's record orderly, and ends it only when nothing is queued |
| ClientOrder.SendTrailersOrder | core/src/conn.rs:2018-2059 | trailers wait for the body before them, or end the stream themselves |
| ClientOrder.BodyDataOrder | core/src/conn.rs:1395-1416 | body octets join the end of what is queued |
| ClientOrder.RejectStreamOrder | core/src/conn.rs:2066-2088 | a bare status keeps the record orderly where it closes its stream, or where it is the responder's last word on one still open |
| ClientOrder.OnServiceOrder | core/src/conn.rs:1376-1459 | every event from a responder that does as it ought by what it has itself said keeps its response orderly |
| ClientOrder.OnRequestOrder | core/src/conn.rs:1829-1965 | so does every request |
| ClientOrder.OnDataOrder | core/src/conn.rs:2098-2162 | so does every DATA frame |
| ClientOrder.OnRstOrder | core/src/conn.rs:2177-2215 | so does every RST_STREAM |
| ClientOrder.OnWindowUpdateOrder | core/src/conn.rs:2218-2268 | so does every WINDOW_UPDATE |
| ClientOrder.SendBodyOrder | core/src/conn.rs:2412-2450 | the DATA frame of a visit carries the next octets, and END_STREAM only with the last when no trailers follow |
| ClientOrder.VisitOrder | core/src/conn.rs:2391-2483 | a visit keeps its stream's response orderly, trailers included |
| ClientOrder.PumpOrdered | core/src/conn.rs:2337-2387 | and the pump keeps every response orderly |
| ClientOrder.StepOrdered | core/src/conn.rs:1376-2513 | so does every step, a 431 included when it closes its stream |
| ClientOrder.ResponsesAlwaysOrdered | core/src/conn.rs:1395-1416 | over every run with a responder that does as it ought by its own history, on every stream: octets written followed by octets queued are what the responder supplied, in order; END_STREAM goes out at most once, after the last octet and the responder's last word, on HEADERS that encode its trailers when it gave any, and nothing follows it — throughout the run if and only if every 431 on a live stream finds it half-closed by the peer with nothing queued, and so closes it |
| ClientOrder.NewConnOrdered | core/src/conn.rs:855-912 | and true of a new connection |
| ClientOrder.OversizedBreaksOrder | core/src/conn.rs:2066-2088 | a 431 on a live stream keeps its record orderly if and only if the peer has finished and nothing is queued, so that it closes the stream |
| ClientOrder.UnclosedBreaksOrder | core/src/conn.rs:1794-1801 | a step whose 431 does not close its stream always leaves a record out of order |
| ClientBreaks.HeadAfterOversized | core/src/conn.rs:1794-1801 | a run from a new connection with a dutiful responder, a request, its oversized trailers and then the answer, in which HEADERS go out after END_STREAM |
| ClientOrder.MissingStream | core/src/conn.rs:1417-1450 | an event for a stream already finished is dropped, except a failed or shed exchange, which ends the connection with PROTOCOL_ERROR |
| ClientBreaks.ShedAfterReset | core/src/conn.rs:1417-1450 | a run from a new connection, a request that the peer resets just as the proxy sheds it, which ends the connection with PROTOCOL_ERROR |
| ClientHeads.OnServiceBegun | core/src/conn.rs:1376-1459 | after an event from the responder its stream's record still begins with HEADERS, with nothing held before them, if and only if the event was no early word: octets, an end on DATA, or malformed trailers while nothing had gone out |
| ClientHeads.VisitBegun | core/src/conn.rs:2391-2483 | a visit adds to a record that has begun, and its DATA fits the peer's SETTINGS_MAX_FRAME_SIZE |
| ClientHeads.PumpBegun | core/src/conn.rs:2337-2387 | so does the pump |
| ClientHeads.StepBegun | core/src/conn.rs:1376-2513 | every step adds only frames that fit, HEADERS apart, and keeps every response beginning with HEADERS if and only if it was no early word |
| ClientHeads.HeadersComeFirst | core/src/conn.rs:1395-1416 | over every run each response begins with HEADERS and holds nothing to send until they have gone out, if and only if the responder is never early |
| ClientHeads.NewConnBegun | core/src/conn.rs:855-912 | true of a new connection |
| ClientBreaks.DataComesFirst | core/src/conn.rs:1395-1416 | a run from a new connection, a request and an octet from a dutiful responder before its head, in which the response begins with DATA |
| FrameSizes.ClientFitsExactly | core/src/conn.rs:1985-2010 | over every run of a client connection, every frame fits the peer's limit in force when it is queued if and only if every HEADERS block does |
| FrameSizes.BackendFitsExactly | core/src/upstream.rs:920-927 | over every run of a backend connection too |
| FrameSizes.BlockFits | core/src/hpack.rs:568-608 | a block is at most six octets longer than the list size of what it encodes, so HEADERS for any list short enough can be framed |
| FrameSizes.LongHeadDoesNotFit | core/src/conn.rs:1985-2010 | a run from a new connection in which a response head longer than the peer takes goes out in one frame |
| ClientConnection.Connection.constructor | core/src/conn.rs:855-912 | a new connection is the one the runs begin with |
| ClientConnection.Connection.QueueFrame | core/src/conn.rs:2534-2546 | appends to the output exactly one frame's octets, or fails with INTERNAL_ERROR when its payload cannot be framed |
| ClientConnection.Connection.Flush | core/src/conn.rs:1528-1539 | takes the oldest octets of the output; the rest are still the print of what was queued and not yet taken |
| ClientConnection.Connection.QueueHeaders | core/src/conn.rs:1985-2010 | a list encoded against the connection's one table, as a whole HEADERS frame |
| ClientConnection.Connection.ReleaseConnWindow | core/src/conn.rs:2166-2174 | credits the connection window and announces it when enough has gathered |
| ClientConnection.Connection.DrainReclaimedCredit | core/src/conn.rs:1506-1518 | returns credit left behind by streams that have gone |
| ClientConnection.Connection.Retain | core/src/conn.rs:2301-2301 | the filtering loop takes every occurrence of one stream out of the ring and keeps the rest in order |
| ClientConnection.Connection.WriteRstStream | core/src/conn.rs:2495-2513 | out of the table and the ring, the responder told, credit returned, RST_STREAM queued |
| ClientConnection.Connection.ApplyStreamEvent | core/src/conn.rs:2272-2306 | moves a stream, finishing it when it closes and owing a reset when the event is illegal |
| ClientConnection.Connection.EnqueueReady | core/src/conn.rs:2310-2319 | into the ring once, if there is something to send |
| ClientConnection.Connection.Respond | core/src/conn.rs:1985-2010 | sends a response head and moves its stream |
| ClientConnection.Connection.RespondTrailers | core/src/conn.rs:2018-2059 | sends trailers, holds them behind queued octets, or ends the stream without malformed ones |
| ClientConnection.Connection.Reject | core/src/conn.rs:2066-2088 | answers with a bare status, opening the stream first if need be |
| ClientConnection.Connection.ReleaseRecvWindow | core/src/conn.rs:1468-1497 | returns accepted octets at both levels; for a stream that has gone, drains what it left |
| ClientConnection.Connection.GiveUpOn | core/src/conn.rs:1417-1450 | a status if none has gone out, an abort otherwise |
| ClientConnection.Connection.HandleServiceEvent | core/src/conn.rs:1376-1459 | each of the responder's events |
| ClientConnection.Connection.RecvTrailers | core/src/conn.rs:1829-1870 | a trailer section: the peer must still be sending, it must end the stream, and the length must match |
| ClientConnection.Connection.RecvRequest | core/src/conn.rs:1829-1965 | a request: refused while draining or over the limit, reset when malformed, dispatched otherwise |
| ClientConnection.Connection.RecvBody | core/src/conn.rs:2098-2162 | octets for a live stream |
| ClientConnection.Connection.RecvDataFrame | core/src/conn.rs:2098-2162 | the connection is debited before the stream is looked up |
| ClientConnection.Connection.RecvRstStreamFrame | core/src/conn.rs:2177-2215 | the stream goes, its credit with it; for a stream never opened, the connection ends |
| ClientConnection.Connection.RecvWindowUpdateFrame | core/src/conn.rs:2218-2268 | credit at either level, with the errors at each |
| ClientConnection.Connection.ApplyPeerSettings | core/src/conn.rs:542-588 | the loop over parameters takes them in order and stops at the first illegal one |
| ClientConnection.Connection.AdoptSettings | core/src/conn.rs:1604-1631 | the peer's settings and the table size they set |
| ClientConnection.Connection.RecvSettingsFrame | core/src/conn.rs:1604-1631 | settings adopted, live windows moved, and acknowledged |
| ClientConnection.Connection.SendBodyFrame | core/src/conn.rs:2412-2450 | both windows spent, one DATA frame, one stream event |
| ClientConnection.Connection.VisitStream | core/src/conn.rs:2391-2483 | one visit: stalled, written or finished |
| ClientConnection.Connection.RebuildRing | core/src/conn.rs:2337-2387 | the ring after a lap |
| ClientConnection.Connection.RunOneLap | core/src/conn.rs:2337-2387 | the lap's loop over the drained ring |
| ClientConnection.Connection.FlushPendingResets | core/src/conn.rs:2487-2492 | every owed reset goes out, the last owed first |
| ClientConnection.Connection.PumpOutbound | core/src/conn.rs:2337-2387 | the loop over laps, which ends because every lap that continues leaves less to send |
| Remapping.ActSnoc | core/src/upstream.rs:756-1082 | the record grows one act at a time |
| Remapping.OpenKept | core/src/upstream.rs:838-931 | a request opens the next odd identifier, above all before it, and both maps name each other |
| Remapping.SendRequestKept | core/src/upstream.rs:838-931 | a request opens, waits, is refused or was already cancelled, and the maps, the record and the account are kept |
| Remapping.AttachKept | core/src/upstream.rs:950-988 | adding to a request just started what gathered while it waited keeps the invariant and the queue of those waiting |
| Remapping.DrainPendingKept | core/src/upstream.rs:950-988 | starting those who wait keeps them |
| Remapping.ReleaseKept | core/src/upstream.rs:991-1014 | octets delivered leave the route and go to the window |
| Remapping.ForgetKept | core/src/upstream.rs:1018-1038 | a route that is let go returns what it held and is told of nothing more |
| Remapping.FailStreamKept | core/src/upstream.rs:1647-1668 | failing a stream keeps the invariant, so what is told of it goes to the client it was opened for |
| Remapping.ApplyEventKept | core/src/upstream.rs:1684-1705 | a stream event, legal or not, keeps the invariant |
| Remapping.OnMessageKept | core/src/upstream.rs:756-830 | every message from a client keeps mapping, record and account |
| Remapping.OnResponseKept | core/src/upstream.rs:1340-1412 | so does every response head or trailer section |
| Remapping.OnDataKept | core/src/upstream.rs:1415-1467 | so does every DATA frame; octets that overspend a stream's window are the only ones never returned |
| Remapping.OnRstKept | core/src/upstream.rs:1249-1258 | so does every RST_STREAM |
| Remapping.OnWindowUpdateKept | core/src/upstream.rs:1469-1507 | so does every WINDOW_UPDATE |
| Remapping.OnSettingsKept | core/src/upstream.rs:1163-1194 | so do SETTINGS |
| Remapping.OnGoAwayKept | core/src/upstream.rs:1049-1082 | so does GOAWAY |
| Remapping.GoAwayLetsGo | core/src/upstream.rs:1049-1082 | after a GOAWAY the routes left are exactly those at or below the last stream, and nobody is waiting |
| Remapping.VisitKept | core/src/upstream.rs:1552-1629 | so does a visit by the writer |
| Remapping.DoKept | core/src/upstream.rs:756-1629 | so does every step |
| Remapping.DoGrows | core/src/upstream.rs:756-1629 | a step other than a message only adds to the record and uses no request identifier never seen |
| Remapping.OnMessageGrows | core/src/upstream.rs:756-830 | a message only adds to the record and uses no request identifier never seen but its own |
| Remapping.AlwaysKept | core/src/upstream.rs:756-1629 | over every run |
| Remapping.NewUpKept | core/src/upstream.rs:430-479 | and true of a new connection |
| Remapping.OpenedIdsIncrease | core/src/upstream.rs:838-931 | in an orderly record identifiers are odd and strictly increase |
| Remapping.RemappingIsSafe | core/src/upstream.rs:838-1038 | over every run: HEADERS open with strictly increasing odd identifiers, the two maps are mutually inverse, and every event goes to the client whose request opened its stream, after it opened and never after it was forgotten; a forgotten identifier is never live again |
| Remapping.CreditIsConserved | core/src/upstream.rs:991-1038 | over every run: available + unreleased + what routes hold + octets of overspent DATA equals the connection window, and the window is never overdrawn |
| UpstreamSteps.WithinConcat | core/src/upstream.rs:838-988 | what is some of a list in its order, followed by some of another, is some of the two lists end to end |
| UpstreamSteps.DrainSteps | core/src/upstream.rs:950-988 | after the drain nobody waits while there is room, and requests begun followed by those waiting are some of those there were, in their order |
| UpstreamSteps.ForgetKeeps | core/src/upstream.rs:1018-1038 | letting a stream go, whatever was done to it before, gives its place to whoever waits and keeps everybody's turn |
| UpstreamSteps.OnResponseKeeps | core/src/upstream.rs:1340-1412 | a head or a trailer section leaves nobody waiting while there is room, lets nobody pass, and adds no frame longer than the backend takes but HEADERS |
| UpstreamSteps.OnDataKeeps | core/src/upstream.rs:1415-1467 | so does DATA |
| UpstreamSteps.OnGoAwayKeeps | core/src/upstream.rs:1049-1082 | so does GOAWAY |
| UpstreamSteps.OtherMessageKeeps | core/src/upstream.rs:756-830 | so does every message but a request |
| UpstreamSteps.VisitKeeps | core/src/upstream.rs:1552-1629 | so does a visit by the writer |
| UpstreamSteps.StepKeeps | core/src/upstream.rs:756-1629 | so does every step but a request, SETTINGS and stream credit |
| Waiting.SettingsPrompt | core/src/upstream.rs:1163-1194 | SETTINGS leave somebody waiting while there is room if and only if somebody waits, identifiers are left and the limit they leave is above the live streams |
| Waiting.CreditPrompt | core/src/upstream.rs:1469-1507 | a WINDOW_UPDATE does if and only if somebody waits, identifiers are left and it resets one of at most as many live streams as the limit |
| Waiting.RequestSteps | core/src/upstream.rs:838-931 | a request joins the end of the line or is turned away, unless there is room while others wait: then it is begun ahead of them |
| Waiting.PromptExactly | core/src/upstream.rs:933-988 | over every run, nobody waits while there is room if and only if no step frees a place in one of those two ways |
| Waiting.InTurnExactly | core/src/upstream.rs:838-988 | over every run in which each request is asked for once, requests begun and then those waiting are at every moment some of those asked for, in the order they were asked for, if and only if none is begun while others wait |
| Waiting.ServedInTurn | core/src/upstream.rs:838-988 | both from a new connection; and a run that frees no place in either way takes requests in turn throughout |
| BackendBreaks.RaisedLimitOvertakes | core/src/upstream.rs:1163-1194 | a run from a new connection, a limit of one, two requests and the limit raised, in which a third request is begun while the second waits |
| BackendBreaks.ResetOvertakes | core/src/upstream.rs:1474-1482 | another, in which a WINDOW_UPDATE of nothing resets the first request's stream and the third is begun while the second waits |
| Responses.FailStreamOwes | core/src/upstream.rs:1647-1668 | a failure is the one last word of its stream: a status if no head has been given, an abort otherwise |
| Responses.OnResponseOwes | core/src/upstream.rs:1340-1412 | a head or a trailer section keeps every client told only what a dutiful responder says, unless trailers arrive that do not end their stream |
| Responses.OnDataOwes | core/src/upstream.rs:1415-1467 | so does DATA, unless its octets come before any head and do not end the stream |
| Responses.OnMessageOwes | core/src/upstream.rs:756-830 | so does every message |
| Responses.OnGoAwayOwes | core/src/upstream.rs:1049-1082 | so does GOAWAY |
| Responses.VisitOwes | core/src/upstream.rs:1552-1629 | so does a writer's visit |
| Responses.AlwaysDutiful | core/src/upstream.rs:1340-1467 | over every run, what each client is told of its response meets the duty the client connection assumes of a responder, with the last word of every routed stream still to come, if and only if, on its live streams, the backend sends no trailers without END_STREAM and no octets before a head other than with END_STREAM |
| Responses.StrayOwes | core/src/upstream.rs:1358-1467 | doing either goes through: the stream and its route stay, with the last word told or octets told of behind no head, and the backend may go on |
| Responses.StrayIsHeard | core/src/upstream.rs:1358-1373 | and once the backend has done either, its next frame can have a client told something after the last word, or an answer that is only an end behind octets |
| Responses.NewUpOwes | core/src/upstream.rs:430-479 | a new backend connection meets that duty |
| BackendBreaks.TrailersGoOn | core/src/upstream.rs:1358-1373 | a run from a new connection in which trailers without END_STREAM, and more after them, have the client told something after the last word |
| BackendBreaks.OctetsBeforeHead | core/src/upstream.rs:1452-1459 | a run from a new connection in which an octet before any head, and then a head too large, have the client given a status with its end behind that octet |
| Bridge.HeldCovers | core/src/upstream.rs:991-1014 | what a route holds covers its octets in events on the way, in the client's queue and in reports not yet handled |
| Bridge.NewsCounts | core/src/upstream.rs:1415-1467 | octets newly recorded as sent on are exactly those newly on their way |
| Bridge.BackendCovered | core/src/upstream.rs:1340-1467 | anything the backend sends keeps every route covering its octets |
| Bridge.InboxCovered | core/src/upstream.rs:756-830 | so does handling a message, and no message of a client can fail the connection |
| Bridge.InboxIsHonest | core/src/proxy.rs:1084-1092 | a client never reports more octets than its route holds |
| Bridge.ArrivesCovered | core/src/conn.rs:1395-1416 | so does an event reaching its client |
| Bridge.WritesOutCovered | core/src/conn.rs:2391-2483 | so does a client writing octets out, whether it reports them or not |
| Bridge.AsksCovered | core/src/proxy.rs:841-909 | so does a new request |
| Bridge.LetsGoCovered | core/src/proxy.rs:1060-1082 | so does a client dropping a stream |
| Bridge.StepCovered | core/src/upstream.rs:991-1038 | so does every step of every task, in any interleaving |
| Bridge.AlwaysCovered | core/src/upstream.rs:991-1038 | over every run |
| Bridge.NewBridgeCovered | core/src/upstream.rs:430-479 | and true at the start |
| Bridge.CoveredMeans | core/src/upstream.rs:1415-1467 | so octets in memory of responses not yet finished never exceed one connection window |
| Bridge.MemoryIsBounded | core/src/upstream.rs:991-1038 | over every interleaving of backend, upstream task, channels and clients, from the start |
| BridgeClients.ArrivalIsQueued | core/src/conn.rs:1395-1416 | an event of the bridge reaching its client is the connection's handler queueing its octets: the bridge's count for the request is still the stream's queue, and no other queue moves |
| BridgeClients.ArrivalIsDropped | core/src/conn.rs:1376-1416 | octets for a stream no longer there are dropped by the handler, as the bridge drops them for a request let go |
| BridgeClients.VisitIsWriteOut | core/src/conn.rs:2391-2483 | a visit of the writer is the bridge writing out the octets of its frame: they leave the stream's queue, exactly they are reported to the responder, and no other queue moves |
| UpstreamConnection.Connection.constructor | core/src/upstream.rs:430-479 | a new connection is the one the runs begin with |
| UpstreamConnection.Connection.Queue | core/src/upstream.rs:1707-1719 | appends to the output exactly one frame's octets, or changes nothing and fails with INTERNAL_ERROR when its payload cannot be framed |
| UpstreamConnection.Connection.Flush | core/src/upstream.rs:741-752 | takes the oldest octets of the output; the rest are still the print of what was queued and not yet taken |
| UpstreamConnection.Connection.Retain | core/src/upstream.rs:1677-1677 | takes one stream out of the ring, keeping the rest in order |
| UpstreamConnection.Connection.ReleaseConnWindow | core/src/upstream.rs:1004-1012 | credits the connection window and announces it when enough has gathered |
| UpstreamConnection.Connection.RetireAndForget | core/src/upstream.rs:1018-1021 | out of the table and the ring, with nothing left to reclaim |
| UpstreamConnection.Connection.Reset | core/src/upstream.rs:1670-1682 | retired and RST_STREAM queued |
| UpstreamConnection.Connection.Enqueue | core/src/upstream.rs:1631-1640 | into the ring once, if there is something to send |
| UpstreamConnection.Connection.QueueHeaders | core/src/upstream.rs:920-927 | a list encoded against the connection's one table, or INTERNAL_ERROR when its block cannot be framed |
| UpstreamConnection.Connection.Enter | core/src/upstream.rs:907-914 | both maps gain the stream and name each other |
| UpstreamConnection.Connection.Open | core/src/upstream.rs:889-931 | the next identifier taken, both maps filled, HEADERS queued; INTERNAL_ERROR if and only if they cannot be framed, here and in every handler that may start a request |
| UpstreamConnection.Connection.Send | core/src/upstream.rs:838-931 | cancelled, refused, shed, kept waiting or opened |
| UpstreamConnection.Connection.Gather | core/src/upstream.rs:969-976 | the loop keeps non-empty chunks in order and whether one was the last |
| UpstreamConnection.Connection.Follow | core/src/upstream.rs:965-985 | body and trailers that gathered follow the head |
| UpstreamConnection.Connection.DrainQueue | core/src/upstream.rs:950-988 | the loop starts those waiting, oldest first, while there is room |
| UpstreamConnection.Connection.ReleaseOwn | core/src/upstream.rs:1000-1007 | the stream's own window |
| UpstreamConnection.Connection.Release | core/src/upstream.rs:991-1014 | octets delivered are returned at both levels |
| UpstreamConnection.Connection.Drop | core/src/upstream.rs:1018-1038 | the route goes from both maps, its credit goes back, and those waiting are started |
| UpstreamConnection.Connection.Fail | core/src/upstream.rs:1647-1668 | a status before the head has gone, an abort after |
| UpstreamConnection.Connection.ApplyStreamEvent | core/src/upstream.rs:1684-1705 | moves a stream; an illegal event fails it |
| UpstreamConnection.Connection.Handle | core/src/upstream.rs:756-830 | each message from a client |
| UpstreamConnection.Connection.PeerEvent | core/src/upstream.rs:1369-1410 | an event of the backend's, and the stream let go when it was the last |
| UpstreamConnection.Connection.RecvResponse | core/src/upstream.rs:1340-1412 | head, interim head or trailers, told to the stream's client |
| UpstreamConnection.Connection.Forward | core/src/upstream.rs:1448-1466 | octets held against the route and sent on |
| UpstreamConnection.Connection.RecvDataFrame | core/src/upstream.rs:1415-1467 | recorded, sent on and not released |
| UpstreamConnection.Connection.RecvRst | core/src/upstream.rs:1249-1258 | the client is told and the route let go |
| UpstreamConnection.Connection.RecvWindowUpdate | core/src/upstream.rs:1469-1507 | credit at either level, with the errors at each |
| UpstreamConnection.Connection.AdoptSettings | core/src/upstream.rs:1163-1166 | parameters in order, and the last concurrency limit among them |
| UpstreamConnection.Connection.TakeSettings | core/src/upstream.rs:1163-1178 | settings, table size and concurrency limit adopted |
| UpstreamConnection.Connection.RecvSettings | core/src/upstream.rs:1163-1194 | live windows moved, and acknowledged |
| UpstreamConnection.Connection.BeginDrain | core/src/upstream.rs:1049-1082 | those waiting and those above the last stream are refused; the rest goes on |
| UpstreamConnection.Connection.SendChunk | core/src/upstream.rs:1582-1604 | both windows spent, one DATA frame, one stream event |
| UpstreamConnection.Connection.Follows | core/src/upstream.rs:1600-1622 | the client is told what the backend has taken, and trailers follow |
| UpstreamConnection.Connection.Visit | core/src/upstream.rs:1552-1629 | one visit, crediting the client for what the backend has taken |
| AdmissionLimit.Admission.constructor | core/src/conn.rs:952-966 | the ceiling is enforced until the first SETTINGS is acknowledged |
| AdmissionLimit.Admission.SyncAdmission | core/src/conn.rs:974-997 | a moved budget is advertised; a higher one is enforced at once, a lower one not yet |
| AdmissionLimit.Admission.OnSettingsAck | core/src/conn.rs:1633-1650 | the advertised limit is enforced once nothing is outstanding |
| AdmissionLimit.ReadsFair | core/src/conn.rs:1633-1650 | the peer adopting a limit keeps the invariant |
| AdmissionLimit.ArrivesFair | core/src/conn.rs:1633-1650 | an acknowledgement or an opening arriving keeps it, and the opening is not refused |
| AdmissionLimit.TakeFair | core/src/conn.rs:952-997 | so does every turn |
| AdmissionLimit.AlwaysFair | core/src/conn.rs:952-997 | over every interleaving |
| AdmissionLimit.ConformingPeerNeverRefused | core/src/conn.rs:952-997 | over every interleaving of budget moves, SETTINGS and in-order acknowledgements from a first budget no larger than the ceiling, in which the table never counts more live streams on an arrival than the peer had open when it opened that stream: the limit enforced is at least every limit the peer may still be under, no opening within the peer's limit is refused, and with nothing outstanding the limit enforced is the one advertised |
| AdmissionLimit.InitialAboveCeilingCanRefuse | core/src/conn.rs:952-966 | a first budget above the ceiling, by contrast, can have a conforming peer refused: a run that does it, for every such pair |
| AdmissionLimit.LingeringStreamCanRefuse | core/src/conn.rs:1829-1965 | for every limit, one stream the peer has closed and the table still counts has the peer's last permitted stream refused |
| AdmissionControl.Shared.constructor | core/src/proxy.rs:454-499 | opens at the ceiling and comes down on evidence |
| AdmissionControl.Shared.RecomputeAdmission | core/src/proxy.rs:529-599 | one sample: halve on distress, double below the threshold, step above it, and share out |
| AdmissionControl.SampleIsBounded | core/src/proxy.rs:529-599 | after any sample the total is between 64 and ceiling times connections, the share between 2 and the ceiling, and the shares together fit the total whenever the floor of 2 allows |
| AdmissionControl.ShareFits | core/src/proxy.rs:590-599 | shares never add up to more than the total unless the floor of 2 forces it |
| AdmissionControl.DistressHalves | core/src/proxy.rs:555-570 | distress halves the total, rounding down, but not below 64, and sets the threshold there |
| AdmissionControl.CalmClimbs | core/src/proxy.rs:571-589 | a calm sample climbs by at least the step, or to the ceiling |
| AdmissionControl.CalmNeverFalls | core/src/proxy.rs:529-599 | without distress the total never falls |
| AdmissionControl.SixteenDouble | core/src/proxy.rs:529-599 | sixteen calm samples at least double the total or reach the ceiling, whatever the threshold |
| AdmissionControl.DoublingReaches | core/src/proxy.rs:529-599 | 16 k calm samples reach 64 times 2^k, or the ceiling |
| AdmissionControl.RecoversWithin | core/src/proxy.rs:529-599 | once 64 times 2^k is the ceiling's total, 16 k calm samples reach it and later ones stay there |
| TokenBucket.Meter.constructor | core/src/guard.rs:215-222 | starts full |
| TokenBucket.Meter.Take | core/src/guard.rs:225-242 | refills by elapsed time, up to the burst, and spends one token if there is one; a clock that goes back adds nothing |
| TokenBucket.Guard.constructor | core/src/guard.rs:356-368 | two meters |
| TokenBucket.Guard.RecordReset | core/src/guard.rs:393-401 | every reset is charged to the first meter and an unanswered one to the second as well, unless the first has tripped |
| TokenBucket.FilledIsLeast | core/src/guard.rs:225-242 | tokens at an event are the least, over all windows ending there, of what the envelope leaves, and some window attains it |
| TokenBucket.FirstTripExactly | core/src/guard.rs:225-242 | the first trip is at the first event that ends a window holding more than burst + rate × length events, and nowhere else |
| TokenBucket.WithinEnvelopeNeverTrips | core/src/guard.rs:225-242 | a run never trips if and only if no window of it exceeds the envelope |
| TokenBucket.AcceptedWithinEnvelope | core/src/guard.rs:225-242 | events let through in any window of any run, tripped or not, never exceed the envelope |

## Left out

- Sockets, TLS, timers, select loops, flushing and polite close, signals, metrics, tracing, configuration and debug text: not part of this model.
- The connection pool, load balancing, health checks and the PING probe: not part of this model.
- Validation of request and response heads: its verdict is an input of the handlers; only trailer validation is modelled.
- Connection kills by the flood guard, its control-frame, empty-data and CONTINUATION counters, and rate peaks: the two reset meters are modelled.
- The state of a connection after an error: it ends there, and the class methods say nothing of their state then.
- `data_received` as a 64-bit counter: it is unbounded here.
- UpstreamConnection.Connection.Drop: reports a waiting request's HEADERS that cannot be framed; the source drops that error and goes on with the rest still waiting (core/src/upstream.rs:1037). Runs of a backend connection go on past a request's HEADERS that cannot be framed. `FrameSizes.BlockFits` says that no list of a size up to 16,777,209 gives such a block.
- The lap order of the backend connection's writer and the bound on its output: any stream may be visited at any time, which covers every order; the scheduler is proved on the client connection.
- The end of a backend task (`fail_all_routes`), the drain deadline and retries: the bridge is one backend connection, and a retried request is a new request.
- A backend that sends DATA before a head and then refuses the stream, with the request retried: octets are tied to the attempt they were sent for.
- That every request gets a last word: the end of a backend task, which gives the missing ones, is not part of this model. `Responses` says that nothing but a reset follows one.
- The `opened` and peak counters of the stream table, and where the admission budget comes from.
- Bridge.MemoryIsBounded: speaks of responses whose END_STREAM has not arrived; credit for finished ones goes back at END_STREAM, so their octets are not bounded by the window.
- AdmissionLimit.ConformingPeerNeverRefused: asks that the first budget be no more than the ceiling and that the table count no stream the peer has closed, because the code breaks it otherwise, as two lemmas show.
- TokenBucket.FirstTripExactly: for a finite rate and burst on exact numbers; the unlimited meters of permissive limits never trip, and rounding is not modelled.
- TokenBucket.AcceptedWithinEnvelope: asks for a burst of at least zero, as every configuration has.
- Remapping.CreditIsConserved: counts octets that overspend a stream's window as lost to the connection window, because the code never returns them.
- BridgeClients.VisitIsWriteOut: speaks of one visit and one arrival; the runs of the bridge count octets and do not carry whole client connections.
