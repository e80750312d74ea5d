# aviancore, verified

A Dafny 4.11 model of the parts of aviancore whose correctness is hardest to see from
the code: its two lock-free shared-memory protocols, the bookkeeping of its QUIC
transport, and the codecs and tables in which a fast form has to agree with a simple one.

`dafny verify dfyconfig.toml` checks the whole project.

## How it is organised

Shared memory (`Bus`, `BusProof`, `BusKept`, `BusPublish`; `Cache`, `CacheProof`,
`CacheMarks`, `CacheRun`, `CacheStale`, `CacheAlone`, `CachePut`, with `Paths` for runs of
one thread; `RateLimit`, `RateLimitLog`). The broadcast bus
and the response cache are state machines in which one step is one atomic load, store or
compare-and-swap, one field of a slot, or one byte of a copy. `Reach(c, actions)` folds an
arbitrary list of actions from the initial state, any process may die before any step,
and every theorem about `Reach` is a theorem about every interleaving. An action that is
not possible in a state leaves it alone, so lists of actions need no side conditions.
History (what was published, in order) is kept in ordinary fields that no step reads.
What must never happen is proved of every interleaving; that a publish, a read, a put, a
lookup or an invalidation does what it is for is proved from every reachable state, with
the other threads stopped wherever they happen to be. The rate limiter takes one whole
call a step.

QUIC (`QuicRanges`, `QuicSend`, `QuicLoss`, `QuicLossRules`, `QuicSpace`, `QuicDelivery*`,
`QuicReceive`, `QuicReceiveSizes`, `QuicCredit`, `QuicCreditRun`, `QuicVarint`, `QuicAck`,
`QuicAckFrame`, `QuicNumber`, with `Ledger` for sums over streams). Each object the source updates in place is a class whose methods keep the
source's loops and are proved equal to a function on values: sets of offsets for range
lists, filters for the two packing passes over the packets that are out, one map from
offsets to bytes for reassembly. The theorems over whole runs are about those functions,
so they cross files: `QuicDeliveryTheorem` puts streams, packets, loss detection and the
connection's ledger in one state machine; `QuicDeliveryAcks` says from the ACKs of a run
which bytes count as acknowledged; `QuicDeliveryDrain` and `QuicDeliveryDone` bring a
delivery to its end; `QuicDeliveryEnd` hands what it sends to the receiver of
`QuicReceive`; and `QuicCreditRun` shows that each stream of a connection is one of those.

Codecs and structures. `HpackTable`, `HpackInteger`, `Huffman`, `HuffmanTable`,
`HuffmanCodes`, `HuffmanCodec`; `Chunked`, `ChunkedLoop`, `ChunkedWriter`,
`ChunkedGrammar`; `LoopExecutor`, `LoopHandOver`, `LoopProgress`; `CivilTime`,
`DecimalText`, `CivilText`, `CivilTextProof`, `CivilTextWords`, `CivilTextGrammar`;
`HttpDate`, `HttpDateForms`. Each reader is proved against the language it reads as well
as against its writer. The Huffman proof is parametric in the
table of code lengths; `HuffmanTable` shows that the lengths of HPACK meet what the proof
asks of them, and `HuffmanCodes` that its codes are the canonical ones of those lengths.

## What the model assumes

- Sizes that the source masks with are powers of two; `Arith.MaskWraps` is why the model
  may go round at them instead.
- Memory is sequentially consistent, `av_process_alive` is exact, process numbers are not
  reused, and 64-bit counters do not wrap. Where the source computes with a wrap that can
  matter (a fragment's end offset, the subtraction in the Huffman tables, the cast of a
  year) it is written out.
- Clocks, packet sizes, the room left in a packet, sequence numbers handed to a cache put
  and hashes of keys are arbitrary parameters. Sealing and opening packets succeed.
- Cache: one generation (no flush during a run), the hash of a target is a function of
  the key, a byte is any number. What an invalidation raises its mark to is a parameter
  of it. Which of its probe slots a put overwrites, and whether it
  gives up early because a newer copy is kept, are left open: the theorems hold however
  those choices fall. A weak compare-and-swap that fails for no reason is the step not
  being taken.
- Delivery: the clock does not go back, a peer's connection limit only rises, stream
  frames travel in 1-RTT packets only, and a stream may be retired at any time, which is
  more than the source allows itself.

## Where the code differs from what one might expect

- `avian_cache.h` promises that a lookup serves only the copy with the highest number. It
  looks at the slots one after the other, and copies move meanwhile: while it is between
  two slots a put can publish in a slot it has passed and take an older copy out of one it
  has yet to reach, and what it then finds may be older still, from a put that was slow to
  publish. `CacheStale.OlderHit` is such a run, every slot in it being the one
  `av_cache_put` would choose. That is the only way: a lookup returns a copy as new as any
  published before it began, unless a copy newer than all of those was published before its
  search ended (`CacheProof.OlderOnlyIfOvertaken`), so never when nothing was published
  during the search (`CacheProof.NeverOlder`).
- `QUICConnection.send` takes bytes for a stream after its end was queued. Once the end has
  gone out they come too late, and a receiver has the stream for finished without them
  (`QuicDeliveryEnd.FinishedTooSoon`); frames say the right end exactly when nothing is
  written past an end that went out (`QuicDeliveryEnd.EndIsLastByte`).
- `QUICAckRanges.add` has a branch for a gap that closes above a range it has just
  extended upwards. No list in canonical form reaches it: the earlier range would have
  taken the number first. The model leaves it out, and `QuicAck.AckRanges.Add` is
  set insertion without it.
- Reassembly keeps the first copy of a byte that arrives early, but a fragment that
  continues the stream is taken whole and replaces bytes kept early. For fragments of one
  stream the two agree (`QuicReceive.Reassembly`).
- What is kept early is strictly below the window left, except when the window is used
  up, where both are zero (`QuicReceive.EarlyIsBounded`, `QuicReceive.NoWindowNoBound`).
- `hpackReadInteger` refuses integers that `hpackWriteInteger` writes, from the prefix
  plus 2^28 on (`HpackInteger.IntegerRoundTrip`, `HpackInteger.TooLongToRead`).
- `CivilTime.parse` refuses what `CivilTime.format` writes exactly when the year takes
  more than six digits, which no 64-bit instant does. But its last product and sum are
  checked arithmetic on 64 bits. In the part of a day that the 64-bit range starts with
  the midnight before the instant is outside the range, and reading back the text of such
  an instant, the very first one included, stops the program
  (`CivilTextWords.WordRoundTrip`, `CivilTextWords.FirstWordTraps`). So does any text of a
  date far enough out, which six digits of a year allow: `CivilTextWords.TrapsExactly`
  says which, by date and clock.
- `HTTPDate.parse` inverts `av_http_date` for years 0 to 9999 and for no other
  (`HttpDate.DateRoundTrip`; `HttpDate.YearTenThousand` is the first second that fails).
- An empty chunk is framed as the end of the body, and a size of sixteen digits is
  refused: the framing is undone exactly when neither occurs
  (`ChunkedWriter.WriterRoundTrip`, `ChunkedWriter.EmptyChunkEnds`).

## Model

| member | source | states |
|---|---|---|
| Arith.MaskWraps | Sources/CAvian/avian_bus.c:178-189 | masking with one less than a power of two is the remainder, as rings and tables index |
| BusProof.ReachInv | Sources/CAvian/avian_bus.c:209-334 | in every interleaving, with writers dying at any step and being taken over, the whole invariant holds: log, ring bytes, index entries, watermark, what the claim's holder has done so far and what each reader in progress knows |
| BusProof.ReadIsOneCountedPublish | Sources/CAvian/avian_bus.c:305-334 | a read that returns a message returns exactly the topic, event and data of the one counted publish with that number; a read refused for room asks for exactly that message's length |
| BusProof.OneWriter | Sources/CAvian/avian_bus.c:209-230 | at most one live thread is ever between taking and giving the claim |
| BusProof.StepGrows | Sources/CAvian/avian_bus.c:237-279 | no step lowers the watermark, the next number or the oldest, and none changes what was counted |
| BusProof.NothingFalls | Sources/CAvian/avian_bus.c:246-279 | the same over any further run, and the next number less the first is always the count of committed publishes |
| BusProof.AloneReads | Sources/CAvian/avian_bus.c:305-334 | with the claim free, an uninterrupted read gives not-yet from `next` on, gone below `oldest`, and in between the message counted under that number or the room it needs |
| BusProof.AloneIsARun | Sources/CAvian/avian_bus.c:305-334 | an uninterrupted read is a run of the machine: its steps, taken one by one, end with that result |
| BusProof.FreeMeansReadable | Sources/CAvian/avian_bus.c:246-334 | whenever the claim is free, wherever writers died before, every number in [oldest, next) can be read in full and no other is reported readable; which numbers those are is `BusKept.OldestIsExact` |
| BusKept.GivenUpOnlyIfPushedOut | Sources/CAvian/avian_bus.c:246-279 | in every interleaving, at every moment: a counted message that lies below `oldest` has had its bytes written over, or its place in the index is wanted for a later number; no publish gives up any other |
| BusKept.OldestIsExact | Sources/CAvian/avian_bus.c:246-279 | with the claim free, a message is at or above `oldest` if and only if its bytes are within the capacity of the watermark and its number is among the last there are places for |
| BusKept.ReadableExactly | Sources/CAvian/avian_bus.c:246-334 | so an uninterrupted read returns a counted message if and only if neither its bytes nor its place are gone, and says it is gone otherwise |
| BusKept.WatermarkIsNeeded | Sources/CAvian/avian_bus.c:249-249 | the watermark is raised only for a message about to be copied, and only to its end |
| BusKept.RingIsFull | Sources/CAvian/avian_bus.c:246-279 | while no process has died, the messages kept are exactly those within one capacity of the tail and among the last `entries` numbers |
| BusPublish.PublishCounts | Sources/CAvian/avian_bus.c:209-279 | from every reachable state with nobody alive in the claim, wherever its holder died: an uninterrupted publish ends with its message counted behind all others, at the tail, and the claim free |
| BusProof.HeaderRoundTrip | Sources/CAvian/avian_bus.c:263-264 | a record's 24 bytes give back its sequence and three lengths |
| BusProof.AlignRounds | Sources/CAvian/avian_bus.c:74-74 | the size of a record is the next multiple of eight |
| Cache.WordsAreVersions | Sources/CAvian/avian_cache.c:127-133 | the bit arithmetic of claim and publish words is what the model does with versions; only odd words are claims, the owner can be read from one, and different versions are different words |
| CacheProof.ReachInv | Sources/CAvian/avian_cache.c:276-516 | in every interleaving of puts, retires, invalidations, lookups and deaths: a stable slot of this generation holds one published put whole, a claimed slot belongs to one live or dead writer, every published put is still kept, superseded by a newer one or below its mark; what marks do is `CacheMarks` |
| CacheMarks.NoMarkFalls | Sources/CAvian/avian_cache.c:158-162 | no run, however it goes on, lowers a mark |
| CacheMarks.InvalidatedIsNotServed | Sources/CAvian/avian_cache.c:276-391 | once an invalidation has returned, no lookup begun after it, interleaved with puts, evictions, retirements and deaths in any way, hits with a copy of its target numbered at or below it |
| CacheMarks.MarksAreCalledFor | Sources/CAvian/avian_cache.c:158-162 | every mark is 0, what some invalidation asked for, or one below the number of a published copy of its target: nothing is made out of date for another reason |
| CacheMarks.InvalidationEnds | Sources/CAvian/avian_cache.c:276-279 | an uninterrupted invalidation returns within two steps |
| CacheAlone.LookupFinds | Sources/CAvian/avian_cache.c:336-391 | from every reachable state, writers stopped anywhere: an uninterrupted lookup hits if and only if the newest published copy of its key is kept, above its mark, not expired and no longer than the caller has room for, and answers with that copy |
| CacheAlone.AnswerAlone | Sources/CAvian/avian_cache.c:336-391 | taken one read at a time, such a lookup comes to the answer of the selection made in one step |
| CachePut.PutLands | Sources/CAvian/avian_cache.c:393-516 | from every reachable state: an uninterrupted put above its mark, that does not give up and picks a probe slot no living writer holds, publishes its copy there and leaves no stable copy of its key with a lower number |
| Cache.FirstFit | Sources/CAvian/avian_cache.c:402-410 | the first class with room for the entry: it fits, and no class before it does |
| CacheProof.HitIsOnePut | Sources/CAvian/avian_cache.c:336-391 | a lookup that hits, its reads interleaved with writers field by field and byte by byte, returns key, status, head, body, age and time to live of one published put of that key |
| CacheProof.OlderOnlyIfOvertaken | Sources/CAvian/avian_cache.c:336-391 | every lookup, its reads interleaved with writers in any way: a hit is at least as new as each copy of its key published before the lookup began, or a put newer than all of those was published before its search ended |
| CacheProof.NeverOlder | Sources/CAvian/avian_cache.c:336-391 | so a lookup during whose search nothing was published, one that searches in a single step included, returns a copy at least as new as any of its key published before, whatever was evicted, replaced or retired |
| CacheProof.ChangeLeaves | Sources/CAvian/avian_cache.c:313-334 | a stable copy is taken from its slot only once a newer one is published or its mark is just below it |
| CacheStale.OlderHit | Sources/CAvian/avian_cache.c:313-391 | a run of three puts and one lookup in which the lookup, begun after a copy was published, hits with an older one |
| CacheStale.OnlyPutsAndALookup | Sources/CAvian/avian_cache.c:313-391 | nothing else happens in that run: no selection in one step, no death, no invalidation |
| CacheProof.PickIsNewestOrRefused | Sources/CAvian/avian_cache.c:313-334 | in every reachable table the copy a selection would pick is the newest ever published for its key, or its mark refuses it |
| CacheProof.SelectNewest | Sources/CAvian/avian_cache.c:344-366 | the selection loop finds, among all stable copies in every class, one none is newer than |
| CacheProof.SelectedIsNewest | Sources/CAvian/avian_cache.c:344-384 | a selected copy above its mark is as new as anything published for the key |
| CacheProof.EntryMatches | Sources/CAvian/avian_cache.c:283-288 | a stable slot that passes every comparison holds a put of exactly that key |
| CacheProof.RetiredIsOlder | Sources/CAvian/avian_cache.c:313-334 | a copy that a retire may claim is older than one that was published |
| CacheProof.Untouched | Sources/CAvian/avian_cache.c:479-505 | no step of a writer changes or claims a slot another live writer holds |
| CacheProof.OneHolder | Sources/CAvian/avian_cache.c:479-505 | two live writers never hold one slot |
| CacheProof.CopyStaysInSlot | Sources/CAvian/avian_cache.c:371-382 | the bytes a lookup copies lie in its slot and in the caller's buffer even when the lengths it read are torn |
| RateLimit.CheckKeeps | Sources/CAvian/avian_ratelimit.c:146-187 | a check keeps the table sound: one entry a client, every entry before the first empty slot of its probes |
| RateLimit.CheckDecides | Sources/CAvian/avian_ratelimit.c:146-187 | every check decides as an unbounded map of clients would, whether it finds an entry or not, and table and map go on meaning the same; only the charge depends on finding one. What the map decides is `RateLimitLog.RefusedExactly` |
| RateLimit.TableRefinesMap | Sources/CAvian/avian_ratelimit.c:146-187 | over every run with times that do not go back, no client has two entries and the next check decides as the map |
| RateLimit.WindowBound | Sources/CAvian/avian_ratelimit.c:174-187 | a client whose checks all found an entry is admitted at most 1 + (length + tolerance) / emission times in any window |
| RateLimit.WaitIsLeast | Sources/CAvian/avian_ratelimit.c:146-187 | in every reachable state, with both searches of the table: a retry after a refusal is admitted if and only if it comes after the wait that was given, whatever checks of other clients, and takeovers of entries by them, come in between |
| RateLimit.RetryIsAdmitted | Sources/CAvian/avian_ratelimit.c:146-187 | the same of any sound table with nothing in between |
| RateLimitLog.RefusedExactly | Sources/CAvian/avian_ratelimit.c:146-187 | from the log alone, in every reachable state and for every client: a check has more than d to wait if and only if some earlier charged admission, with those from it on at one emission each, reaches past the check by more than the tolerance and d; with d = 0, that is when it is refused |
| RateLimitLog.LogExplains | Sources/CAvian/avian_ratelimit.c:146-187 | so each refusal and each admission in the log follows from the admissions before it |
| RateLimitLog.PacedIsAdmitted | Sources/CAvian/avian_ratelimit.c:174-187 | a client whose checks are at least one emission apart is never refused |
| RateLimitLog.IdleGetsABurst | Sources/CAvian/avian_ratelimit.c:174-187 | of the checks an idle client with an entry makes at one instant, exactly the first 1 + tolerance / emission are admitted |
| RateLimitLog.UnfoundExactly | Sources/CAvian/avian_ratelimit.c:146-172 | a check finds no entry if and only if all eight probes hold other clients with something left to wait for |
| RateLimit.Limiter.FindEntry | Sources/CAvian/avian_ratelimit.c:146-172 | the two probe loops find the client's entry, an empty one or an idle one, in that order |
| RateLimit.Limiter.CheckNow | Sources/CAvian/avian_ratelimit.c:174-187 | a check changes one entry at most, and waits and charges as the specification that `RateLimitLog.RefusedExactly` is about |
| QuicRanges.CanonicalUnique | Sources/AvianQUIC/QUICStream.swift:24-36 | a set of offsets has one list of ascending ranges that do not touch |
| QuicRanges.ByteRanges.FirstIndex | Sources/AvianQUIC/QUICStream.swift:38-47 | the binary search splits the list exactly at the offset, touching or not |
| QuicRanges.ByteRanges.Add | Sources/AvianQUIC/QUICStream.swift:49-70 | adding a range is set union and keeps the list canonical, empty ranges included |
| QuicRanges.ByteRanges.Subtract | Sources/AvianQUIC/QUICStream.swift:85-107 | subtracting a range is set difference and keeps the list canonical |
| QuicRanges.ByteRanges.ContiguousEnd | Sources/AvianQUIC/QUICStream.swift:73-76 | everything from the base to the result is in the set, and the run is maximal except exactly when the base lies in a range behind the first |
| QuicSend.WriteKeeps | Sources/AvianQUIC/QUICStream.swift:294-297 | writing keeps what the send side holds equal to the unacknowledged suffix of all that was written |
| QuicSend.AcknowledgeKeeps | Sources/AvianQUIC/QUICStream.swift:306-319 | acknowledging keeps it too, never moves the base back and drops only an acknowledged prefix |
| QuicSend.DeclareLostKeeps | Sources/AvianQUIC/QUICStream.swift:321-341 | what is declared lost stays disjoint from what is acknowledged and inside [base, sent) |
| QuicSend.SentKeeps | Sources/AvianQUIC/QUICSend.swift:494-561 | putting a frame in a packet keeps the same invariant |
| QuicSend.SliceNeverFails | Sources/AvianQUIC/QUICStream.swift:299-304 | any stretch from the base on can be read back exactly as written |
| QuicSend.FrameIs | Sources/AvianQUIC/QUICSend.swift:494-561 | if anything is owed there is a frame exactly when there is room, it starts at the least owed offset and takes the run there to its end or to the room; if nothing is owed there is one exactly when there is room and either new bytes within window and credit or an end to send alone, it carries as many new bytes as there are and all three allow, and marks the end exactly at the last byte |
| QuicSend.CryptoIs | Sources/AvianQUIC/QUICSend.swift:310-351 | the same for the handshake, which has no limits and no end |
| QuicSend.SendStream.Append | Sources/AvianQUIC/QUICStream.swift:294-297 | the buffer grows by exactly the bytes written |
| QuicSend.SendStream.SliceAt | Sources/AvianQUIC/QUICStream.swift:299-304 | returns the bytes written at an offset exactly when they are still held, and nothing otherwise |
| QuicSend.SendStream.OnAcknowledged | Sources/AvianQUIC/QUICStream.swift:306-319 | ranges, base and buffer become what the set specification says |
| QuicSend.SendStream.OnDeclaredLost | Sources/AvianQUIC/QUICStream.swift:321-341 | the walk over acknowledged ranges adds exactly the unacknowledged part above the base |
| QuicSend.SendStream.WriteOne | Sources/AvianQUIC/QUICSend.swift:494-561 | lays down exactly that frame, with the bytes the application wrote there, and records it; lays down none exactly when there is none |
| QuicSpace.PacketSpace.Record | Sources/AvianQUIC/QUICLoss.swift:98-105 | a packet is added behind the ones that are out, in number and time order |
| QuicSpace.PacketSpace.EndOfPackets | Sources/AvianQUIC/QUICLoss.swift:108-116 | the binary search finds one past the last packet up to a number |
| QuicSpace.PacketSpace.AdvanceHead | Sources/AvianQUIC/QUICLoss.swift:119-137 | moving the head, with or without compaction, leaves exactly the packets from an index on |
| QuicSpace.PacketSpace.TakeAcked | Sources/AvianQUIC/QUICLoss.swift:296-322 | the downward packing pass returns exactly the packets whose number is at most the largest and in some range, and packs the rest, both in order, as filters would |
| QuicSpace.PacketSpace.TakeLost | Sources/AvianQUIC/QUICLoss.swift:344-376 | the second pass does the same for lost packets and finds when the next one ages out |
| QuicSpace.OnAckNear | Sources/AvianQUIC/QUICLoss.swift:277-382 | packets beyond the highest number acknowledged need no look: the outcome is the filter of the whole list |
| QuicSpace.HandleAck | Sources/AvianQUIC/QUICLoss.swift:277-382 | the in-place processing of an ACK leaves the space, the round-trip and congestion state, the acknowledged and the lost packets that filtering the whole list gives; a packet that was out is acknowledged if and only if its number is at most the largest and some range holds it |
| QuicSpace.ExpiredPrefix | Sources/AvianQUIC/QUICSend.swift:823-852 | in number and time order, scanning up to the first packet that is neither old nor far behind finds exactly the packets a filter would |
| QuicSpace.HandleLossTimer | Sources/AvianQUIC/QUICSend.swift:823-852 | the timer's prefix scan gives the outcome of the filter |
| QuicSpace.Abandon | Sources/AvianQUIC/QUICLoss.swift:386-396 | abandoning a space takes every packet out of flight and off the counters |
| QuicSpace.RecoveryState.OnPacketsAcked | Sources/AvianQUIC/QUICLoss.swift:225-238 | the loop over acknowledged packets is the fold that opens the window and takes bytes out of flight |
| QuicSpace.RecoveryState.OnPacketsLost | Sources/AvianQUIC/QUICLoss.swift:240-253 | one reduction per loss episode, never below two datagrams, and every lost byte out of flight |
| QuicLossRules.InRangesIsInSome | Sources/AvianQUIC/QUICLoss.swift:305-310 | the scan of ranges says whether some range holds the number |
| QuicLossRules.LostExactly | Sources/AvianQUIC/QUICLoss.swift:344-377 | an ACK that acknowledges anything loses exactly the packets out that it does not name, that are below the highest number acknowledged, and that are three behind it or one loss delay old, either alone being enough; all others stay out |
| QuicLossRules.NothingNamed | Sources/AvianQUIC/QUICLoss.swift:319-321 | an ACK that names no packet out changes nothing |
| QuicLossRules.TimerLoses | Sources/AvianQUIC/QUICSend.swift:823-852 | the timer loses exactly the packets that are one loss delay old or three behind |
| QuicLossRules.TimerIsSet | Sources/AvianQUIC/QUICLoss.swift:350-377 | the time the loss timer is set for is that at which the first packet left below the highest number acknowledged grows old, and 0 if there is none |
| QuicLossRules.DelayIs | Sources/AvianQUIC/QUICLoss.swift:210-215 | the loss delay is nine eighths of the larger of last and smoothed round trip, rounded down, and at least one millisecond |
| QuicLossRules.LossHalves | Sources/AvianQUIC/QUICLoss.swift:240-253 | a loss of a packet sent since recovery began leaves the larger of half the window and two datagrams, any other leaves the window alone |
| QuicLossRules.SlowStartDoubles | Sources/AvianQUIC/QUICLoss.swift:225-238 | below the threshold, acknowledging a whole window doubles it |
| QuicLossRules.AvoidanceIsSlow | Sources/AvianQUIC/QUICLoss.swift:225-238 | past it, acknowledging a whole window opens it by at most one datagram |
| QuicLossRules.AvoidanceGrows | Sources/AvianQUIC/QUICLoss.swift:231-235 | and a packet large enough for its share does open it |
| QuicLossRules.EstimateIsBetween | Sources/AvianQUIC/QUICLoss.swift:187-208 | over any run of samples the least round trip kept is the least sampled, and the smoothed one lies between it and another sample |
| QuicLossRules.EstimateCloses | Sources/AvianQUIC/QUICLoss.swift:187-208 | each sample brings the smoothed round trip an eighth of the way to it, and the variance a quarter of the way to the distance |
| QuicDeliveryTheorem.StepInv | Sources/AvianQUIC/QUICConnection.swift:1102-1211 | every step of the sending half, from opening a stream to discarding a level, keeps the whole invariant |
| QuicDeliveryTheorem.ReachInv | Sources/AvianQUIC/QUICConnection.swift:1102-1211 | so every reachable state has it |
| QuicDeliveryTheorem.NoByteForgotten | Sources/AvianQUIC/QUICConnection.swift:1139-1194 | in every reachable state every byte of a live stream that has been in a packet is acknowledged, owed again, or carried by a packet still out |
| QuicDeliveryTheorem.OwedCanBeSent | Sources/AvianQUIC/QUICStream.swift:299-341 | what is owed lies in [base, sent), is not acknowledged, and any stretch of it reads back as written, so a retransmission never fails |
| QuicDeliveryTheorem.WireIsTruthful | Sources/AvianQUIC/QUICSend.swift:494-561 | every frame ever sent, first time or again, carried exactly the bytes written from its low to its high offset, all of them |
| QuicDeliveryTheorem.PacketsAreOnTheWire | Sources/AvianQUIC/QUICSend.swift:494-561 | every frame recorded for a packet still out went out with that stream, those offsets and that end mark, carrying the bytes written there |
| QuicDeliveryTheorem.CountersAreSums | Sources/AvianQUIC/QUICLoss.swift:182-253 | bytes in flight and ack-eliciting counts always equal the sums over the packets out, which are in number and time order; the window is never below two datagrams |
| QuicDeliveryTheorem.SendLedger | Sources/AvianQUIC/QUICSend.swift:520-557 | what all streams ever opened have sent adds up to the connection's count, within the peer's limit, and no stream passes its own |
| QuicDeliveryAcks.AckAcknowledges | Sources/AvianQUIC/QUICConnection.swift:1139-1155 | once an ACK is taken a byte of a live stream counts as acknowledged exactly if it did before or a packet then out that the ACK names carries it |
| QuicDeliveryAcks.AcknowledgedExactly | Sources/AvianQUIC/QUICConnection.swift:1139-1155 | in every reachable state, of every live stream: a byte counts as acknowledged if and only if some ACK that arrived named a packet then out which carried it |
| QuicDeliveryAcks.AcknowledgedWasSent | Sources/AvianQUIC/QUICLoss.swift:296-322 | so it was carried by a packet that an earlier step sent and whose number a later ACK of its level named |
| QuicDeliveryDone.AckOwes | Sources/AvianQUIC/QUICConnection.swift:1139-1177 | after an ACK a byte is owed exactly if it was owed or a packet then declared lost carried it, and it is not acknowledged |
| QuicDeliveryDone.TimerOwes | Sources/AvianQUIC/QUICSend.swift:763-798 | the same after the loss timer |
| QuicDeliveryDone.ProbeOwes | Sources/AvianQUIC/QUICSend.swift:777-784 | a probe of the handshake owes all of it that was sent and is not acknowledged |
| QuicDeliveryDrain.OwedGoesOut | Sources/AvianQUIC/QUICSend.swift:494-561 | from every reachable state, as many packets with room for a stream as it owes bytes leave it owing none, each byte it ever sent being acknowledged or in a packet still out |
| QuicDeliveryDone.AllGoesOut | Sources/AvianQUIC/QUICSend.swift:494-561 | with limits that allow it, as many packets as a stream has bytes to send or to send again, and one for its end, leave nothing to send |
| QuicDeliveryDone.AllAcknowledged | Sources/AvianQUIC/QUICConnection.swift:1139-1155 | an ACK of every packet out then acknowledges every byte ever written and the end, and nothing is held any longer |
| QuicDeliveryDone.CallsMakeReady | Sources/AvianQUIC/QUICConnection.swift:940-946 | a stream opened, written, ended and given the limits it needs holds exactly what was written and may all go |
| QuicDeliveryDone.DiscardEmpties | Sources/AvianQUIC/QUICConnection.swift:1102-1116 | a level given up has no packet out and no stream, its packets no longer count against the window, and every other stream is as it was |
| QuicDeliveryAcks.CarryingCounts | Sources/AvianQUIC/QUICSend.swift:147-160 | in every reachable state every packet out that carries anything asks to be acknowledged and counts against the window |
| QuicDeliveryEnd.EndIsNotForgotten | Sources/AvianQUIC/QUICConnection.swift:1139-1194 | once any frame with the end of a live stream has gone out, the end is acknowledged, queued to go out again, or marked in a packet still out |
| QuicDeliveryEnd.EndIsLastByte | Sources/AvianQUIC/QUICSend.swift:494-561 | every frame that marks the end of a stream marks it at the last byte ever written, if and only if nothing was written to the stream past an end that had gone out |
| QuicDeliveryEnd.KeepsToItsEnd | Sources/AvianQUIC/QUICConnection.swift:940-946 | a caller that writes nothing after it has said the stream ends meets that condition |
| QuicDeliveryEnd.EndToEnd | Sources/AvianQUIC/QUICStream.swift:158-341 | under that condition, any of the frames of a stream, in any order and number, handed to a receiver make ready a prefix of what the application wrote; the receiver takes the stream for finished exactly when the end and every byte before it were accepted, and then has all of it |
| QuicDeliveryEnd.FinishedTooSoon | Sources/AvianQUIC/QUICConnection.swift:940-946 | a run in which a byte is written past the end, and the receiver is finished without it |
| QuicReceive.ReceiveStream.Accept | Sources/AvianQUIC/QUICStream.swift:158-191 | a fragment is judged by flow control and final size as specified; if refused nothing changes, else what is held, received, made ready and kept early is what the map specification says |
| QuicReceive.InsertEarly | Sources/AvianQUIC/QUICStream.swift:193-230 | an early fragment fills exactly the gaps between the pieces kept, which stay sorted, disjoint and non-empty |
| QuicReceive.ReceiveStream.DrainEarly | Sources/AvianQUIC/QUICStream.swift:232-245 | pieces that became contiguous move to `ready` and nothing kept is at or below what was received |
| QuicReceive.OnlyFlowControl | Sources/AvianQUIC/QUICStream.swift:158-173 | a fragment of the stream is refused for flow control or not at all |
| QuicReceive.StepOk | Sources/AvianQUIC/QUICStream.swift:158-191 | each arrival adds exactly its offsets, keeps every byte as the stream has it, and never changes a final size once known |
| QuicReceive.Reassembly | Sources/AvianQUIC/QUICStream.swift:158-249 | for any order, overlap and duplication of fragments of one stream, what is held is the stream at the offsets that arrived and what is received is its longest contiguous prefix |
| QuicReceive.FinishedWhenWhole | Sources/AvianQUIC/QUICStream.swift:158-249 | over any such run a stream is finished exactly when a fragment with its end and every byte before that have been accepted |
| QuicReceive.ReadyIsThePrefix | Sources/AvianQUIC/QUICStream.swift:232-249 | the bytes made ready are exactly that prefix, the whole stream once the final size is reached |
| QuicReceive.EarlyIsBounded | Sources/AvianQUIC/QUICStream.swift:193-245 | what is kept early is below the window left exactly when there is any window left, and nothing is kept when there is none |
| QuicReceive.NoWindowNoBound | Sources/AvianQUIC/QUICStream.swift:158-245 | any stream whose first fragment fills its window has made all of it ready and keeps nothing early, which is not below the nothing left |
| QuicReceiveSizes.RefusedExactly | Sources/AvianQUIC/QUICStream.swift:158-173 | over every run of any fragments, honest or not: the next is refused for flow control exactly if it ends past the limit, and accepted exactly if it does not and some size of the stream agrees with it and with all accepted before |
| QuicReceiveSizes.AcceptedAgree | Sources/AvianQUIC/QUICStream.swift:158-191 | what was accepted agrees on one size, is within the limit, and fixes the final size once |
| QuicReceiveSizes.LimitIsGranted | Sources/AvianQUIC/QUICConnection.swift:984-993 | the limit is the largest ever granted |
| QuicCredit.IdParts | Sources/AvianQUIC/QUICFrame.swift:123-135 | index, initiator and direction can be read back from an identifier |
| QuicCredit.PartsId | Sources/AvianQUIC/QUICFrame.swift:123-135 | and determine it |
| QuicCredit.ReachInv | Sources/AvianQUIC/QUICConnection.swift:674-1000 | over every run of stream and reset frames, openings, retirements and window extensions: streams are named once, opened, live and retired ones add up, and the byte ledger holds |
| QuicCredit.ReceiveLedger | Sources/AvianQUIC/QUICConnection.swift:674-773 | the marks of all streams add up to at most what was counted, which is within the limit, and to exactly that until an error closes; live peer streams of each kind never exceed the configured number |
| QuicCredit.Connection.FindOrOpen | Sources/AvianQUIC/QUICConnection.swift:873-904 | the stream of an identifier is found, or opened along with all of its kind before it |
| QuicCredit.Connection.HandleStream | Sources/AvianQUIC/QUICConnection.swift:674-739 | a stream frame is charged, refused or accepted as specified, the handler says so exactly when it was accepted, and the ledger holds |
| QuicCredit.Connection.HandleReset | Sources/AvianQUIC/QUICConnection.swift:741-773 | so for a reset with its final size, which also finishes the stream |
| QuicCredit.ReachFinished | Sources/AvianQUIC/QUICConnection.swift:722-770 | over every run a finished live stream has a final size, and one all of which has been received is finished |
| QuicCreditRun.ReachPlaced | Sources/AvianQUIC/QUICConnection.swift:873-924 | over every run the streams started are those below the counts, each live or retired and not both |
| QuicCreditRun.AcceptedExactly | Sources/AvianQUIC/QUICConnection.swift:674-739 | over every run until an error: a stream frame is accepted if and only if the stream is one the peer was allowed, counting one more for each retired, it has not retired itself, the marks of all streams grown by it stay within the limit, and the stream accepts it |
| QuicCreditRun.ResetExactly | Sources/AvianQUIC/QUICConnection.swift:741-773 | the same for a reset, whose size must not be below what arrived nor differ from one known |
| QuicCreditRun.StreamTaken | Sources/AvianQUIC/QUICConnection.swift:674-739 | an accepted frame is taken in and counted, one on a retired stream is passed over, any other closes the connection |
| QuicCreditRun.StreamHoldsItsFrames | Sources/AvianQUIC/QUICConnection.swift:674-739 | over every run of the connection a live stream not cut off is what its own accepted frames and limits make of it, whatever befell the others; so it has received the longest prefix that arrived |
| QuicCreditRun.ExtensionLeavesHalf | Sources/AvianQUIC/QUICConnection.swift:984-1000 | after an extension at least half of either window is left, and no limit is lowered or raised further than that needs |
| QuicVarint.VarintRoundTrip | Sources/AvianQUIC/Varint.swift:19-56 | a value comes back, with what follows it, exactly when it has at most 62 bits |
| QuicVarint.VarintBounded | Sources/AvianQUIC/Varint.swift:124-137 | whatever is read has 62 bits and takes at least one byte from the front |
| QuicVarint.AnyWidthIsRead | Sources/AvianQUIC/Varint.swift:61-137 | a value is read from any of the four widths that hold it, not only the least |
| QuicVarint.ReadIsEncoded | Sources/AvianQUIC/Varint.swift:124-137 | and whatever is read was a value in the width its first bits say |
| QuicVarint.Reader.Next | Sources/AvianQUIC/Varint.swift:124-137 | the cursor moves past exactly the bytes of the value, or not at all |
| QuicAck.DescendingUnique | Sources/AvianQUIC/QUICFrame.swift:143-153 | one set of packet numbers, one list of ranges |
| QuicAck.InsertAdds | Sources/AvianQUIC/QUICFrame.swift:155-182 | inserting a number is set insertion and keeps ranges descending and not adjacent |
| QuicAck.AddIsInsertion | Sources/AvianQUIC/QUICFrame.swift:155-182 | so is adding, except that beyond 32 ranges exactly the 32 highest stay |
| QuicAck.WithoutRemoves | Sources/AvianQUIC/QUICFrame.swift:186-194 | removing up to a number is set difference |
| QuicAck.AckRanges.Add | Sources/AvianQUIC/QUICFrame.swift:155-182 | the scan with its in-place widening and merging is that insertion |
| QuicAck.AckRanges.RemoveUpTo | Sources/AvianQUIC/QUICFrame.swift:186-194 | the loop from the back is that removal |
| QuicAckFrame.FrameRoundTrip | Sources/AvianQUIC/QUICFrame.swift:201-276 | reading a written frame, with or without congestion counts, gives back its ranges and delay and stops at its end |
| QuicAckFrame.AckFrameRoundTrip | Sources/AvianQUIC/QUICFrame.swift:201-276 | the same in QUIC's own integers, and the size said for a frame without congestion counts is the size written |
| QuicAckFrame.AcceptedAckDescends | Sources/AvianQUIC/QUICFrame.swift:247-276 | the ranges of any bytes accepted with those integers descend, never touch and never wrap |
| QuicAckFrame.SizeIsExact | Sources/AvianQUIC/QUICFrame.swift:229-241 | the size of a frame without congestion counts is its written length |
| QuicAckFrame.AcceptedDescends | Sources/AvianQUIC/QUICFrame.swift:247-276 | any accepted bytes yield strictly descending, non-adjacent ranges that never wrap |
| QuicAckFrame.VarintIsFaithful | Sources/AvianQUIC/Varint.swift:19-56 | the integers of QUIC are a codec the frame proofs apply to |
| QuicAckFrame.WriteGaps | Sources/AvianQUIC/QUICFrame.swift:210-219 | the writing loop lays down every gap and length |
| QuicAckFrame.LoopGaps | Sources/AvianQUIC/QUICFrame.swift:257-271 | the reading loop accepts and refuses exactly what the specification does |
| QuicNumber.DecodeExactly | Sources/AvianQUIC/QUICPacket.swift:260-274 | a truncated packet number decodes to the number exactly when it lies within half a window of what is expected, or past either end where the window cannot move |
| QuicNumber.Unambiguous | Sources/AvianQUIC/QUICPacket.swift:244-274 | a length picked from the largest acknowledged number is always enough for a receiver that is not behind it nor too far ahead |
| HpackTable.EvictIsSuffix | Sources/AvianHTTP/HPACK.swift:365-376 | eviction drops the oldest entries, as many as needed and no more |
| HpackTable.TableHoldsTheNewest | Sources/AvianHTTP/HPACK.swift:353-410 | over any run of inserts and size changes the table is an unbroken run of the newest fields stored, within its size |
| HpackTable.TableHoldsAllThatFit | Sources/AvianHTTP/HPACK.swift:396-410 | over any run of fields that each fit, the table holds as many of the newest as it has room for: one more would be too many |
| HpackTable.IndexNamesTheNewest | Sources/AvianHTTP/HPACK.swift:416-424 | dynamic index k names the k-th newest field ever stored, byte for byte, or none because it was evicted |
| HpackTable.DynamicTable.EvictToFit | Sources/AvianHTTP/HPACK.swift:365-376 | the loop over the arena's entries is that eviction, and the size stays the sum of costs |
| HpackTable.DynamicTable.SetMaxSize | Sources/AvianHTTP/HPACK.swift:358-361 | a smaller size evicts to fit it |
| HpackTable.DynamicTable.SetPermittedMaxSize | Sources/AvianHTTP/HPACK.swift:353-356 | a lower ceiling lowers the size in use, and only then evicts |
| HpackTable.DynamicTable.CompactArenaIfNeeded | Sources/AvianHTTP/HPACK.swift:378-394 | moving the live bytes changes no entry's name or value |
| HpackTable.DynamicTable.Insert | Sources/AvianHTTP/HPACK.swift:396-410 | an entry that does not fit empties the table; any other goes in after the evictions it needs |
| HpackTable.DynamicTable.EntryAt | Sources/AvianHTTP/HPACK.swift:416-424 | an index finds its entry's bytes in the arena, or is refused |
| HpackInteger.IntegerRoundTrip | Sources/AvianHTTP/HPACK.swift:276-311 | a written integer is read back, at any place in a block, exactly when what its prefix does not hold is below 2^28, and refused otherwise |
| HpackInteger.TooLongToRead | Sources/AvianHTTP/HPACK.swift:276-311 | one that is written and refused |
| HpackInteger.WriteLoop | Sources/AvianHTTP/HPACK.swift:297-311 | the writing loop is that encoding |
| HpackInteger.ReadLoop | Sources/AvianHTTP/HPACK.swift:276-295 | the reading loop is that decoding, errors included |
| Huffman.DecodeInvertsEncode | Sources/AvianHTTP/HPACK.swift:187-269 | for any proper table of code lengths and all byte strings: decoding x succeeds with s if and only if x is the encoding of s |
| Huffman.EncodedDecodes | Sources/AvianHTTP/HPACK.swift:187-269 | every string is decoded from its encoding |
| Huffman.DecodedEncodes | Sources/AvianHTTP/HPACK.swift:187-228 | nothing but the encoding of a string decodes to it: padding must be ones, fewer than eight, and EOS is refused |
| Huffman.EncodedLength | Sources/AvianHTTP/HPACK.swift:231-241 | the length is exact |
| HuffmanCodec.BuildTables | Sources/AvianHTTP/HPACK.swift:136-163 | counts, first codes, first indices and symbols are those of the canonical code |
| HuffmanCodec.CountLengths | Sources/AvianHTTP/HPACK.swift:137-139 | how many codes there are of each length |
| HuffmanCodec.FirstOfLengths | Sources/AvianHTTP/HPACK.swift:141-152 | the running first codes and indices in 32-bit words are those of the canonical code |
| HuffmanCodec.PlaceSymbols | Sources/AvianHTTP/HPACK.swift:154-160 | every symbol stands in the slot its code leads to |
| HuffmanCodec.Lookup | Sources/AvianHTTP/HPACK.swift:206-210 | the subtraction in 32 bits, which wraps for a code below the first of its length, finds the symbol of a complete code and nothing else |
| HuffmanCodec.DecodeLoop | Sources/AvianHTTP/HPACK.swift:187-228 | the bit loop through the tables is the decoding the bijection is about |
| HuffmanCodec.EncodeLoop | Sources/AvianHTTP/HPACK.swift:243-269 | the accumulator loop for encoding, given canonical codes, is the encoding the bijection is about |
| HuffmanCodec.HpackEncode | Sources/AvianHTTP/HPACK.swift:243-269 | so with the lengths and codes HPACK commits to, with nothing assumed of them |
| HuffmanTable.LengthsAreProper | Sources/AvianHTTP/HPACKTables.swift:62-80 | HPACK's code lengths are a complete code from 5 to 30 bits in which EOS is all ones |
| HuffmanCodes.CodesAreCanonical | Sources/AvianHTTP/HPACKTables.swift:15-59 | every committed code is the canonical code of its symbol under the committed lengths, which is what `tablesAreCanonical` tests at start-up |
| HuffmanCodes.HpackDecodeInvertsEncode | Sources/AvianHTTP/HPACK.swift:187-269 | the bijection with HPACK's own table |
| LoopExecutor.Ring.constructor | Sources/AvianCore/LoopExecutor.swift:78-83 | the ring starts empty with room for a power of two that is enough, half of which is not |
| LoopExecutor.Ring.Push | Sources/AvianCore/LoopExecutor.swift:192-197 | a job goes behind all others, growing the ring when it is full |
| LoopExecutor.Ring.Pop | Sources/AvianCore/LoopExecutor.swift:157-160 | the oldest job comes out and the others stay in order |
| LoopExecutor.Ring.Grow | Sources/AvianCore/LoopExecutor.swift:225-234 | twice the room, the same jobs in the same order |
| LoopHandOver.ReachInv | Sources/AvianCore/LoopExecutor.swift:110-221 | what every interleaving of pushes, hand-overs, budgeted drains, wake bytes and clears keeps |
| LoopHandOver.NothingIsLost | Sources/AvianCore/LoopExecutor.swift:110-221 | each job has run or is still queued, exactly once, the owner's in push order and the others' in hand-over order |
| LoopHandOver.RunsInOrder | Sources/AvianCore/LoopExecutor.swift:145-170 | what has run is the first so many of each, none twice |
| LoopHandOver.TheLoopIsWoken | Sources/AvianCore/LoopExecutor.swift:182-221 | once a drain has said nothing is left and until the pipe is cleared, a job left by another thread has a wake byte in the pipe or a thread about to write one |
| LoopHandOver.DrainsKeepToTheirBudget | Sources/AvianCore/LoopExecutor.swift:145-170 | in every interleaving each drain that has returned ran at most its budget, ran less only if it left the ring empty, and answered that there is work whenever it left a job there |
| LoopHandOver.QuietOnlyWhenDone | Sources/AvianCore/LoopExecutor.swift:145-170 | a drain that returns says nothing is left only with the ring empty and the flag down; one that stops with work on the ring does not make the loop quiet |
| LoopProgress.DrainReturns | Sources/AvianCore/LoopExecutor.swift:145-221 | from every reachable state with the lock free: an uninterrupted drain returns, having run as many jobs as it is allowed or as there are, those that waited longest, in order, and says exactly whether any still wait |
| LoopProgress.EnoughRunsAll | Sources/AvianCore/LoopExecutor.swift:145-221 | so one allowed enough leaves nothing: every job ever pushed or handed over has run, once and in order |
| LoopProgress.HandOverWakes | Sources/AvianCore/LoopExecutor.swift:199-210 | an uninterrupted hand-over leaves its job behind all others, raises the flag, and writes a wake byte if the list was empty |
| LoopProgress.PushWaits | Sources/AvianCore/LoopExecutor.swift:192-196 | a push is counted and its job waits behind those on the ring |
| LoopProgress.WakeIsCleared | Sources/AvianCore/LoopExecutor.swift:182-189 | clearing the wake pipe empties it and touches no job |
| Chunked.Resumes | Sources/AvianHTTP/ChunkedDecoder.swift:54-161 | decoding two reads in turn is decoding them joined: outcome, decoder, body and bytes consumed |
| Chunked.SegmentationIsIgnored | Sources/AvianHTTP/ChunkedDecoder.swift:54-161 | so for every input and every split into any number of reads |
| ChunkedLoop.ChunkedDecoder.Decode | Sources/AvianHTTP/ChunkedDecoder.swift:54-161 | the resumable loop, which takes runs of data, extensions and trailer fields at a time, gives the outcome, body and state of the automaton that takes one byte at a time; on failure it leaves the count alone |
| ChunkedLoop.ChunkedDecoder.TakeByte | Sources/AvianHTTP/ChunkedDecoder.swift:63-113 | the states that take one byte |
| Chunked.DataRun | Sources/AvianHTTP/ChunkedDecoder.swift:95-104 | a run of body bytes is as many single ones |
| Chunked.ExtRun | Sources/AvianHTTP/ChunkedDecoder.swift:84-87 | a run of an extension likewise |
| ChunkedLoop.FieldTaken | Sources/AvianHTTP/ChunkedDecoder.swift:130-145 | a run of a trailer field likewise, over the limit exactly when some byte of it is |
| ChunkedLoop.ChunkedDecoder.TakeData | Sources/AvianHTTP/ChunkedDecoder.swift:95-104 | as much is taken as the read has or the chunk has left, and no less |
| ChunkedLoop.ChunkedDecoder.SkipExtension | Sources/AvianHTTP/ChunkedDecoder.swift:84-87 | an extension is skipped up to its line end or the end of the read, as the automaton would |
| ChunkedLoop.ChunkedDecoder.SkipField | Sources/AvianHTTP/ChunkedDecoder.swift:130-145 | a trailer field is skipped up to the first byte that ends it, counted, and refused exactly past the limit |
| ChunkedLoop.FindByte | Sources/AvianCore/Bytes.swift:121-126 | the first place of a byte, or none |
| ChunkedWriter.WriteHex | Sources/AvianCore/ByteBuffer.swift:203-226 | sixteen places hold any size, and the digits come out most significant first |
| ChunkedWriter.HexIs | Sources/AvianCore/Bytes.swift:222-229 | reading the digits of a size gives the size |
| ChunkedWriter.WriterRoundTrip | Sources/AvianHTTP/HTTPResponse.swift:137-149 | framed chunks decode to their concatenation, consuming exactly the framing whatever follows it, if and only if none is empty and each size has at most fifteen digits |
| ChunkedWriter.WriterRoundTripInReads | Sources/AvianHTTP/HTTPResponse.swift:137-149 | the same over any split into reads |
| ChunkedWriter.EmptyChunkEnds | Sources/AvianHTTP/HTTPResponse.swift:137-149 | a body that starts with an empty chunk is taken to end there, with the rest unread |
| ChunkedWriter.RunKeeps | Sources/AvianHTTP/ChunkedDecoder.swift:61-113 | a size never leaves 60 bits, the decoded count is the length of the body, and a read that wants more has consumed all of itself |
| ChunkedWriter.TrailersAreBounded | Sources/AvianHTTP/ChunkedDecoder.swift:115-156 | after the last chunk at most the trailer limit and two bytes are consumed, and no body comes out |
| ChunkedGrammar.DecodesExactly | Sources/AvianHTTP/ChunkedDecoder.swift:54-161 | the decoder finishes on an input if and only if it begins with a chunked body, extensions and trailers included, and then takes exactly that much and hands on the data of its chunks |
| ChunkedGrammar.BodyIsDecoded | Sources/AvianHTTP/ChunkedDecoder.swift:54-161 | every body of the grammar whose trailers are within the limit is decoded, whatever follows it |
| ChunkedGrammar.HexValueIs | Sources/AvianCore/Bytes.swift:222-229 | sixteen digits, letters in either case, and no other byte |
| CivilTime.DateOfDays | Sources/AvianCore/CivilTime.swift:17-38 | every date of the proleptic Gregorian calendar comes back from its day number |
| CivilTime.DaysOfDate | Sources/AvianCore/CivilTime.swift:17-46 | every integer comes back from its date, which exists |
| DecimalText.DigitsLoop | Sources/AvianCore/CivilTime.swift:125-134 | the digit loop reads what the specification reads and leaves the cursor behind it |
| CivilText.SplitIs | Sources/AvianCore/CivilTime.swift:61-67 | day and time of day, from a division that rounds toward zero, add up to the instant |
| CivilText.Trim | Sources/AvianCore/CivilTime.swift:90-96 | dropping the zeros of a fraction never needs a look at the width |
| CivilText.FractionLoop | Sources/AvianCore/CivilTime.swift:160-170 | the fraction loop adds up its digits at their places |
| CivilTextProof.FractionRead | Sources/AvianCore/CivilTime.swift:160-170 | a fraction is read back from what is left of it |
| CivilTextProof.FormatRoundTrip | Sources/AvianCore/CivilTime.swift:61-203 | of any integer instant, in all three layouts, date and time of day are read back from the text exactly when the year is printed in at most six digits, and the text is refused otherwise |
| CivilTextWords.DaysInOrder | Sources/AvianCore/CivilTime.swift:17-26 | days follow each other as dates do |
| CivilTextWords.StampSmall | Sources/AvianCore/CivilTime.swift:121-202 | whatever text is read, year and clock stay small, so only the last product and sum can overflow |
| CivilTextWords.TrapsExactly | Sources/AvianCore/CivilTime.swift:121-203 | reading stops the program exactly on the texts of a date before -290308-12-22 or after 294247-01-10, or near enough to either that the clock leaves 64 bits |
| CivilTextWords.ParseOfFormat | Sources/AvianCore/CivilTime.swift:61-203 | for every integer: its text is refused if the year takes seven digits, stops the program if day or instant leave 64 bits on the way, and gives the instant otherwise |
| CivilTextWords.WordRoundTrip | Sources/AvianCore/CivilTime.swift:61-203 | a 64-bit instant is read back if and only if it is not before the first midnight in range; there reading stops the program |
| CivilTextWords.FirstWordTraps | Sources/AvianCore/CivilTime.swift:200-202 | the first 64-bit instant is one of those |
| CivilTextGrammar.ReadsExactly | Sources/AvianCore/CivilTime.swift:121-202 | a text is read as a certain date and time in UTC if and only if it has the documented form, in any of its variants of sign, separator, fraction, offset and era, and means that: its clock less what its offset is ahead, a fraction counting its first six digits |
| CivilTextGrammar.FormIsRead | Sources/AvianCore/CivilTime.swift:121-202 | every text of the form is read as what it means, and refused exactly if it means no date, no time of day, no offset or no era |
| CivilTextGrammar.FractionIs | Sources/AvianCore/CivilTime.swift:160-170 | a fraction of any length counts its first six digits, with zeros for those missing |
| HttpDate.DateRoundTrip | Sources/AvianHTTP/ResponseCachePolicy.swift:489-587 | a second is read back from the date written for it if and only if its year is 0 to 9999 |
| HttpDate.YearTenThousand | Sources/CAvian/avian_sys.c:822-826 | the first second of year 10000 is not read back |
| HttpDateForms.AsctimeIsRead | Sources/AvianHTTP/ResponseCachePolicy.swift:510-516 | a second is read from its date as asctime prints it, the day with a blank or a zero, whatever the name of the weekday, if its year is 0 to 9999 |
| HttpDateForms.Rfc850RoundTrip | Sources/AvianHTTP/ResponseCachePolicy.swift:517-532 | a second is read back from its date with a two-digit year if and only if its year is 1970 to 2069 |
| HttpDateForms.BlanksDropped | Sources/AvianHTTP/ResponseCachePolicy.swift:493-496 | blanks before and after a date of any form do not count |
| HttpDate.FillDate | Sources/CAvian/avian_sys.c:795-835 | the buffer is filled, place by place, with that date |
| HttpDate.WeekGoesRound | Sources/CAvian/avian_sys.c:802-803 | 1970-01-01 is a Thursday and each day is followed by the next of the week, before 1970 as after |
| HttpDate.Trim | Sources/AvianHTTP/ResponseCachePolicy.swift:493-496 | the two loops take off blanks at both ends and nothing else |
| HttpDate.NumberLoop | Sources/AvianHTTP/ResponseCachePolicy.swift:535-545 | a number is read exactly when every byte of it is a digit |

## Left out

- Bus wake-ups (`av_bus_arm`, the `armed` flags and descriptors): a wake is not promised when its writer dies between clearing the flag and writing.
- Order of bytes within one `memcpy`: the model copies in ascending order.
- Cache puts that straddle a flush, the choice among probe slots by rank, and what `av_cache_put` returns: the choice is left open, and the return value only repeats a mark test.
- RateLimit.Limiter.CheckNow: one check is one step, so compare-and-swap races between workers inside a check are not modelled; `key_of` only parses addresses.
- The trimming of a space's own ACK ranges when an ACK of them is acknowledged: `QuicAck.AckRanges.RemoveUpTo` is the operation it calls.
- Frames after RESET_STREAM on the sending side, frames for streams already retired, failed sealing, and probe timeouts beyond declaring handshake bytes lost.
- Pacing and persistent congestion: the first would only add easy members, the second is not in the source.
- Header blocks: `HPACKDecoder.decode` dispatches on the first byte of a representation and calls what is modelled here.
- Waking through a pipe that fails: a working pipe is taken for granted.
- TLS, AEAD, sockets, polling, processes, compression and the HTTP/1 head parser: calls into other libraries or scanners whose claims are per branch.
