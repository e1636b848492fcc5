# Verified model of a Soulseek client

This project models the hand-written algorithms and protocols of a Soulseek client written in Rust and proves what they
promise. It covers seven parts:

- the zlib/DEFLATE decoder (RFC 1950, RFC 1951), against a specification-side encoder;
- the edit distance and the ranking of search hits built on it;
- the sliding-window rate limiter for searches, as a concurrent protocol;
- the download manager, as an event-driven scheduler with timers;
- message framing, the message codec and the parser of search responses;
- MD5 (RFC 1321);
- the command queue and the reconnect delay of the server actor.

Code that changes state is modelled by classes with the same fields and by methods with the same branches and loops; each
method is proved to take the step that a function names. The functions carry the theorems. Code that only computes is
modelled by functions. Main results are about all inputs, all runs or all reachable states.

| Files | Part |
|---|---|
| `Arith`, `Collections`, `BitStream` | powers of two, queues as sequences, bits and bytes |
| `Huffman`, `HuffmanComplete`, `HuffmanConverse`, `CanonicalCode` | canonical codes, trees, when a walk can meet a missing child, what a walk says about the bits it took, what the codewords are |
| `InflateSpec`, `DeflateEncoder`, `DeflateTables`, `DeflateHeaders`, `ZlibRoundTrip` | the decoder as functions, the encoder, what can be encoded, the round trip |
| `DeflateAccepts`, `ZlibAccepts` | the converse: everything that is accepted is an encoding |
| `FixedTable` | the fixed codes as RFC 1951 tabulates them, and a stream written out |
| `FixedGaps`, `DataAborts`, `ZlibAborts` | where the decoder aborts |
| `Truncation`, `DeflateErrors` | input that is cut off, and which error is reported where |
| `Zlib` | the decoder as it is written |
| `EditDistance`, `Ranker`, `ScoreParts` | edit scripts, the one-row table, scores and ranking, what each part of a score is worth |
| `RateLimiter`, `PromptWakeup` | the lock-held sections and the transition system over them, when a waiter wakes up on time |
| `DownloadSpec`, `DownloadProofs`, `DownloadLimits`, `DownloadExamples`, `DownloadManager` | the steps, the invariants, what the limits guarantee, runs that go wrong, the methods |
| `DownloadLaws`, `DownloadOrder`, `DownloadSlots`, `DownloadStatus` | what owners are told and what is recorded, who starts when and how many, which timers run, status against what was told |
| `Wire`, `Framing`, `SearchSpec`, `SearchAttributes`, `Messages`, `SearchResponse` | layouts, framing, parsing, which code carries which attribute, the classes |
| `Md5Spec`, `Md5`, `Md5Vector` | RFC 1321 with indexed steps, the unrolled program, a digest worked out |
| `ServerSpec`, `ServerActor`, `ServerLaws` | the actor's states and steps, its methods, which keep all commands in order, what its messages carry and when it dials |

## Where the code falls short of what one expects

These are properties that fail, each with the exact condition under which it holds.

- The decoder builds a tree from any code lengths and unwraps a child that is not there, so some streams abort the
  program. This is an outcome of the model (`Panic`, `Abort`). `HuffmanComplete.NeverPanics` gives the exact condition
  for any lengths: wherever a codeword turns to one side, some codeword that agrees with it so far turns to the other.
  If the lengths satisfy the Kraft inequality this means that the coded symbols use up the code space or that there are
  none (`KraftNeverPanics`); without that inequality it does not (`OverfullPanics`: the lengths 1, 1, 1, 2).
  On given bits a walk aborts if and only if they start with a gap of the code: no codeword starts with these bits, but
  one does with the last bit turned over (`HuffmanConverse.PanicsIff`, for any lengths).
- The fixed codes have two gaps: the seven bits that the codewords of 286 and 287 start with, and the four bits that those of
  the distances 30 and 31 start with (`FixedGaps.LengthGapIff`, `DistanceGapIff`). So a fixed block aborts the decoder if and
  only if, behind tokens that decode, the first stands, or a length with its extra bits and then the second
  (`ZlibAborts.FixedPanicsIff`), even where the data ends in the middle of a codeword. For other codes under the Kraft
  inequality, and for the code lengths in a dynamic header, the same holds with their gaps (`DataAborts.DataPanicsIff`,
  `LengthsPanicIff`). The whole decoder aborts on every input that is blocks followed by such a block, all with prefix-free
  codes, and on no input that is not blocks followed by such a block (`ZlibAborts.DeflateAborts`; the bytes 120, 1, 27, 3
  are one, `FourBytesAbort`). The error messages for invalid length, distance and code length symbols are never produced
  (`HuffmanComplete.DecodedInAlphabet`).
- Full work conservation of the download manager fails: when a peer with several active downloads disconnects, one slot
  is filled again and the others stay free (`DownloadExamples.StallExample`). `DownloadLimits.EventBusyIff`: a failure
  is the only event that can do so, and it does exactly if it frees more than one slot while more than one download waits.
- First come, first served fails where work conservation does: a download overtakes others if and only if it is requested
  while a slot is free although others wait (`DownloadOrder.OvertakesIff`, with the run `OvertakingExample`). Along runs
  whose failures free little nobody is overtaken (`NobodyOvertaken`).
- A download that is told its place in the peer's queue while it still waits for a slot here gets a second response timer
  when it starts, and the first one, which nothing can stop any more, times it out early
  (`DownloadOrder.EarlyTimeoutExample`). `TidyIff` gives the exact condition for one event, and `OneTimerAlways` the runs
  in which every known download has one timer at most.
- The partition of the known downloads into pending and active ones rests on fresh tokens and on completions that name no
  pending download. `DownloadLimits.PendingCompletion`, `ReusedToken` and `LateTimeout` say exactly which violations
  break it, and `DownloadExamples` has a run for each.
- Downloads requested before the connection exists are never reported as queued locally; all others are, first of all
  (`DownloadProofs.ToldFirst`, with the run `DownloadExamples.EarlyExample`).
- Losing an established login forgets the credentials, so the actor never dials again; it does only if a login was still
  unanswered (`ServerSpec.ReconnectsIff`, with the runs of `LostLoginExample`). A comment in the code promises a new login
  after every reconnect (soulseek-rs/src/actor/server_actor.rs:632). Dials that fail at once are not counted as attempts
  (`ServerSpec.FailedDialUncounted`).
- The exponential reconnect delay never grows: in every reachable state a tick dials again if and only if this would be
  the first reconnect and the shorter one of the two configured delays has passed (`ServerLaws.ReconnectDelay`). A
  reconnect that fails loses the credentials and is the last one without a new start (`OneReconnect`).
- The rate limiter's timer starts after the lock is released, so a waiter sleeps until the oldest timestamp leaves the
  window plus that scheduling delay (`PromptWakeup.SleepsUntil`). That the front waiter wakes up when the oldest timestamp
  expires is kept by a step if and only if the step does not turn the front waiter away with a delay and without a stored
  permit (`StrictIff`). It holds in every reachable state if and only if the delay or the window is always zero
  (`AlwaysStrictIff`, with the run `LateRun` for every other configuration).
- A message or string of 2^32 bytes or more is counted modulo 2^32 and does not come back (`Framing.SentComesOutIff`,
  `Wire.StringBackIff`).

## Assumptions

- The clock is monotone. One step of a transition system is one lock-held section or one handled message.
- Download manager: tokens are not reused in a run, and a completion does not name a pending download
  (`DownloadSpec.Fair`). Real tokens are 20 bits of the MD5 of the file name (soulseek-rs/src/client/mod.rs:292-293) and
  a completion can name a pending download in two ways: a failure report may fall back to it
  (soulseek-rs/src/client/connected_worker.rs:391), and a transfer request may match it
  (soulseek-rs/src/client/download_manager.rs:219-239) so that its transfer starts without a slot
  (soulseek-rs/src/client/connected_worker.rs:102-125). So both are real hypotheses. The slot cap is proved without them.
- A run starts with a manager that is not logged in, which is how the only caller makes it
  (soulseek-rs/src/client/mod.rs:165-172).
- Rate limiter: at least one task is allowed; with none nobody is ever granted (`RateLimiter.NoTasksNoGrants`).

## Model

| member | source | states |
|---|---|---|
| Huffman.PrefixFree | soulseek-rs/src/utils/zlib.rs:234-256 | for lengths that satisfy the Kraft inequality no codeword of section 3.2.2 of RFC 1951 is a prefix of another |
| Huffman.DecodeCodeword | soulseek-rs/src/utils/zlib.rs:145-177 | in the tree built from such lengths, the codeword of a symbol, wherever it stands and whatever follows, decodes to the symbol and takes exactly its length |
| HuffmanComplete.NeverPanics | soulseek-rs/src/utils/zlib.rs:166-177 | for any code lengths, also oversubscribed ones: decoding never meets a missing child, on any bits, if and only if wherever a codeword turns to one side, some codeword that agrees with it so far turns to the other |
| HuffmanComplete.KraftNeverPanics | soulseek-rs/src/utils/zlib.rs:166-177 | for lengths that satisfy the Kraft inequality, this is so if and only if the coded symbols use up the code space or there are none |
| HuffmanComplete.OverfullPanics | soulseek-rs/src/utils/zlib.rs:234-256 | the lengths 1, 1, 1, 2 over-fill the code space, and decoding meets a missing child |
| HuffmanComplete.BuiltHas | soulseek-rs/src/utils/zlib.rs:145-163 | the tree has exactly the nodes on the way of its codewords, also when codewords collide |
| HuffmanComplete.ReservedCodePanics | soulseek-rs/src/utils/zlib.rs:249-254 | the codeword of an index beyond the alphabet aborts the decoder |
| HuffmanComplete.DecodedInAlphabet | soulseek-rs/src/utils/zlib.rs:212-219 | whatever the lengths, a decoded symbol is in the alphabet, so the checks for invalid symbols never fire |
| HuffmanComplete.CountersFitU32 | soulseek-rs/src/utils/zlib.rs:243-254 | for up to 65536 codes of up to 15 bits the codeword counters stay within 32 bits, also when the lengths are oversubscribed |
| HuffmanComplete.WalkProgress | soulseek-rs/src/utils/zlib.rs:166-177 | a walk stays within the data and takes at least one bit unless a symbol sits at the root |
| HuffmanConverse.DecodedIsCodeword | soulseek-rs/src/utils/zlib.rs:145-177 | whatever the lengths, a decoded symbol is that of an index whose codeword was just read |
| HuffmanConverse.DecodesIff | soulseek-rs/src/utils/zlib.rs:145-177 | under the Kraft inequality decoding yields a symbol if and only if its codeword stands there, and stops just past it |
| HuffmanConverse.PanicsIff | soulseek-rs/src/utils/zlib.rs:166-177 | for any lengths, decoding aborts on given bits if and only if they start with a gap: no codeword starts with these bits, but one does with the last bit turned over |
| HuffmanConverse.NoGapIff | soulseek-rs/src/utils/zlib.rs:166-177 | decoding never aborts if and only if the code has no gap |
| CanonicalCode.CodeBitsNumeral | soulseek-rs/src/utils/zlib.rs:145-163 | a codeword goes into the tree as its binary numeral, highest bit first |
| CanonicalCode.CodeIsRoomBefore | soulseek-rs/src/utils/zlib.rs:234-256 | for any code lengths, the codeword of a symbol, as a binary fraction, is the code space of all symbols that precede it: those with shorter codewords, and those with equally long ones and smaller numbers |
| InflateSpec.RoundProgress | soulseek-rs/src/utils/zlib.rs:201-231 | every round of the symbol loop that goes on takes at least one bit, keeps the output and, for trees as they are built, adds at most 129 bytes a bit |
| InflateSpec.OutputBound | soulseek-rs/src/utils/zlib.rs:91-105 | inflating any bits takes at least one bit and writes at most 129 bytes for each bit it takes |
| InflateSpec.DeflateBound | soulseek-rs/src/utils/zlib.rs:62-89 | the output is at most 1032 times as long as the input |
| DeflateTables.EveryMatch | soulseek-rs/src/utils/zlib.rs:179-193 | every length 3 to 258 and distance 1 to 32768 has symbols and extra bits in the tables, with codewords in the fixed codes |
| DeflateTables.LengthTable | soulseek-rs/src/utils/zlib.rs:179-185 | the extra bits and the base of every length symbol, in closed form |
| DeflateTables.DistanceTable | soulseek-rs/src/utils/zlib.rs:186-193 | the same for every distance symbol |
| DeflateTables.OrderTable | soulseek-rs/src/utils/zlib.rs:258-260 | the transmission order of the code length lengths, in closed form |
| DeflateErrors.SymbolsOf | soulseek-rs/src/utils/zlib.rs:278-319 | under the Kraft inequality, wherever the codeword of one of the 19 code length symbols, 286 literal and length symbols or 30 distance symbols stands, the tree with that alphabet reads that symbol |
| FixedTable.FixedCodeword | soulseek-rs/src/utils/zlib.rs:328-334 | the codewords of the fixed literal code are those that section 3.2.6 of RFC 1951 tabulates, for all symbols below 286 |
| FixedTable.FixedLiteral | soulseek-rs/src/utils/zlib.rs:328-335 | wherever 48 + s in 8 bits stands (s below 144), 400 + (s - 144) in 9 bits (below 256), s - 256 in 7 bits (below 280) or 192 + (s - 280) in 8 bits (below 286), the fixed literal tree reads s and takes these bits |
| FixedTable.FixedDistance | soulseek-rs/src/utils/zlib.rs:338-340 | wherever the five bits of a distance d below 30 stand, the fixed distance tree reads d and takes them |
| FixedTable.LetterA | soulseek-rs/src/utils/zlib.rs:62-89 | the nine bytes of the zlib stream of the letter a are decoded to it, and all of them are read |
| DeflateEncoder.CopyIsPeriodic | soulseek-rs/src/utils/zlib.rs:225-229 | the byte-by-byte copy, also when it overlaps what it writes, repeats the last bytes periodically |
| DeflateEncoder.MatchDecodes | soulseek-rs/src/utils/zlib.rs:209-230 | the extra bits, distance codeword and distance extra bits of a match decode to the bytes it stands for |
| DeflateEncoder.DataDecodes | soulseek-rs/src/utils/zlib.rs:195-232 | the bits of any token list, for any two codes that satisfy the Kraft inequality, decode to its LZ77 expansion, up to the end-of-block symbol |
| DeflateEncoder.RunsDecode | soulseek-rs/src/utils/zlib.rs:282-311 | run-length-coded code lengths (symbols 16, 17, 18) are read back, also when the last run overshoots the announced number |
| DeflateEncoder.LengthLengthsDecode | soulseek-rs/src/utils/zlib.rs:272-276 | the code length lengths are read back from their permuted transmission order |
| DeflateEncoder.TreesDecode | soulseek-rs/src/utils/zlib.rs:262-321 | a dynamic header decodes to the trees of its lengths and takes exactly its bits |
| ZlibRoundTrip.StoredDecodes | soulseek-rs/src/utils/zlib.rs:107-117 | a stored block gives its bytes from the next byte boundary on, whatever the padding and NLEN are |
| ZlibRoundTrip.FixedDecodes | soulseek-rs/src/utils/zlib.rs:328-343 | a block in the codes of the lengths 8, 9, 7 and 8 decodes to the expansion of its tokens; `FixedTable.FixedLiteral` and `FixedDistance` say what these codes are |
| ZlibRoundTrip.DynamicDecodes | soulseek-rs/src/utils/zlib.rs:323-326 | a block with its own codes decodes to the expansion of its tokens |
| ZlibRoundTrip.StreamDecodes | soulseek-rs/src/utils/zlib.rs:91-105 | inflating any encoded sequence of stored, fixed and dynamic blocks gives the expansion of all tokens and stops at the bit after the final block |
| ZlibRoundTrip.ContainerDecodes | soulseek-rs/src/utils/zlib.rs:62-89 | a valid header and the bits of any blocks, with any padding, any four checksum bytes and anything behind them, are decoded to the expansion of the blocks |
| ZlibRoundTrip.ZlibInverts | soulseek-rs/src/utils/zlib.rs:62-89 | decoding a zlib stream undoes encoding it and reads all of it, whatever the checksum bytes are |
| ZlibRoundTrip.FixedEncodesAnything | soulseek-rs/src/utils/zlib.rs:328-343 | every byte string has an encoding |
| DeflateHeaders.EveryCode | soulseek-rs/src/utils/zlib.rs:262-321 | every pair of codes of the sizes the format allows, with lengths up to 15 and the Kraft inequality, has a dynamic header |
| DeflateHeaders.DynamicEncodesAnything | soulseek-rs/src/utils/zlib.rs:323-326 | every byte string has an encoding in a dynamic block with any such codes that have all literals |
| DeflateHeaders.DynamicFixed | soulseek-rs/src/utils/zlib.rs:323-326 | for one, with the fixed codes sent as dynamic ones |
| DeflateAccepts.TokenRead | soulseek-rs/src/utils/zlib.rs:201-231 | a round of the symbol loop that does not end the block has read the bits of a token and put out its expansion, for any code lengths |
| DeflateAccepts.DataRead | soulseek-rs/src/utils/zlib.rs:195-232 | block data that decodes, with whatever code lengths, is the encoding of some tokens: the output is their expansion, and exactly their bits were taken |
| DeflateAccepts.LengthsRead | soulseek-rs/src/utils/zlib.rs:282-311 | code lengths that were read are the expansion of some runs, and exactly their bits were taken |
| DeflateAccepts.LengthLengthsRead | soulseek-rs/src/utils/zlib.rs:272-276 | code length lengths that were read are written there in their transmission order |
| ZlibAccepts.TreesRead | soulseek-rs/src/utils/zlib.rs:258-321 | trees that were read come from a header that can be written down, with whatever code lengths |
| ZlibAccepts.BlockRead | soulseek-rs/src/utils/zlib.rs:91-117 | a block that was read can be written down, and its expansion is the output |
| ZlibAccepts.StreamRead | soulseek-rs/src/utils/zlib.rs:91-105 | every stream that is accepted, with whatever code lengths, is a sequence of blocks whose expansion is the output, and exactly their bits were taken |
| ZlibAccepts.Accepts | soulseek-rs/src/utils/zlib.rs:91-105 | what encodes an output with prefix-free codes is inflated to it, and what is inflated to an output encodes it |
| ZlibAccepts.ContainerRead | soulseek-rs/src/utils/zlib.rs:62-89 | every input that is accepted is a valid header, the blocks of the output, padding of less than a byte, four bytes, and anything behind them |
| Truncation.BlocksCut | soulseek-rs/src/utils/zlib.rs:91-105 | inflating a prefix of any bits gives the same result, or the end of the data if the result or the failure lies behind the cut |
| Truncation.InputCut | soulseek-rs/src/utils/zlib.rs:62-89 | an accepted input without some of its last bytes is accepted with the same output if only bytes behind the checksum are missing, and otherwise fails with the end of the data |
| DeflateErrors.HeaderErrors | soulseek-rs/src/utils/zlib.rs:62-85 | which error any first two bytes lead to, or one byte, or none: the first check that fails decides |
| DeflateErrors.InvalidType | soulseek-rs/src/utils/zlib.rs:94-102 | the fourth block type is an error |
| DeflateErrors.TooFar | soulseek-rs/src/utils/zlib.rs:220-224 | after any tokens, a match that reaches behind the start of the output is an error, for any prefix-free codes |
| DeflateErrors.NothingToRepeat | soulseek-rs/src/utils/zlib.rs:287-292 | a header whose first code length repeats the one before is an error |
| DeflateErrors.NoSymbolIff | soulseek-rs/src/utils/zlib.rs:166-177 | for any lengths and any bits, a walk ends without a symbol if and only if nothing is coded |
| FixedGaps.LengthGapIff | soulseek-rs/src/utils/zlib.rs:335 | the only gap of the fixed literal code is 1100011, which the codewords of 286 and 287 start with |
| FixedGaps.DistanceGapIff | soulseek-rs/src/utils/zlib.rs:338-340 | the only gap of the fixed distance code is 1111, which the codewords of 30 and 31 start with |
| DataAborts.DataPanicsIff | soulseek-rs/src/utils/zlib.rs:195-232 | under the Kraft inequality block data aborts if and only if tokens stand there and then a gap of the literal code, or a length with its extra bits and a gap of the distance code |
| DataAborts.StraysRead | soulseek-rs/src/utils/zlib.rs:195-232 | for any code lengths, where block data aborts there stand such tokens and such a gap |
| DataAborts.LengthsPanicIff | soulseek-rs/src/utils/zlib.rs:282-311 | under the Kraft inequality reading the code lengths aborts if and only if runs that leave the list too short stand there and then a gap of their code |
| ZlibAborts.FixedLiteralIff | soulseek-rs/src/utils/zlib.rs:335 | a walk of the fixed literal tree aborts if and only if 1100011 stands there |
| ZlibAborts.FixedDistanceIff | soulseek-rs/src/utils/zlib.rs:338-340 | a walk of the fixed distance tree aborts if and only if 1111 stands there |
| ZlibAborts.FixedReservedPanics | soulseek-rs/src/utils/zlib.rs:335 | a walk on the fixed codewords of 286 and 287 meets a missing child |
| ZlibAborts.FixedDistancePanics | soulseek-rs/src/utils/zlib.rs:338-340 | so does a walk of the fixed distance tree on the five bits of 30 and of 31 |
| ZlibAborts.FixedPanicsIff | soulseek-rs/src/utils/zlib.rs:328-343 | a fixed block aborts if and only if, behind tokens that decode, the start of a reserved length symbol stands, or a length and the start of a reserved distance symbol |
| ZlibAborts.ReservedBlock | soulseek-rs/src/utils/zlib.rs:328-343 | after any tokens, the start of a reserved length symbol, or a match with the start of a reserved distance symbol, aborts a fixed block |
| ZlibAborts.AbortingRead | soulseek-rs/src/utils/zlib.rs:91-105 | for any code lengths, a block that aborts is a fixed block with something reserved, a header whose code lengths run into a gap, or a dynamic block whose data does |
| ZlibAborts.AbortingPanics | soulseek-rs/src/utils/zlib.rs:91-105 | such a block aborts the decoder if its codes are prefix-free |
| ZlibAborts.ReservedAborts | soulseek-rs/src/utils/zlib.rs:91-105 | such a block aborts the inflater, at any position and after any output |
| ZlibAborts.AbortRead | soulseek-rs/src/utils/zlib.rs:91-105 | where the inflater aborts, with whatever code lengths, there stand some blocks and then one that aborts |
| ZlibAborts.StreamAborts | soulseek-rs/src/utils/zlib.rs:91-105 | any blocks that decode, followed by such a block, abort the inflater |
| ZlibAborts.DeflateAborts | soulseek-rs/src/utils/zlib.rs:62-89 | the decoder aborts on every input that is a valid header, blocks and such a block, all with prefix-free codes, and it aborts on no input that is not of this form |
| ZlibAborts.ReservedDeflate | soulseek-rs/src/utils/zlib.rs:62-89 | such an input, written out, aborts the decoder whatever follows |
| ZlibAborts.FourBytesAbort | soulseek-rs/src/utils/zlib.rs:62-89 | the bytes 120, 1, 27, 3 abort the decoder |
| Zlib.BitReader.ReadBit | soulseek-rs/src/utils/zlib.rs:30-40 | the shifting reader gives the next bit of the stream and moves by one |
| Zlib.BitReader.ReadBits | soulseek-rs/src/utils/zlib.rs:42-48 | n bits, least significant first, or the end of the data |
| Zlib.BitReader.ReadBytesLe | soulseek-rs/src/utils/zlib.rs:50-57 | n bytes, little-endian, from the next byte boundary |
| Zlib.HuffmanTree.Insert | soulseek-rs/src/utils/zlib.rs:145-163 | growing the linked tree in place inserts the codeword into the tree that it represents |
| Zlib.DecodeSymbol | soulseek-rs/src/utils/zlib.rs:166-177 | following the nodes gives what a walk of the represented tree gives: symbol, error or abort |
| Zlib.BlListToTree | soulseek-rs/src/utils/zlib.rs:234-256 | counting lengths and bumping the next codes builds the tree of the canonical code |
| Zlib.CopyLoop | soulseek-rs/src/utils/zlib.rs:225-229 | the loop that pushes copied bytes |
| Zlib.InflateBlockData | soulseek-rs/src/utils/zlib.rs:195-232 | the symbol loop with all its error exits |
| Zlib.ReadCodeLengths | soulseek-rs/src/utils/zlib.rs:282-311 | the loop over run-length-coded lengths with all its error exits |
| Zlib.DecodeTrees | soulseek-rs/src/utils/zlib.rs:262-321 | the dynamic header, with the lengths beyond the announced number given to the distance tree |
| Zlib.InflateStored | soulseek-rs/src/utils/zlib.rs:107-117 | the stored block |
| Zlib.Inflate | soulseek-rs/src/utils/zlib.rs:91-105 | the block loop: same output, same error or abort as the functional decoder |
| Zlib.Deflate | soulseek-rs/src/utils/zlib.rs:62-89 | the container: same output, same error or abort as the functional decoder, on every input |
| EditDistance.MatchIsOptimal | song-rs/src/ranker.rs:186-187 | taking the diagonal on a match is as good as the best of the three moves |
| EditDistance.LevIsEditDistance | song-rs/src/ranker.rs:170-196 | the recurrence is the least number of insertions, deletions and substitutions, at any positions, that turn one string into the other: some script has that length and none is shorter |
| EditDistance.NoShorterScript | song-rs/src/ranker.rs:170-196 | no edit script from a to b is shorter than the distance |
| EditDistance.ShortestScript | song-rs/src/ranker.rs:170-196 | a script of that length |
| EditDistance.Triangle | song-rs/src/ranker.rs:170-196 | the triangle inequality |
| EditDistance.Symmetric | song-rs/src/ranker.rs:170-196 | the distance is symmetric |
| EditDistance.ZeroIffEqual | song-rs/src/ranker.rs:170-196 | it is zero if and only if the strings are equal |
| EditDistance.LengthBounds | song-rs/src/ranker.rs:170-196 | it lies between the difference of the lengths and the longer length |
| EditDistance.Levenshtein | song-rs/src/ranker.rs:170-196 | the one-row table, overwritten in place, ends with the distance |
| Ranker.SimilarityRange | song-rs/src/ranker.rs:158-168 | similarity, over byte lengths, lies in [0, 1] and is 1 exactly for equal strings |
| Ranker.SimilaritySymmetric | song-rs/src/ranker.rs:158-168 | similarity is symmetric |
| ScoreParts.WidthIsUtf8 | song-rs/src/ranker.rs:162 | the width of a code point is the number of bytes of its UTF-8 encoding, which is written out and read back |
| ScoreParts.Utf8Bytes | song-rs/src/ranker.rs:162 | these are bytes, and those behind the first can be told from first bytes |
| ScoreParts.SimilarityOfScripts | song-rs/src/ranker.rs:158-168 | the similarity of two different strings is 1 minus the number of edits of some script over the bytes of the longer string, and no script makes it smaller |
| ScoreParts.UnlikeStrings | song-rs/src/ranker.rs:158-168 | different ASCII strings without a common character have similarity 0 |
| Ranker.ScoreRange | song-rs/src/ranker.rs:73-128 | a score lies between 0.0525 and 1 and is 1 exactly if every part is perfect |
| ScoreParts.LosslessTypes | song-rs/src/types.rs:57-59 | which types are lossless |
| ScoreParts.FormatBands | song-rs/src/ranker.rs:119-129 | the format part is 1 for the four lossless types and otherwise 0.35, 0.55, 0.70 and 0.85 by the bands of the bitrate |
| ScoreParts.DurationFalls | song-rs/src/ranker.rs:92-105 | the duration part is 1 up to five seconds off, falls by 0.04 a second and is 0 from 30 seconds on, on both sides; it is one half if the duration is unknown |
| ScoreParts.TitleMoves | song-rs/src/ranker.rs:82-110 | tracks that differ in their titles alone differ in their scores by 0.45 of the difference of the title similarities |
| ScoreParts.ArtistMoves | song-rs/src/ranker.rs:86-110 | by 0.30 for known artists; an unknown artist counts like similarity one half |
| ScoreParts.DurationMoves | song-rs/src/ranker.rs:92-110 | by 0.10 of the difference of the duration parts |
| ScoreParts.FormatMoves | song-rs/src/ranker.rs:107-110 | by 0.15 of the difference of the format parts |
| ScoreParts.AttributesMove | song-rs/src/ranker.rs:23-41 | the score of a file moves with its own duration and bitrate in this way, and its type is that of its name |
| ScoreParts.TitleBeforeArtist | song-rs/src/ranker.rs:12-70 | of two such files the one with the right title scores 0.5525 and is found, and the one with the right artist scores 0.4025 and is not |
| Ranker.PassingExactly | song-rs/src/ranker.rs:18-58 | the results, before sorting, are those of exactly the compatible files that score at least 0.50, one for each place in the list, in the order of the list |
| Ranker.PassingMembers | song-rs/src/ranker.rs:18-58 | a result is there if and only if some file of a wanted type passes with it; it names that file and its type |
| Ranker.StableSortSorts | song-rs/src/ranker.rs:64-68 | the sorted results are a descending permutation that keeps equal scores in order |
| Ranker.StableSortUnique | song-rs/src/ranker.rs:64-68 | only one sequence is that, so the sorting algorithm does not matter |
| Ranker.RankResults | song-rs/src/ranker.rs:12-70 | scoring, filtering and sorting give exactly that sequence |
| RateLimiter.Inner.Enqueue | soulseek-rs/src/search_rate_limiter.rs:58-63 | a new waiter goes to the back |
| RateLimiter.Inner.TryAcquire | soulseek-rs/src/search_rate_limiter.rs:77-110 | one lock-held round: expiry, grant to the front if there is room, wake of the next, or the time to wait |
| RateLimiter.Inner.Cleanup | soulseek-rs/src/search_rate_limiter.rs:34-41 | the cleanup behind a dropped guard removes its waiter and wakes the front |
| RateLimiter.ReachableInv | soulseek-rs/src/search_rate_limiter.rs:29-118 | in every state that any interleaving reaches: no lost wakeup (the front waiter runs, holds a permit, sleeps no longer than until the oldest timestamp expires plus the delay between leaving the lock and starting the timer, or is cancelled with its cleanup pending), the timestamps are the sorted latest grants and all others have expired, grants max_tasks apart are a window apart, and the order is first come first served |
| RateLimiter.WindowSafety | soulseek-rs/src/search_rate_limiter.rs:77-103 | within less than a window there are never more than max_tasks grants, over whole runs |
| RateLimiter.FifoFairness | soulseek-rs/src/search_rate_limiter.rs:34-41 | the granted waiters followed by the waiting ones are the enqueued ones without the cancelled ones, in order, and nobody is granted twice |
| RateLimiter.FrontGrantedIff | soulseek-rs/src/search_rate_limiter.rs:81-103 | a round of the front waiter is granted if and only if there is room or the oldest timestamp has expired |
| RateLimiter.FrontNotStuck | soulseek-rs/src/search_rate_limiter.rs:71-118 | in every reachable state the front waiter has a step now, or at the latest when the oldest timestamp has expired and the delay between leaving the lock and starting the timer has passed |
| RateLimiter.NoTasksNoGrants | soulseek-rs/src/search_rate_limiter.rs:94 | a limiter for zero tasks grants nobody |
| PromptWakeup.SleepsUntil | soulseek-rs/src/search_rate_limiter.rs:104-116 | a waiter that is turned away sleeps until the oldest timestamp expires plus the delay with which its timer starts |
| PromptWakeup.StrictIff | soulseek-rs/src/search_rate_limiter.rs:71-118 | while the front waiter is due by the time the oldest timestamp expires, a step keeps it so if and only if it does not turn the front waiter away with a delay and without a stored permit |
| PromptWakeup.PromptRunKeeps | soulseek-rs/src/search_rate_limiter.rs:71-118 | runs of such steps keep it |
| PromptWakeup.LateRun | soulseek-rs/src/search_rate_limiter.rs:71-118 | for every limiter with a window and a delay, a run after which the front waiter sleeps too long |
| PromptWakeup.AlwaysStrictIff | soulseek-rs/src/search_rate_limiter.rs:71-118 | the front waiter is due by then in every reachable state if and only if the delay or the window is zero |
| PromptWakeup.PermitsIff | soulseek-rs/src/search_rate_limiter.rs:34-118 | after a step exactly these waiters have a stored permit: whoever is first after a grant or a cleanup, and those who had one and did not wake up by it |
| DownloadManager.DownloadManager.constructor | soulseek-rs/src/client/download_manager.rs:36-53 | the new manager, with the given login flag and the downloads requested before |
| DownloadManager.DownloadManager.Enqueue | soulseek-rs/src/client/download_manager.rs:56-70 | accepts a download and starts it or queues it |
| DownloadManager.DownloadManager.TryInitiate | soulseek-rs/src/client/download_manager.rs:73-94 | takes a slot and arms a response timer, if the download is known |
| DownloadManager.DownloadManager.DrainPendingQueue | soulseek-rs/src/client/download_manager.rs:97-110 | the loop that starts pending downloads until the cap is reached |
| DownloadManager.DownloadManager.TryDequeueNext | soulseek-rs/src/client/download_manager.rs:113-126 | starts one pending download if logged in and a slot is free |
| DownloadManager.StatusOf | soulseek-rs/src/client/download_manager.rs:129-151 | each of the four ways in which a transfer can end is told as the terminal status of its kind |
| DownloadManager.DownloadManager.OnCompleted | soulseek-rs/src/client/download_manager.rs:129-151 | reports the result, frees the slot and offers it |
| DownloadManager.DownloadManager.FailMatching | soulseek-rs/src/client/download_manager.rs:163-186 | the two loops over map and list remove all matching downloads, in whatever order the map yields them, and offer one slot |
| DownloadManager.DownloadManager.OnPeerDisconnected | soulseek-rs/src/client/download_manager.rs:154-156 | fails every download of the peer |
| DownloadManager.DownloadManager.OnUploadFailed | soulseek-rs/src/client/download_manager.rs:159-161 | fails the downloads of one file |
| DownloadManager.DownloadManager.OnCancel | soulseek-rs/src/client/download_manager.rs:189-200 | removes a download everywhere and offers its slot |
| DownloadManager.DownloadManager.OnTimeout | soulseek-rs/src/client/download_manager.rs:203-216 | times a download out if it is still queued locally |
| DownloadManager.DownloadManager.OnTransferRequest | soulseek-rs/src/client/download_manager.rs:219-239 | some matching download is queued remotely, its timer aborted, its size and the peer's token recorded (`DownloadLaws.TransferRecorded` says which is which); nothing happens without one |
| DownloadManager.DownloadManager.OnQueuePosition | soulseek-rs/src/client/download_manager.rs:242-264 | some matching download gets its place and a new timer; nothing happens without one |
| DownloadManager.DownloadManager.OnTransferRejected | soulseek-rs/src/client/download_manager.rs:267-289 | the same for a download that has the peer's token |
| DownloadManager.DownloadManager.OnServerDisconnected | soulseek-rs/src/client/download_manager.rs:307-309 | only the login flag changes |
| DownloadManager.DownloadManager.OnLoginSucceeded | soulseek-rs/src/client/download_manager.rs:311-314 | logs in and drains the queue |
| DownloadProofs.EventKeeps | soulseek-rs/src/client/download_manager.rs:56-314 | every event, with timers and late timeout messages in between, keeps partition, timer discipline, status traces and no-stall |
| DownloadProofs.ReachablePartition | soulseek-rs/src/client/download_manager.rs:56-314 | in every reachable state the known downloads are the disjoint union of the pending ones, none queued twice, and the active ones; and a logged-in manager with somebody waiting and a cap of at least one has an active download |
| DownloadProofs.OneTerminalStatus | soulseek-rs/src/client/download_manager.rs:56-289 | in every reachable state an accepted download is known if and only if it has had no terminal status, and gone if and only if its last status is its only terminal one; accepted = live + terminated; traces start with QueuedLocally, and those of downloads handed over at the start never carry it |
| DownloadProofs.ToldFirst | soulseek-rs/src/client/download_manager.rs:56-94 | in every reachable state exactly the downloads that were not handed over at the start have been told first that they are queued locally; the others are never told so |
| DownloadProofs.GoneForGood | soulseek-rs/src/client/download_manager.rs:129-289 | a download that has left stays away and gets no further status |
| DownloadLimits.CapAlways | soulseek-rs/src/client/download_manager.rs:61-69 | the active slots never exceed the cap, for any events at all |
| DownloadLimits.EventBusyIff | soulseek-rs/src/client/download_manager.rs:97-186 | the only event after which a slot is free while somebody waits is a failure that frees more than one slot with more than one download waiting |
| DownloadLimits.FailureBusyIff | soulseek-rs/src/client/download_manager.rs:174-185 | the exact condition for one failure |
| DownloadLimits.BusyAlways | soulseek-rs/src/client/download_manager.rs:97-186 | along runs without such failures no slot is free while a logged-in manager has somebody waiting |
| DownloadLimits.PendingCompletion | soulseek-rs/src/client/download_manager.rs:129-151 | a completion keeps the partition if and only if it does not name a pending download, or names the one dequeued next |
| DownloadLimits.ReusedToken | soulseek-rs/src/client/download_manager.rs:56-70 | a request keeps the partition if and only if its token is not in use, or holds a slot while another is free |
| DownloadLimits.LateTimeout | soulseek-rs/src/client/download_manager.rs:203-216 | a timeout keeps the partition if and only if it does not meet a pending download that is queued locally |
| DownloadExamples.StallExample | soulseek-rs/src/client/download_manager.rs:174-185 | a run after which one slot of two is free and a download waits |
| DownloadExamples.PendingCompletionExample | soulseek-rs/src/client/download_manager.rs:129-151 | a run in which a completion leaves a waiting token that nobody knows |
| DownloadExamples.ReusedTokenExample | soulseek-rs/src/client/download_manager.rs:56-70 | a run after which a token is queued twice |
| DownloadExamples.LateTimeoutExample | soulseek-rs/src/client/download_manager.rs:203-216 | a run in which the timeout of a cancelled download hits the next one with its token |
| DownloadExamples.EarlyExample | soulseek-rs/src/client/download_manager.rs:36-53 | a run in which a download handed over at the start is told nothing but its cancellation |
| DownloadLaws.EventTells | soulseek-rs/src/client/download_manager.rs:56-289 | exactly what the owner of a download is told by an event, whatever the environment does |
| DownloadLaws.RunTells | soulseek-rs/src/client/download_manager.rs:56-289 | so over whole runs: the trace of a download is what the events of the run tell it, in order |
| DownloadLaws.TransferRecorded | soulseek-rs/src/client/download_manager.rs:229-230 | after a transfer request the download carries that peer token and that size; its user, file and token and all other downloads are as before |
| DownloadLaws.RejectionFinds | soulseek-rs/src/client/download_manager.rs:267-271 | a rejection that follows finds exactly those who carried the token before and this download, so it finds this one if nobody else carries it; what was recorded outlives it |
| DownloadLaws.RecordsKept | soulseek-rs/src/client/download_manager.rs:56-289 | in every reachable state the size and peer token of a known download are those of the last transfer request for it, or of its request if there was none; user and file are those of its request |
| DownloadLaws.TimeoutIff | soulseek-rs/src/client/download_manager.rs:203-216 | a download that the peer has queued is not timed out, and one that has just started is, and is told so |
| DownloadOrder.EventServes | soulseek-rs/src/client/download_manager.rs:97-289 | every event but a request starts a first part of those who go on waiting, in order, each under a new timer that it knows; it removes exactly these downloads and stops exactly these timers |
| DownloadOrder.RequestServes | soulseek-rs/src/client/download_manager.rs:56-70 | a request starts its download at once if there is room, and else puts it last |
| DownloadSlots.StartsExactly | soulseek-rs/src/client/download_manager.rs:97-216 | how many start: all that wait, as far as the slots go, after a login, and one if a slot is offered, free and wanted, after a completion, after a failure of anything, and when an active download is cancelled or times out |
| DownloadOrder.OvertakesIff | soulseek-rs/src/client/download_manager.rs:56-70 | an event lets a download start ahead of one that goes on waiting if and only if it is a request while a slot is free although others wait |
| DownloadOrder.NobodyOvertaken | soulseek-rs/src/client/download_manager.rs:56-186 | along runs whose failures free little nobody is overtaken |
| DownloadOrder.OvertakingExample | soulseek-rs/src/client/download_manager.rs:56-70 | after the run that leaves a slot free, whatever is requested next overtakes the download that waits |
| DownloadOrder.AllSlotsTaken | soulseek-rs/src/client/download_manager.rs:61-69 | while somebody waits at a logged-in manager that keeps its slots busy, as many slots are taken as allowed |
| DownloadOrder.NobodyStartsOffline | soulseek-rs/src/client/download_manager.rs:113-116 | between losing the server and the next login nobody starts |
| DownloadOrder.TimersOf | soulseek-rs/src/client/download_manager.rs:73-289 | a known download whose timer an event stops, and does not replace, has none; one that starts or is told its place or a rejection has one |
| DownloadOrder.TidyIff | soulseek-rs/src/client/download_manager.rs:73-94 | an event keeps it that a known download has no timer but the one that it knows, if and only if nobody starts for whom a timer runs already |
| DownloadOrder.OneTimerAlways | soulseek-rs/src/client/download_manager.rs:73-289 | along runs in which no peer speaks of a download that still waits for a slot, this holds |
| DownloadOrder.EarlyTimeoutExample | soulseek-rs/src/client/download_manager.rs:242-264 | a run in which a download is timed out while its own timer has not fired |
| DownloadStatus.RemoteIsToldLast | soulseek-rs/src/client/download_manager.rs:56-289 | in every reachable state, whatever the environment does, a download that is recorded as queued by the peer was told so last, with the same place |
| Wire.FromLeOfLe | soulseek-rs/src/message/mod.rs:277-291 | n little-endian bytes of v read back as v modulo 256^n |
| Wire.LeOfFromLe | soulseek-rs/src/message/mod.rs:228-259 | bytes read as a number and written again are the same bytes |
| Wire.LeDigits | soulseek-rs/src/message/mod.rs:282-291 | byte i of a written number is its digit of 256^i: the low byte comes first |
| Wire.IntReadIff | soulseek-rs/src/message/mod.rs:218-259 | a number is read if and only if its bytes stand there; where fewer are left 0 is read and the cursor stays |
| Wire.StringRead | soulseek-rs/src/message/mod.rs:190-216 | what a count makes of the rest: the string, or nothing and a skip to the end, or nothing at all |
| Wire.BoolReadIff | soulseek-rs/src/message/mod.rs:261-300 | a flag is true exactly as the byte 1, and is written as 1 or 0 |
| Wire.ReadsInside | soulseek-rs/src/message/mod.rs:190-268 | no read moves the cursor backwards or out of the data, whatever the bytes are, and numbers fit their widths |
| Wire.StringBackIff | soulseek-rs/src/message/mod.rs:190-275 | a written string is read back, wherever it stands, if and only if it has less than 2^32 bytes |
| Wire.IntBack | soulseek-rs/src/message/mod.rs:218-291 | a written number is read back and the cursor is just past it |
| Wire.BoolBack | soulseek-rs/src/message/mod.rs:261-300 | a written flag is read back |
| Messages.Message.ReadString | soulseek-rs/src/message/mod.rs:190-216 | the cursor method is the read function, including short and overlong counts |
| Messages.Message.ReadInt8 | soulseek-rs/src/message/mod.rs:218-225 | the same for one byte |
| Messages.Message.ReadInt32 | soulseek-rs/src/message/mod.rs:246-259 | the same for four bytes |
| Messages.Message.ReadInt64 | soulseek-rs/src/message/mod.rs:228-244 | the same for eight bytes |
| Messages.Message.ReadBool | soulseek-rs/src/message/mod.rs:261-268 | the same for a flag |
| Messages.Message.WriteString | soulseek-rs/src/message/mod.rs:270-275 | appends the count modulo 2^32 and the bytes |
| Messages.Message.WriteInt8 | soulseek-rs/src/message/mod.rs:277-280 | appends one byte |
| Messages.Message.WriteInt32 | soulseek-rs/src/message/mod.rs:282-285 | appends four bytes, little-endian |
| Messages.Message.WriteInt64 | soulseek-rs/src/message/mod.rs:288-291 | appends eight bytes, little-endian |
| Messages.Message.WriteBool | soulseek-rs/src/message/mod.rs:297-300 | appends one byte, 1 or 0 |
| Messages.Message.WriteRawBytes | soulseek-rs/src/message/mod.rs:292-295 | appends the bytes |
| Messages.Message.GetBuffer | soulseek-rs/src/message/mod.rs:181-188 | the message behind its length modulo 2^32 |
| Messages.MessageReader.PushBytes | soulseek-rs/src/message/message_reader.rs:51-53 | takes the push step of the framing model |
| Messages.MessageReader.ExtractMessage | soulseek-rs/src/message/message_reader.rs:63-84 | gives the first whole frame as a new message with its cursor at 0, and leaves the rest; or changes nothing |
| Messages.MessageReader.ExtractAll | soulseek-rs/src/actor/server_actor.rs:457-491 | the loop of the actor takes out every whole frame, in order |
| Framing.SentComesOutIff | soulseek-rs/src/message/message_reader.rs:63-84 | a sent message comes out alone and whole, whatever follows, if and only if it has less than 2^32 bytes |
| Framing.NothingLost | soulseek-rs/src/message/message_reader.rs:51-84 | after any pushes and extractions the extracted frames and the buffer are exactly the pushed bytes |
| Framing.ChunkingIndependent | soulseek-rs/src/message/message_reader.rs:51-84 | for any bytes, any chunking and any interleaving, what was extracted and what still will be is what the whole byte string yields |
| Framing.FramesRecovered | soulseek-rs/src/message/message_reader.rs:51-84 | while sent messages arrive in any chunks, the extracted frames are a prefix of the sent ones; when all bytes are in and nothing comes out, they are all of them and the buffer is empty |
| SearchSpec.ResultBack | soulseek-rs/src/types.rs:76-107 | parsing a written search response recovers user, token, files, slots and speed, and stops just past it; `SearchAttributes.FileComesBack` says what becomes of each attribute |
| SearchSpec.LastingDistinct | soulseek-rs/src/types.rs:88-92 | with distinct keys every attribute is found with its value, and no other |
| SearchAttributes.LastWins | soulseek-rs/src/types.rs:88-92 | of several pairs with a code the last one counts |
| SearchAttributes.CodeFound | soulseek-rs/src/types.rs:12-31 | in any list that carries a record of attributes, in any order and with repetitions, each of the codes 0, 1, 2, 4 and 5 is found with what the record says |
| SearchAttributes.AttributesBack | soulseek-rs/src/types.rs:12-31 | reading what a record of attributes is written as, in any order and whatever number stands for yes, gives the record again: 0 is the bitrate, 1 the duration, 2 the flag, 4 the sample rate and 5 the bit depth |
| SearchAttributes.PairsCarry | soulseek-rs/src/types.rs:12-31 | the record written in the order of the codes is one such list |
| SearchAttributes.FileComesBack | soulseek-rs/src/types.rs:76-107 | each file of a written response comes back with its user, path, size and every attribute |
| SearchSpec.ResultInside | soulseek-rs/src/types.rs:76-107 | on any bytes the parser stays within the data and gives as many files as announced |
| SearchSpec.TransferBack | soulseek-rs/src/types.rs:213-227 | a transfer request is recovered; one without a size, as the client itself builds it, is read with size 0 |
| SearchSpec.FromWireNormal | soulseek-rs/src/path.rs:21-23 | a path off the wire has backslashes where slashes or backslashes were and is otherwise the same; normalizing twice changes nothing |
| SearchResponse.ResponseBack | soulseek-rs/src/types.rs:69-116 | a written response, compressed by any valid blocks, comes back from decompression and parsing together |
| SearchResponse.ResponseOutcome | soulseek-rs/src/types.rs:69-74 | parsing aborts if and only if the decoder does or the cursor is beyond the data, and fails exactly with the errors of the decoder |
| SearchResponse.NewFromMessage | soulseek-rs/src/types.rs:69-116 | decompression and the nested parsing loops, with error and abort |
| SearchResponse.NewTransferFromMessage | soulseek-rs/src/types.rs:213-227 | the cursor reads of a transfer request |
| Md5Spec.PaddingFills | soulseek-rs/src/utils/md5.rs:357-374 | padding fills whole 64-byte blocks, with as few zero bytes as possible |
| Md5Spec.UnpaddedIff | soulseek-rs/src/utils/md5.rs:357-374 | a padded message can be recovered by its length field if and only if it has less than 2^61 bytes |
| Md5Spec.FIsChoice | soulseek-rs/src/utils/md5.rs:39-45 | F picks y where x is set and z elsewhere, and G is F with z as the condition |
| Md5Spec.HIsParity | soulseek-rs/src/utils/md5.rs:47-49 | the truth table of H: it is z where x and y agree and not z where they differ |
| Md5Spec.IIsChoice | soulseek-rs/src/utils/md5.rs:51-53 | the truth table of I: x or-else y where z is set, and not y elsewhere |
| Md5Vector.InitialBytes | soulseek-rs/src/utils/md5.rs:277-284 | the registers start with the bytes 01 23 .. ef, fe .. 10, low-order byte first |
| Md5Vector.MessageDigest | soulseek-rs/src/utils/md5.rs:455-460 | with the sine table of RFC 1321 the digest of the 62 letters and digits is d174ab98d277d9f5a5611c2c9f419d9f, worked out through both blocks and all 128 steps |
| Md5Spec.FourSteps | soulseek-rs/src/utils/md5.rs:78-94 | four indexed steps that turn the registers round are four assignments that take turns |
| Md5Spec.SwappedPrints | soulseek-rs/src/utils/md5.rs:338-345 | printing the byte-swapped number prints the bytes low-order first, as section 3.5 of RFC 1321 asks |
| Md5.RoundOneOperations | soulseek-rs/src/utils/md5.rs:69-111 | the 16 unrolled steps are the indexed steps 0 to 15 of section 3.4 of RFC 1321 |
| Md5.RoundTwoOperations | soulseek-rs/src/utils/md5.rs:117-157 | steps 16 to 31 |
| Md5.RoundThreeOperations | soulseek-rs/src/utils/md5.rs:163-203 | steps 32 to 47, with the H of `Md5Spec.HIsParity` |
| Md5.RoundFourOperations | soulseek-rs/src/utils/md5.rs:209-249 | steps 48 to 63 |
| Md5.ConvertChunk | soulseek-rs/src/utils/md5.rs:255-275 | the loop that collects four bytes at a time gives the little-endian words |
| Md5.BitPadding | soulseek-rs/src/utils/md5.rs:357-374 | the padding loop gives the padded message |
| Md5.ComputeMd5Digest | soulseek-rs/src/utils/md5.rs:277-346 | the loop over the blocks is the fold of RFC 1321, printed in hexadecimal |
| Md5.ComputeMd5 | soulseek-rs/src/utils/md5.rs:423-426 | the digest of any message, for any table |
| ServerSpec.BackoffSecs | soulseek-rs/src/actor/server_actor.rs:684-687 | shift, saturating product and minimum are min(min_delay * 2^max(attempt - 1, 0), max_delay) over unbounded integers |
| ServerSpec.BackoffGrows | soulseek-rs/src/actor/server_actor.rs:684-687 | the delay never decreases with the attempt and never exceeds the longest delay |
| ServerSpec.EventKeeps | soulseek-rs/src/actor/server_actor.rs:597-649 | no event loses, repeats or reorders a command, and a connected actor holds none back |
| ServerSpec.CommandsInOrder | soulseek-rs/src/actor/server_actor.rs:707-713 | in every reachable state the commands turned into messages followed by those held back are the arrivals in order, each message is the one its command asks for, and nothing is held back while connected |
| ServerSpec.ReconnectsIff | soulseek-rs/src/actor/server_actor.rs:651-703 | after losing its connection an actor can ever dial again without a new start if and only if a login was unanswered, reconnecting is enabled and attempts are left |
| ServerSpec.LostLoginExample | soulseek-rs/src/actor/server_actor.rs:529-560 | two runs from the start: with an answered login the actor never dials again, with an unanswered one it does |
| ServerSpec.StrandedStays | soulseek-rs/src/actor/server_actor.rs:544-552 | an actor that cannot dial again stays disconnected and piles up commands |
| ServerSpec.FailedDialUncounted | soulseek-rs/src/actor/server_actor.rs:537 | a dial that fails while disconnected changes neither the attempt counter nor the time |
| ServerLaws.MessagesCarry | soulseek-rs/src/actor/server_actor.rs:308-332 | in every reachable state a message that a command asked for names that command with all it carries, a login that nobody asked for repeats the last one, and kept credentials are those of the last login message |
| ServerLaws.ConnectionSends | soulseek-rs/src/actor/server_actor.rs:630-645 | when a connection comes up, kept credentials are sent first and then one message for every command held back, in order |
| ServerLaws.LoginAnswer | soulseek-rs/src/actor/server_actor.rs:347-365 | an answer settles a pending login, with its credentials, and no other |
| ServerLaws.Greets | soulseek-rs/src/actor/server_actor.rs:367-383 | an accepted login is greeted with these messages, in this order |
| ServerLaws.LoginDeadline | soulseek-rs/src/actor/server_actor.rs:734-741 | a login is given up exactly by a tick five seconds after it was sent or later, and no login but a pending one is given up |
| ServerLaws.DialDeadline | soulseek-rs/src/actor/server_actor.rs:562-595 | a dial is taken up by a good probe exactly within 20 seconds; else it has failed and counts |
| ServerLaws.LossesCount | soulseek-rs/src/actor/server_actor.rs:529-542 | a lost connection counts as the first attempt, a dial in vain as one more than before |
| ServerLaws.ReconnectDelay | soulseek-rs/src/actor/server_actor.rs:651-703 | in every reachable state a tick dials again if and only if this is the first reconnect, it is enabled, a login is kept and the shorter of the two delays has passed |
| ServerLaws.OneReconnect | soulseek-rs/src/actor/server_actor.rs:529-560 | a reconnect that fails counts as the second attempt, loses the credentials, and is the last without a new start |
| ServerLaws.StartAgain | soulseek-rs/src/actor/server_actor.rs:715-721 | a start does nothing to a connection, and takes up a dial as a good probe does |
| ServerLaws.RestartLogsIn | soulseek-rs/src/actor/server_actor.rs:715-729 | an actor that is stopped while logged in, and started again, logs in again |
| ServerLaws.StoppedForGood | soulseek-rs/src/actor/server_actor.rs:723-729 | an actor that was stopped dials only after a new start |
| ServerActor.ServerActor.Handle | soulseek-rs/src/actor/server_actor.rs:707-713 | a command is held back unless connected; like every other method that handles an event, this one keeps the commands that have arrived whole and in order |
| ServerActor.ServerActor.HandleCommand | soulseek-rs/src/actor/server_actor.rs:308-332 | a command becomes its message; a login waits five seconds for an answer |
| ServerActor.ServerActor.OnConnectionEstablished | soulseek-rs/src/actor/server_actor.rs:597-649 | repeats a remembered login, then handles what was held back in order |
| ServerActor.ServerActor.DisconnectWithError | soulseek-rs/src/actor/server_actor.rs:529-560 | counts the attempt and keeps only the credentials of an unanswered login |
| ServerActor.ServerActor.InitiateConnection | soulseek-rs/src/actor/server_actor.rs:225-293 | a dial that succeeds or fails |
| ServerActor.ServerActor.CheckConnectionStatus | soulseek-rs/src/actor/server_actor.rs:562-595 | gives a connection 20 seconds, then probes it |
| ServerActor.ServerActor.MaybeReconnect | soulseek-rs/src/actor/server_actor.rs:651-703 | dials if credentials, settings, attempts and delay allow it |
| ServerActor.ServerActor.OnLoginStatus | soulseek-rs/src/actor/server_actor.rs:347-383 | settles a pending login and greets the server |
| ServerActor.ServerActor.ExpireLogin | soulseek-rs/src/actor/server_actor.rs:734-741 | gives up an unanswered login at its deadline |
| ServerActor.ServerActor.OnStart | soulseek-rs/src/actor/server_actor.rs:715-721 | dials if disconnected |
| ServerActor.ServerActor.OnStop | soulseek-rs/src/actor/server_actor.rs:723-729 | forgets the connection |

## Left out

- Sockets, files, the asynchronous runtime, the worker that routes messages, and the command-line programs. Spawned
  timers, channels and dials are steps and parameters.
- NLEN and Adler-32 are read and not checked, as in the code.
- Shifts, masks and the bitwise or of disjoint fields in the bit reader are written as division, remainder and sum.
- Lookups in hash maps take some matching entry; a loop over a map takes its entries in any order.
- The capacity checks that compare a length as a 32-bit number are over unbounded numbers.
- Messages that a download manager sends to peers, and the progress reports that a transfer sends by itself.
- Unicode: strings are sequences of code points in the ranker, with a width of one to four bytes each, and byte sequences
  on the wire. Normal form, lower case, the stripping of brackets, the parser of file names and the table of file
  extensions are parameters of the ranking; decoding of UTF-8 with its fallback is not part of the model.
- Rounding of floating-point scores: scores are real numbers.
- The sine table of MD5 is a parameter, since the sine function is not part of the model; the values of RFC 1321 stand in
  `Md5Vector` only. Words are little-endian as on the platforms the client runs on.
- The server actor's reading and writing of its stream, and the first byte of a probe that is pushed to the reader. A
  message that has been put on the signal queue can still be lost if the connection breaks before it is written.
- The answers to pending logins and the notices to the client.
- Durations of the download timers: they play no role in the model. The comment on `on_queue_position`
  (soulseek-rs/src/client/download_manager.rs:241) speaks of three minutes where the constant says 60 seconds.
- Delays below a second, which the code truncates, and the overflow of the 32-bit attempt counter.
- Small fixed-layout message handlers, print helpers, the hexadecimal writer and the message name table, which would add
  easy members.
