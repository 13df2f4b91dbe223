# RMBT measurement: a model in Dafny

This project models the measurement session of the RMBT speed test (client, mio
server, and the tokio server where it is the simple form of a command) and proves
what the session, the TLS adapters, the threads, the workers and the speed
calculation keep.

## How the model is built

* **Texts and parsers.** `Text`, `Wire`, `Commands` and `TimeResults` hold byte
  strings, the printed lines and the parsers as functions on bytes; `Chunks`,
  `Ramp` and `Pings` hold chunk tables, the pre-download ramp and the median.
* **Machines.** `ServerMachine` and `ClientMachine` give the state of one
  connection and the effect of one successful read or write (`Got`, `Wrote`) and of
  what a handler does before its loop (`Enter`).
* **Session.** `Session` joins both machines with two byte channels. A step is a
  tick of the clock, the start of a `run_*` method, a handler's entry, or a read
  or write of any length. `SessionSteps` and `SessionClient` prove that each
  step keeps the pairing invariant, `SessionRuns` what follows for whole runs.
  `SessionTimes` keeps a tally of times beside a run and proves that both machines
  store exactly those; `SessionEnds` proves what ends each phase, by that tally.
* **Handlers.** `ServerHandlers.Connection` and `ClientHandlers.Measurement` are
  objects whose methods are the handlers, with the loops of the source. A socket
  (`Sockets`) is a script of coming answers: it takes or gives some bytes, would
  block, fails, or ends. Each method is proved equal to one function, `Call` of
  `ServerCalls` and `ClientCalls`; `ServerTurns` and `ClientTurns` spell out one
  turn of each loop. `ServerRuns` and `ClientRuns` prove that such a call is a path
  of session steps (`SessionPaths`), `CallRuns` that any sequence of calls is a run
  of the session, with what the handlers have recorded by then, and `Drivers` drives
  the objects themselves through it. `Events` proves what a call leaves for the poll
  loop, `Splits` what becomes of the messages that have to travel in one piece.
* **Single commands.** `PutRuns` and `TokioPut` compare the two PUT handlers,
  `NoResultRuns` the two PUTNORESULT handlers; `ChunkRuns` treats one GETCHUNKS,
  `ChunkRounds` any number of them, `ResultRuns` PUTTIMERESULT on a connection in any
  state, `CommandTimes` the times all of these print, `CommandLines` lines that arrive
  in pieces and the deadline and chunks of GETTIME.
* **Around the session.** `Tls` and `TlsStreams` are the rustls adapters, `Runner`
  the client's threads and their barrier, `WorkerPool` and `Workers` the server's
  queue and workers, `Calculator` the speed.

## Facts of the code that the model keeps

* Some messages are not resumable: the client handlers for TOKEN, GETCHUNKS and its
  OK offer a slice past the message when they are resumed; the server rewrites the
  GETCHUNKS and GETTIME time answers from their start; OK is re-read from offset 0.
  The session therefore lets these messages travel in one piece and splits
  everything else; `Splits` proves what a split does, down to a session in which both
  sides wait for good. The handler methods themselves follow the code for every split.
* Most handlers loop on a closed stream: a read of no bytes is neither an error nor an
  end to them.
* PUTTIMERESULT never clears its rows, and counts its own answer as received.
* `total_bytes` is never reset on the server, so the results about PUT carry a base.
* The TIMERESULT line is sent with the whole chunk buffer, and the client loses the
  last pair; both are in the results above as they are.
* GETTIME caches its chunk on the connection when the size is not in the tables, and
  uses that chunk again for a later size that is not in them either.
* Unsigned arithmetic wraps, as in the release builds that the repository's workflows
  make: the worker counts, the median, the calculator and a GETCHUNKS count of 0.
* Failed setups do not lower a worker's count. The 15 seconds without an event are
  measured from when the event was taken up, also when its handler has just ended
  the connection, and both name it for removal.
* A thread that cannot connect, and one that panics (for example thread 0 without a
  ping median), leaves the others waiting at the barrier.
* `t_star` needs one second of data: below it the subtraction wraps.
* A duration comment in the client speaks of 7 seconds, and comments in the
  calculator of 2; the code uses 10 and 1, and so does the model.

## Model

| member | source | states |
|---|---|---|
| SessionRuns.RunInv | src/client/state.rs:156-215 | The pairing invariant `Session.Inv` (phases, buffers, channel contents, counters, interests) holds in every state of every run of client, server and two byte channels, for any split of reads and writes and any clock. |
| SessionRuns.RunSafe | src/mioserver/handlers/basic_handler.rs:7-73 | In every reachable state no server handler has failed, each side's registered interest covers its phase, the sides never both wait to read on empty channels, and unless the session is over a thread can start its next round or some side can read or write (if need be after the server's handler has been called). |
| SessionRuns.RoundsEndQuiet | src/client/state.rs:156-215 | Each round before the upload ends with the server awaiting a command, both channels empty and its chunk counter 0; the chunk size is a key of both tables, the count is 1 to 8, and a ping round ends with 1 to 200 samples. |
| SessionRuns.Progress | src/client/handlers/basic_handler.rs:13-71 | No state that satisfies the invariant is stuck. |
| SessionRuns.NeverBothWait | src/client/handlers/basic_handler.rs:13-71 | When both phases read, bytes are under way to one of the sides. |
| SessionRuns.DownloadComplete | src/client/handlers/get_time.rs:71-97 | When the client leaves a chunk phase, all chunks the server emitted are taken, nothing is in flight, GETCHUNKS took the number asked for, and GETTIME recorded one sample per chunk with bytes size, 2*size, ... and non-decreasing times. |
| SessionClient.DownloadEnds | src/mioserver/handlers/gettime.rs:11-84 | A whole chunk with no zero chunk left in flight is the terminal one: it is the last data on the wire and the server waits for the OK. |
| SessionRuns.UploadComplete | src/mioserver/handlers/puttimeresult.rs:46-84 | When the server takes the terminal chunk its `total_bytes` equals the client's `bytes_sent` and both are rows * chunk size; its series is (t_j, j*size) with non-decreasing times; both channels are empty. |
| SessionRuns.UploadReported | src/client/handlers/puttimeresult.rs:33-94 | At the end the client holds all rows of the server's series but the last, then the pairs in the bytes it took behind the line; those are bytes of the client's own terminal chunk and of the prompt. It holds exactly the rows but the last if and only if they hold no further pair. |
| SessionPaths.RunRecords | src/client/handlers/get_time.rs:71-97 | In every state of every run: after GETTIME the client holds one sample per chunk, with bytes size, 2*size, ... and non-decreasing times; after the upload the server's rows stand for exactly the bytes the client sent. |
| SessionTimes.RunTimes | src/mioserver/handlers/ping.rs:30-49 | Beside a run a tally is kept from its steps alone: when the server began a command, when the client began a phase. In every state the time the server holds is the time from the start of the command to the client's OK; every upload row and every GETTIME sample holds the time of that very chunk; the client's pings are the server's ping times in order, all but one still under way; and once the pings are over the median is theirs. |
| SessionEnds.RampByTime | src/client/handlers/get_chunks.rs:20-46 | When the client leaves the wait for a GETCHUNKS time, it asks again if and only if that time, by the server's clock, is under 2 seconds and the size under 4194304; then the count doubles up to 8, after that the size. |
| SessionEnds.PingEnds | src/client/handlers/ping.rs:96-127 | When a ping is recorded the pings are over if and only if a second has passed since the phase began or 200 are recorded; else the next one follows. |
| SessionEnds.RunPings | src/client/runnner.rs:72-130 | In every state of every run exactly thread 0 pings: the runs follow each other as greeting, GETCHUNKS, PING, GETTIME, upload, and every other thread skips PING and has no ping times; thread 0 goes on with a median. |
| SessionEnds.DownloadTimed | src/client/handlers/get_time.rs:99-127 | The download time the client reports is the time the server took from its first chunk to the client's OK. |
| SessionEnds.DownloadStops | src/mioserver/handlers/gettime.rs:12-20 | A GETTIME call in a session marks its next chunk as the last one if and only if more than 10 seconds have passed since the first call. |
| SessionEnds.UploadStops | src/client/handlers/puttimeresult.rs:140-163 | The client goes over to the terminal chunk if and only if a whole chunk is out and 10 seconds or more have passed since it began the phase. |
| SessionEnds.RunLastRow | src/client/handlers/puttimeresult.rs:62-80 | The upload result is the last pair the client parsed, in every state of every run. |
| CallRuns.CallsAreSteps | src/mioserver/handlers/basic_handler.rs:7-73 | A client and a server driven by handler calls alone, on any sockets that let the messages which cannot be resumed through whole, go through states of a run of the session. |
| CallRuns.DownloadByCalls | src/client/handlers/get_time.rs:71-97 | After any calls: no server handler has failed; once the client has left GETTIME it holds one sample per chunk, and as it leaves both streams are empty and the server waits for the OK. |
| CallRuns.UploadByCalls | src/mioserver/handlers/puttimeresult.rs:46-84 | After any calls: when the server has the terminal chunk, the bytes it counted are the bytes the client sent and its series has one row per chunk. |
| CallRuns.ReportByCalls | src/client/handlers/puttimeresult.rs:33-94 | After any calls: a client that is done holds, for some rows that stand for the bytes it sent, all of them but the last, and then the pairs in what it took behind the line. |
| Drivers.Drive | src/mioserver/handlers/basic_handler.rs:7-73 | The two objects themselves, driven over two byte streams from a fresh connection: every handler is called in a state it does not panic in, and the objects end where the run of calls does. |
| SessionSteps.ServerReadInv | src/mioserver/handlers/common.rs:36-223 | Any server read of any length keeps the invariant: commands in pieces, OK messages, upload chunks. |
| SessionSteps.ServerWriteInv | src/mioserver/handlers/gettime.rs:11-121 | Any server write of any length keeps the invariant, across greeting, prompts, chunks, times and the result line. |
| SessionClient.ClientReadInv | src/client/handlers/get_chunks.rs:11-128 | Any client read of any length keeps the invariant: greeting, chunks, times, pongs, the result line. |
| SessionClient.ClientWriteInv | src/client/handlers/puttimeresult.rs:96-194 | Any client write of any length keeps the invariant: tokens, commands, OK messages and upload chunks. |
| SessionClient.ParsesTime | src/client/handlers/get_chunks.rs:130-139 | `parse_time_response` recovers t from `TIME t` followed by any bytes. |
| SessionClient.StaleTime | src/client/handlers/ping.rs:95-100 | The ping handler, which searches the whole buffer, finds the new time and not one left from an earlier answer. |
| Wire.GreetingSeen | src/client/handlers/greeting.rs:89-110 | The client takes the greeting for complete exactly when all of it has arrived. |
| Wire.TimeSeen | src/client/handlers/get_time.rs:99-127 | The prompt is found in a time answer, at its end or anywhere, exactly when all of the answer has arrived. |
| SessionClient.TrailingBytes | src/client/handlers/get_time.rs:99-127 | With bytes behind the prompt GETCHUNKS and GETTIME still find the time; a ping does not, unless they end in a prompt. |
| ServerRuns.CallKeeps | src/mioserver/handlers/basic_handler.rs:7-73 | A whole handler call is a path of session steps from the state before it to the state after it, on every schedule of socket answers on which the clock does not run back and non-resumable messages travel whole. |
| ServerRuns.SessionRunnable | src/mioserver/handlers/getchunks.rs:40-48 | In a session no server handler meets a state in which it would panic (missing table key, clock, or slice). |
| ClientRuns.CallKeeps | src/client/handlers/basic_handler.rs:13-71 | The same guarantee for a whole client handler call, for any old content of the write buffer, while the peer does not end the stream. |
| ClientRuns.SessionRunnable | src/client/handlers/puttimeresult.rs:132-137 | In a session no client handler meets a state in which it would panic. |
| Events.CallRegisters | src/mioserver/handlers/gettime.rs:42-46 | Every server handler call, in any phase and on any socket answers, leaves the connection registered for exactly the event its phase waits for, and for both from the last chunk of GETTIME to its OK. |
| Events.ClientCallRegisters | src/client/handlers/get_chunks.rs:62-73 | Every client handler call and every start of a phase leaves the client registered for exactly the event its phase waits for. |
| Events.CallRunsOn | src/mioserver/handlers/gettime.rs:29-52 | No server handler stops early: a call that returns a positive count has finished its phase, or has dropped a line it does not know; and one that gives the connection up reports a failure. |
| Events.ClientLoopRunsOn | src/client/handlers/get_time.rs:76-96 | No client handler stops early: a call that returns a positive count has changed its phase. |
| Events.ServerAtEnd | src/mioserver/handlers/ping.rs:31-49 | A peer that has closed, met any number of times: the uploads, the ping's OK and the first two greetings fail at once, the prompt and GETCHUNKS return 0 at once, and every other handler takes all of them in one call, so that it never returns while the stream is at its end. Nothing is changed. |
| Events.ClientAtEnd | src/client/handlers/greeting.rs:94-109 | A client reader that has nothing complete never returns while the stream is at its end. |
| Events.ClientWritesAtEnd | src/client/handlers/puttimeresult.rs:140-163 | When the socket takes no bytes only the client's upload handler returns; every other writer offers the same until the socket answers otherwise. |
| Events.WholeChunkTaken | src/client/handlers/get_chunks.rs:104-128 | What the client makes of a whole chunk, by its last byte: GETCHUNKS starts the next at 0, ends at 0xFF and keeps any other chunk in its buffer; GETTIME counts it and ends at 0xFF only. |
| Events.OddChunkStuck | src/client/handlers/get_chunks.rs:110-128 | A GETCHUNKS reader that has taken a chunk with another last byte has no room left: it takes no further byte, on any socket answers. |
| Events.NoChunksNeverEnds | src/mioserver/handlers/getchunks.rs:40-71 | A GETCHUNKS of 0 chunks never comes to its terminal chunk, on any socket answers. |
| Splits.OkSplit | src/mioserver/handlers/getchunks.rs:103-113 | OK in two reads: the server has counted three bytes, does not see the OK, and waits on. |
| Splits.OkNeverSeen | src/mioserver/handlers/gettime.rs:86-101 | After that it waits forever, whatever comes. |
| Splits.PingOkSplit | src/mioserver/handlers/ping.rs:30-49 | The OK of a ping in two reads, over the PING still in the buffer, is not seen either. |
| Splits.SplitOkStarves | src/mioserver/handlers/getchunks.rs:100-115 | In every reachable state in which the server is to read the OK of a transfer, a read that splits it leaves both sides waiting with nothing under way: the session is dead. |
| Splits.TimeSplit | src/mioserver/handlers/getchunks.rs:117-139 | A GETCHUNKS or GETTIME time that the socket takes in two pieces is not the answer, since the second piece starts it again; a socket that takes all of the second offer leaves the handler writing for good. |
| Splits.SliceOverruns | src/client/handlers/greeting.rs:69-86 | A token line, GETCHUNKS line or its OK of which a part is out: the next slice is the rest and as many bytes of the buffer behind it, or does not exist; and unless the socket takes exactly the rest the phase never ends. |
| Splits.UploadOkSplit | src/client/handlers/puttimeresult.rs:11-31 | The OK before an upload in two reads: the client counts neither and waits on. |
| Commands.ParsesGetChunks | src/client/handlers/get_chunks.rs:58 | The server's parser returns count and size of the client's printed GETCHUNKS line, for every u64 count and size in range. |
| Commands.ParsesGetTime | src/client/handlers/get_time.rs:43-47 | The server's parser returns duration and size of the client's printed GETTIME line, for every u64 duration and size in range. |
| Commands.ParsesPutTimeResult | src/client/handlers/puttimeresult.rs:100 | The server's parser returns the size of the client's printed PUTTIMERESULT line, for every size in range. |
| Commands.PutBranch | src/mioserver/handlers/common.rs:141-217 | A line reaches the plain PUT branch if and only if it starts with PUT but with neither longer command, holds no GETCHUNKS, and has at most two words. |
| Commands.UploadSizes | src/mioserver/handlers/common.rs:141-217 | Whatever word follows PUT, PUTTIMERESULT or PUTNORESULT: a number from 4096 to 4194304 is the size; any other word means 4096 for the first two and the size of the command before for the third. |
| Commands.NoSizes | src/mioserver/handlers/common.rs:141-217 | Without a word PUT and PUTNORESULT take 4096; PUTTIMERESULT panics. |
| Commands.DownloadSizes | src/mioserver/handlers/common.rs:55-137 | GETCHUNKS and GETTIME with a number take 4096 when no word follows it, the size when it is one from 4096 to 4194304, and fail on any other word. |
| Commands.UnknownLines | src/mioserver/handlers/common.rs:52-217 | A line is unknown, and left in the buffer, if and only if it holds no GETCHUNKS and starts with none of PING, GETTIME and PUT; it is a ping if and only if it holds no GETCHUNKS and starts with PING and a newline. |
| Commands.ManyWords | src/mioserver/handlers/common.rs:141-217 | On further words PUT and PUTNORESULT fail; PUTTIMERESULT takes its second word and does not look at them. |
| Commands.TimeWords | src/mioserver/handlers/common.rs:98-137 | Any line that starts with GETTIME: it is taken if and only if its first word is a number and its second, if there is one, a size in range; it panics if and only if it has none; else it fails. |
| Commands.ChunksAnywhere | src/mioserver/handlers/common.rs:54-88 | A text with GETCHUNKS anywhere in it is read by its last line from the tenth byte on, whatever stands before. |
| Commands.ShortLastLine | src/mioserver/handlers/common.rs:54-60 | Such a text panics if and only if its last line has less than nine bytes or no word behind them. |
| CommandLines.LineInPieces | src/mioserver/handlers/common.rs:36-51 | Whatever the pieces a line arrives in, the server acts on it exactly as on the whole line. |
| CommandLines.CommandsInPieces | src/mioserver/handlers/common.rs:36-223 | From any split of the client's GETCHUNKS, GETTIME, PUTTIMERESULT or PING line the server is in the phase meant, with exactly the numbers meant. |
| CommandLines.UploadsInPieces | src/mioserver/handlers/common.rs:141-217 | The same for the upload commands with any word behind them, in any pieces: phase and size are as above, and PUTNORESULT keeps the size the connection had. |
| CommandLines.UnknownSpoils | src/mioserver/handlers/common.rs:39-52 | An unknown line stays in the buffer, so the line that follows is not understood either, unless the two together hold GETCHUNKS. |
| CommandLines.GetTimeNeedsBlock | src/mioserver/handlers/gettime.rs:18-52 | A call that starts before the deadline never finishes the transfer: it sends chunks until the socket blocks or fails. |
| CommandLines.GetTimeEnds | src/mioserver/handlers/gettime.rs:18-52 | A call that starts after the deadline ends the transfer at the next chunk boundary whenever the socket takes the rest of the chunk. |
| CommandLines.GetTimeDecides | src/mioserver/handlers/gettime.rs:16-20 | The clock starts with the first call; a call is past the deadline if and only if it begins more than duration * 10^9 nanoseconds after that. |
| CommandLines.GetTimeOverruns | src/mioserver/handlers/gettime.rs:29-52 | A call can last for any time and then fail. |
| CommandLines.GetTimeChunk | src/mioserver/handlers/gettime.rs:22-28 | GETTIME sends chunks of the size asked for if and only if the size is in the table, or no chunk is cached on the connection, or the cached one has that size; a chunk from the table or a fresh one ends in 0. |
| CommandLines.GetTimeLastChunk | src/mioserver/handlers/gettime.rs:56-64 | The same for the terminal chunk, which has a cache of its own and ends in 0xFF. |
| CommandLines.StaleChunk | src/mioserver/handlers/gettime.rs:22-28 | Two GETTIME of different sizes that are in no table: the second sends chunks of the first one's size. |
| Ramp.RampTerminates | src/client/handlers/get_chunks.rs:141-151 | Whatever times are reported there are at most 13 increases, and every round has a table size and a count of 1 to 8. |
| Ramp.IncreaseStep | src/client/handlers/get_chunks.rs:141-151 | From count 2^i, size 4096*2^j the next round doubles the count while i < 3, then the size; the ramp goes on exactly while j < 10. |
| Ramp.FillTable | src/client/globals.rs:9-21 | The doubling loop makes one chunk per table size, with the boundary byte set and the other bytes as filled. |
| Ramp.BuildTables | src/client/globals.rs:9-36 | Both tables have the same keys, and chunks that end in 0x00 and in 0xFF. |
| Chunks.GetChunk | src/client/globals.rs:38-51 | A chunk of any size up to the maximum has that length and the right boundary byte. |
| Chunks.ReceiveFrame | src/client/handlers/get_chunks.rs:110-128 | For a stream of zero chunks and a part: the buffer of a receiver that fills up holds exactly the next zero chunk, or all that was left. |
| Pings.MedianOrderIndependent | src/client/handlers/ping.rs:134-144 | The median does not depend on the order of the samples. |
| Pings.MedianInMiddle | src/client/handlers/ping.rs:134-144 | The median lies between the middle samples if and only if, for an even count, their sum fits in u64; then at least half the samples lie on each side of it. |
| Pings.MedianInRange | src/client/handlers/ping.rs:134-144 | Without overflow the median lies between the least and the greatest sample. |
| Pings.MedianIsMean | src/client/handlers/ping.rs:134-144 | The median of an odd count is the middle sample; that of an even count is the mean of the middle two, rounded down, less 2^63 when their sum does not fit. |
| Pings.SumWraps | src/client/handlers/ping.rs:134-144 | Two equal samples of 2^63 or more: the median is 2^63 less than both. |
| TimeResults.TimeResultLosesLast | src/client/handlers/puttimeresult.rs:44-80 | Parsing the printed line and any tail gives all pairs but the last, then the pairs in the tail's later pieces; it gives just the pairs but the last if and only if those pieces hold none. |
| TimeResults.TimeResultStripped | src/client/handlers/puttimeresult.rs:50-66 | Without the newline and the tail the parser would return every pair. |
| TimeResults.ParsesPair | src/mioserver/handlers/puttimeresult.rs:86-89 | A printed pair of u64 numbers parses back to itself. |
| TimeResults.DropsPairBeforeNewline | src/client/handlers/puttimeresult.rs:50-66 | A pair that is followed by the newline fails to parse, whatever comes after it. |
| PutRuns.MioPut | src/mioserver/handlers/put.rs:8-125 | However reads and writes are split, a finished PUT has answered OK, one `TIME t BYTES base + i*size` line per chunk up to the first that ends in 0xFF, and its last time again; the total grew by exactly the bytes taken. |
| PutRuns.PutStep | src/mioserver/handlers/put.rs:39-97 | Each step keeps the PUT invariant: answer so far, bytes taken, chunk buffer and total agree. |
| PutRuns.PutCall | src/mioserver/handlers/put.rs:8-125 | A whole call of a PUT handler leads from one state of the upload to another, on every schedule of socket answers. |
| PutRuns.PutNeverStuck | src/mioserver/handlers/put.rs:74-97 | While the data holds a terminal chunk the PUT can always read or write another byte. |
| TokioPut.ReadChunk | src/tokio_server/handlers/put.rs:34-51 | The inner loop fills the buffer with the next bytes of the stream, or with all that is left. |
| TokioPut.HandlePut | src/tokio_server/handlers/put.rs:24-101 | The answer that reaches the client is a function of the data, of the clock and of which lines it takes, not of how reads are split: one line per chunk up to one that does not end in 0 or whose line is refused, then the final time; the terminator is found if and only if the first such chunk ends in 0xFF and every line is taken. |
| TokioPut.ServedAll | src/tokio_server/handlers/put.rs:24-101 | To a client that takes every line this is the whole answer that the event-driven form is compared with. |
| TokioPut.AnswersAgree | src/tokio_server/handlers/put.rs:33-91 | Under the same clock readings the two servers' answers are equal if and only if nothing was counted on the connection before and every chunk before the terminal one ends in 0. |
| TokioPut.PutRefines | src/mioserver/handlers/put.rs:8-125 | Every finished run of the event-driven PUT gives the tokio answer exactly under that condition: a first PUT of clean chunks refines the straight-line handler. |
| TokioPut.SecondPutDiffers | src/mioserver/handlers/put.rs:74-97 | A PUT of one terminal chunk on a connection that has counted bytes before is answered differently. |
| TokioPut.FreshLastTime | src/tokio_server/handlers/put.rs:88-92 | The straight-line PUT reads its clock once more for the final time: its answer is the event-driven one under the same running clock if and only if the clock has not moved since the last line. |
| TokioPut.LineLost | src/tokio_server/handlers/put.rs:60-92 | A client that does not take a line gets the lines before it and, if it takes that, the time read after the lost one. |
| NoResultRuns.StepKeeps | src/mioserver/handlers/putnoresult.rs:8-102 | Each step of a PUTNORESULT keeps its invariant: the answer so far, the bytes taken and the chunk buffer agree, and every chunk taken before ended in 0. |
| NoResultRuns.HandlePutNoResult | src/tokio_server/handlers/put_no_result.rs:33-101 | Whatever the data and however reads are split, the straight-line handler answers OK and one time, to a client that takes it; the terminator flag says whether the first chunk that does not end in 0 ends in 0xFF. |
| NoResultRuns.NoResultRefines | src/mioserver/handlers/putnoresult.rs:8-102 | A finished event-driven PUTNORESULT took the same chunks as the straight-line form; it answered the same if and only if the last one ends in 0xFF, and otherwise dropped the connection after the OK. |
| ResultRuns.ResultStep | src/mioserver/handlers/puttimeresult.rs:46-121 | Each step of a PUTTIMERESULT, on a connection with any earlier rows and byte count, keeps its invariant: rows, total, chunk buffer, bytes taken and the answer so far agree. |
| CommandTimes.UploadTimed | src/mioserver/handlers/put.rs:74-97 | Over any run of an upload command the clock is the start kept from the run's steps, and every chunk has the time from there to the read that completed it. |
| CommandTimes.PutTimes | src/mioserver/handlers/put.rs:8-125 | A finished PUT has printed for each chunk its time from the start of the upload, and the last of them again; the start is an earlier command's if its clock still ran. |
| CommandTimes.NoResultTimes | src/mioserver/handlers/putnoresult.rs:8-102 | An answered PUTNORESULT has printed the time from its OK to its last chunk. |
| CommandTimes.ResultTimes | src/mioserver/handlers/puttimeresult.rs:46-121 | A PUTTIMERESULT on a connection with earlier rows and bytes: the line lists the earlier rows again and one row per chunk with its time and the bytes so far, over the last chunk; afterwards one more row stays, with the time of the last write, and the answer's own bytes count as received. |
| ChunkRuns.GetChunksSends | src/mioserver/handlers/getchunks.rs:32-98 | GETCHUNKS n with n >= 1 and a table size sends n*size bytes with 0xFF at the end of chunk n only, on every schedule, and leaves the counter 0. |
| ChunkRounds.EveryRoundAlike | src/mioserver/handlers/getchunks.rs:32-139 | Any sequence of GETCHUNKS with table sizes on one connection behaves alike: on every schedule, from any prompt, each finished answer is its n*size bytes with 0xFF at the end of chunk n only, a time and the prompt, and the next command finds the counter 0 and the clock off. |
| CommandTimes.EveryRoundTimed | src/mioserver/handlers/getchunks.rs:32-139 | In any sequence of GETCHUNKS each answer prints the time from the first call that sent its chunks to its client's OK. |
| ChunkRuns.GenerateChunks | src/tokio_server/handlers/get_chunks.rs:9-19 | n chunks of the size, filled as given but for the last byte, which is 0xFF in the last chunk only. |
| ChunkRuns.SameBoundaries | src/tokio_server/handlers/get_chunks.rs:9-19 | The two servers' answers to GETCHUNKS have the same length and the same boundary bytes. |
| ServerHandlers.Connection.constructor | src/mioserver/worker.rs:136-159 | A new connection is in the first phase with empty counters, no clock and 8192-byte buffers. |
| ServerHandlers.Connection.SendText | src/mioserver/handlers/common.rs:17-33 | The loop all text handlers share: what is sent continues the text from `write_pos`, however often it was interrupted, and the call ends with a positive count exactly when the text is out. |
| ServerHandlers.Connection.HandleGreetingSendVersion | src/mioserver/handlers/greeting_handler.rs:36-66 | Result, state and socket after one call equal those of its specification, whatever the socket answers: the version text, then the token prompt. |
| ServerHandlers.Connection.HandleGreetingSendAcceptToken | src/mioserver/handlers/greeting_handler.rs:69-98 | One call equals its specification for the token prompt, then the wait for the token. |
| ServerHandlers.Connection.HandleGreetingReceiveToken | src/mioserver/handlers/greeting_handler.rs:102-123 | One call equals its specification for the token line, read in any pieces. |
| ServerHandlers.Connection.HandleGreetingSendOk | src/mioserver/handlers/greeting_handler.rs:125-145 | One call equals its specification for OK, then the chunk sizes. |
| ServerHandlers.Connection.HandleGreetingSendChunksize | src/mioserver/handlers/greeting_handler.rs:147-165 | One call equals its specification for the chunk sizes, then the command prompt. |
| ServerHandlers.Connection.HandleMainCommandSend | src/mioserver/handlers/common.rs:10-34 | One call equals its specification for the command prompt; the read position is reset. |
| ServerHandlers.Connection.StartCommand | src/mioserver/handlers/common.rs:78-217 | The branch of each parsed command assigns exactly its numbers, phase and interest; a bad PUTNORESULT size keeps the old chunk size. |
| ServerHandlers.Connection.HandleMainCommandReceive | src/mioserver/handlers/common.rs:36-223 | One call equals its specification for a command line read in any pieces; a full buffer or a closed stream returns 0, an invalid command fails. |
| ServerHandlers.Connection.HandlePongSend | src/mioserver/handlers/ping.rs:7-28 | One call equals its specification for PONG; the clock starts when it is not running. |
| ServerHandlers.Connection.HandlePingReceiveOk | src/mioserver/handlers/ping.rs:30-49 | One call equals its specification for the OK, which is looked for at the start of the buffer; time is taken, the clock stopped. |
| ServerHandlers.Connection.HandlePingSendTime | src/mioserver/handlers/ping.rs:51-70 | One call equals its specification for the time answer. |
| ServerHandlers.Connection.HandlePutSendOk | src/mioserver/handlers/put.rs:8-37 | One call equals its specification for OK; the chunk buffer is fresh, the clock is started only when it is not running. |
| ServerHandlers.Connection.HandlePutReceiveChunk | src/mioserver/handlers/put.rs:74-97 | One call equals its specification for the bytes of a chunk: stored in order, all counted, the time taken when the chunk is whole. |
| ServerHandlers.Connection.HandlePutSendBytes | src/mioserver/handlers/put.rs:39-72 | One call equals its specification for the intermediate line; the chunk's last byte decides between the final time and the next chunk. |
| ServerHandlers.Connection.HandlePutSendTime | src/mioserver/handlers/put.rs:99-125 | One call equals its specification for the final time. |
| ServerHandlers.Connection.HandlePutNoResultSendOk | src/mioserver/handlers/putnoresult.rs:8-37 | One call equals its specification for OK; fresh chunk buffer and clock. |
| ServerHandlers.Connection.HandlePutNoResultReceiveChunk | src/mioserver/handlers/putnoresult.rs:39-74 | One call equals its specification for chunk after chunk until one ends in 0xFF; any other nonzero last byte fails the connection. |
| ServerHandlers.Connection.HandlePutNoResultSendTime | src/mioserver/handlers/putnoresult.rs:76-102 | One call equals its specification for the time answer. |
| ServerHandlers.Connection.HandlePutTimeResultSendOk | src/mioserver/handlers/puttimeresult.rs:10-44 | One call equals its specification for OK; fresh chunk buffer and clock. |
| ServerHandlers.Connection.HandlePutTimeResultReceiveChunk | src/mioserver/handlers/puttimeresult.rs:46-84 | One call equals its specification for chunk after chunk, one row (time, total) each, until one ends in 0xFF. |
| ServerHandlers.Connection.HandlePutTimeResultSendTime | src/mioserver/handlers/puttimeresult.rs:86-121 | One call equals its specification for the result line: the whole chunk buffer goes out with the line over its start, and a last row is added. |
| ServerHandlers.Connection.HandleGetChunksSendChunks | src/mioserver/handlers/getchunks.rs:32-71 | One call equals its specification for the counted chunks; a call that finds one chunk left only changes the phase. |
| ServerHandlers.Connection.HandleGetChunksSendChunksLast | src/mioserver/handlers/getchunks.rs:73-98 | One call equals its specification for the terminal chunk; the counter is 0 again. |
| ServerHandlers.Connection.HandleGetChunksReceiveOk | src/mioserver/handlers/getchunks.rs:100-115 | One call equals its specification for OK, re-read from the start of the buffer. |
| ServerHandlers.Connection.HandleGetChunksSendTime | src/mioserver/handlers/getchunks.rs:117-139 | One call equals its specification for the time answer, which every call offers from its start; the clock is stopped. |
| ServerHandlers.Connection.HandleGetTimeSendChunk | src/mioserver/handlers/gettime.rs:11-52 | One call equals its specification for timed chunks, from the table or the one cached on the connection; the deadline is checked once per call. |
| ServerHandlers.Connection.HandlePerfSendLastChunk | src/mioserver/handlers/gettime.rs:54-84 | One call equals its specification for the terminal chunk. |
| ServerHandlers.Connection.HandleGetTimeReceiveOk | src/mioserver/handlers/gettime.rs:86-101 | One call equals its specification for OK. |
| ServerHandlers.Connection.HandleGetTimeSendTime | src/mioserver/handlers/gettime.rs:103-121 | One call equals its specification for the time answer. |
| ServerHandlers.Connection.HandleReadable | src/mioserver/handlers/basic_handler.rs:7-32 | A readable event runs the handler of a reading phase and changes nothing in any other. |
| ServerHandlers.Connection.HandleWritable | src/mioserver/handlers/basic_handler.rs:34-73 | A writable event runs the handler of a writing phase and changes nothing in any other. |
| ClientHandlers.Measurement.SendText | src/client/handlers/greeting.rs:69-86 | The loop of the text handlers, with the three that offer a slice past the message end; the call succeeds exactly when the write position is the length of the text. |
| ClientHandlers.Measurement.HandleGreetingReceiveGreeting | src/client/handlers/greeting.rs:89-110 | Result, state, buffer and socket after one call equal those of its specification, whatever the socket answers: the greeting, in any pieces. |
| ClientHandlers.Measurement.HandleGreetingSendToken | src/client/handlers/greeting.rs:56-87 | One call equals its specification for the token line. |
| ClientHandlers.Measurement.HandleGreetingReceiveResponse | src/client/handlers/greeting.rs:112-135 | One call equals its specification for OK, chunk sizes and prompt. |
| ClientHandlers.Measurement.HandleGetChunksSendChunksCommand | src/client/handlers/get_chunks.rs:50-78 | One call equals its specification for the GETCHUNKS line; the chunk buffer gets the new size. |
| ClientHandlers.Measurement.HandleGetChunksReceiveChunk | src/client/handlers/get_chunks.rs:104-128 | One call equals its specification for chunks: the last byte 0x00 starts the next, 0xFF ends the transfer. |
| ClientHandlers.Measurement.HandleGetChunksSendOk | src/client/handlers/get_chunks.rs:80-102 | One call equals its specification for OK. |
| ClientHandlers.Measurement.IncreaseChunkSize | src/client/handlers/get_chunks.rs:141-151 | Count and size move one place up the ramp; the chunk buffer follows the size. |
| ClientHandlers.Measurement.HandleGetChunksReceiveTime | src/client/handlers/get_chunks.rs:11-48 | One call equals its specification for the time: another round exactly when it is below two seconds and the size below the maximum. |
| ClientHandlers.Measurement.HandlePingSendPing | src/client/handlers/ping.rs:33-59 | One call equals its specification for PING. |
| ClientHandlers.Measurement.HandlePingReceivePong | src/client/handlers/ping.rs:61-80 | One call equals its specification for the five bytes of PONG. |
| ClientHandlers.Measurement.HandlePingSendOk | src/client/handlers/ping.rs:13-31 | One call equals its specification for OK. |
| ClientHandlers.Measurement.HandlePingReceiveTime | src/client/handlers/ping.rs:82-132 | One call equals its specification for the time: one sample more; the round ends after one second or 200 samples, with the median. |
| ClientHandlers.Measurement.HandleGetTimeSendCommand | src/client/handlers/get_time.rs:37-69 | One call equals its specification for the GETTIME line; the clock starts. |
| ClientHandlers.Measurement.HandleGetTimeReceiveChunk | src/client/handlers/get_time.rs:71-97 | One call equals its specification for chunks, one sample (time, bytes) each, until one ends in 0xFF. |
| ClientHandlers.Measurement.HandleGetTimeSendOk | src/client/handlers/get_time.rs:12-35 | One call equals its specification for OK. |
| ClientHandlers.Measurement.HandleGetTimeReceiveTime | src/client/handlers/get_time.rs:99-127 | One call equals its specification for the time answer: its second word as a number. |
| ClientHandlers.Measurement.HandlePutTimeResultSendCommand | src/client/handlers/puttimeresult.rs:96-121 | One call equals its specification for the PUTTIMERESULT line. |
| ClientHandlers.Measurement.HandlePutTimeResultReceiveOk | src/client/handlers/puttimeresult.rs:11-31 | One call equals its specification for OK, which must come in one read. |
| ClientHandlers.Measurement.HandlePutTimeResultSendChunks | src/client/handlers/puttimeresult.rs:123-168 | One call equals its specification for upload chunks: every byte written is counted; the first chunk boundary after ten seconds ends it. |
| ClientHandlers.Measurement.HandlePutTimeResultSendLastChunk | src/client/handlers/puttimeresult.rs:170-194 | One call equals its specification for the terminal chunk. |
| ClientHandlers.Measurement.HandlePutTimeResultReceiveTime | src/client/handlers/puttimeresult.rs:33-94 | One call equals its specification for the result: bytes are collected until they end in a newline, then parsed. |
| ClientHandlers.Measurement.HandleReadable | src/client/handlers/basic_handler.rs:13-41 | A readable event runs the handler of a reading phase and changes nothing in any other. |
| ClientHandlers.Measurement.HandleWritable | src/client/handlers/basic_handler.rs:43-71 | A writable event runs the handler of a writing phase and changes nothing in any other. |
| Tls.FailsLateExactly | src/stream/rustls.rs:204-270 | A call fails after bytes were taken or held if and only if its schedule, read before the call, first lets the old output through and then, before all bytes are taken and sent, refuses once a byte was taken or breaks the socket. |
| Tls.WriteSync | src/stream/rustls.rs:204-270 | If the connection had taken the acknowledged stream and the held byte, the same is true after a call that offers the rest again, if and only if its schedule is not such a one. |
| Tls.InStepExactly | src/stream/rustls.rs:204-270 | Over any sequence of calls connection and caller stay in step if and only if no call meets such a schedule. |
| Tls.WriteExactlyOnce | src/stream/rustls.rs:204-270 | Over any sequence of calls on any schedule of partial takes, partial sends and blocking (none that breaks the socket or refuses): accepted = stream[..acknowledged + (0 if finished else 1)], so nothing is lost or taken twice. |
| Tls.BrokenSocketLosesStep | src/stream/rustls.rs:247-250 | A socket that breaks after two bytes were taken: the caller is told of an error and has none acknowledged. |
| Tls.WriteReturnsZero | src/stream/rustls_server.rs:168-232 | A call on bytes returns 0 if and only if nothing was held, the old output goes out, and the first byte taken comes alone and gets stuck. |
| Tls.ReadConserves | src/stream/rustls.rs:73-202 | Delivered bytes ++ temp_buf ++ undrained plaintext ++ what is still to come is the same stream before and after, for every buffer size and blocking pattern; the recursion ends because each turn takes something from the network. |
| Tls.ReadsInOrder | src/stream/rustls_server.rs:47-166 | Over any reads with any sizes the caller gets the stream from its start, in order. |
| Tls.BlocksHolding | src/stream/rustls.rs:85-106 | A read reports that it would block while data is held if and only if TLS output is stuck in a way the first event shows, or plaintext was left behind by a failed handshake write. |
| Tls.EndsHolding | src/stream/rustls.rs:111-114 | A read returns 0 while data is held if and only if the peer's end of stream is what it meets first. |
| Tls.ReadReports | src/stream/rustls.rs:73-202 | For a buffer with room, held data or none: a read returns 0 if and only if the peer's end comes first or records bring nothing, nothing is held, no more is wanted and output goes out; it reports that it would block if and only if the network has nothing and nothing is held, or TLS output is stuck. Both are conditions on the schedule before the call. |
| Tls.QuietSocketWaits | src/stream/rustls.rs:85-106 | With nothing held, nothing to send and a quiet network a read would block; it does not report an end. |
| Tls.ReadGivesAll | src/stream/rustls.rs:153-181 | A read that gives bytes gives as many as fit or all there are, and after records nothing stays in the connection. |
| Tls.HandshakeEnds | src/stream/rustls.rs:139-148 | The handshake counts as done after the first valid records, whatever became of its output. |
| Tls.IdleSends | src/stream/rustls.rs:85-92 | A read on a quiet network puts out one piece of waiting TLS output. |
| Tls.BlockedWhileHolding | src/stream/rustls.rs:88-101 | One held byte is not given out while one byte of TLS output is stuck. |
| Tls.EndedWhileHolding | src/stream/rustls.rs:111-114 | One held byte is not given out when the peer has closed. |
| TlsStreams.RustlsStream.FlushTls | src/stream/rustls.rs:207-223 | The flush loop ends with nothing to send, or with the first block or error. |
| TlsStreams.RustlsStream.Write | src/stream/rustls.rs:204-270 | The nested loops leave result and adapter as the specification the properties above are about. |
| TlsStreams.RustlsStream.Read | src/stream/rustls.rs:73-202 | The reading loop and the recursion leave result, data and adapter as the specification the properties above are about. |
| TlsStreams.RustlsStream.DrainReader | src/stream/rustls.rs:153-169 | All decrypted bytes move behind those in the spill buffer, in order. |
| Calculator.InterpolateBytesAtTime | src/client/calculator.rs:96-125 | The scan finds the neighbours of the target time: 0 on a sample, the line between two, an end value outside. |
| Calculator.CalculateSpeed | src/client/calculator.rs:4-94 | The loops compute the sum over threads of bytes at the end point less bytes at the start point, over the time between, with 64-bit operations that wrap. |
| Calculator.ContributionOnRate | src/client/calculator.rs:40-86 | Samples on a line of slope r contribute r * (end - start), also when the end point lies past the last sample. |
| Calculator.InterpolateNeighbours | src/client/calculator.rs:114-120 | Between two steady samples the interpolation divides their bytes as the time divides their interval. |
| Calculator.InterpolateOutside | src/client/calculator.rs:114-124 | Before the first sample it is the first value, after the last the last, and on a sample 0. |
| Calculator.AtEndNeighbours | src/client/calculator.rs:46-84 | The end value is on the line of the first sample at or after the end point and the one before it, and past the end on that of the last two; equal times give the later value, a first sample its own. |
| Calculator.LastTwoCount | src/client/calculator.rs:4-94 | Three samples that are not on one line, with the end point past them, give 32 Mbit/s, from the last two. |
| Calculator.SpeedOnConstantRates | src/client/calculator.rs:4-94 | When every thread's samples lie on a line of slope r_k and the start point is inside its range and on no sample, nothing wraps and the speed is 8e9 times the sum of the slopes. |
| Calculator.ContributionNonNegative | src/client/calculator.rs:46-84 | For increasing times and non-decreasing bytes no operation behind a contribution wraps, and it is negative if and only if the first sample lies at the end point and has bytes. |
| Calculator.SpeedExact | src/client/calculator.rs:18-35 | For such samples an unsigned operation wraps if and only if the least last time is above 0 and below one second, or the end point does not fit in 64 bits; otherwise the speed is not negative unless a thread starts at the end point. |
| Calculator.ShortRun | src/client/calculator.rs:30-35 | 1000 bytes in half a second are reported as less than one bit per second. |
| Calculator.StartOnSample | src/client/calculator.rs:114-124 | A start point on a sample counts as 0 bytes: everything up to the end point is credited to the interval. |
| Calculator.SpeedOrderIndependent | src/client/calculator.rs:4-94 | The speed does not depend on the order of the threads. |
| Runner.RunInv | src/client/runnner.rs:48-177 | In every state of every run of N threads each one is in the stage the barrier's generation counts, asleep at its end, or just let through; the statistics hold exactly the threads past the pushing point. |
| Runner.LockStep | src/client/runnner.rs:90-168 | While thread 0 pings no other thread sends or receives, and when it computes a speed the statistics hold one series of each of the N threads. |
| Runner.DeadlockExactly | src/client/runnner.rs:56-73 | When nothing can move, threads are left at the barrier if and only if some thread was lost before its last wait and some thread was not. |
| Runner.LostConnection | src/client/runnner.rs:56-62 | A run of two threads of which one cannot connect ends with the other waiting. |
| Runner.RunsEnd | src/client/runnner.rs:48-177 | Every run ends: N threads make at most 29 N steps. |
| Runner.AllThrough | src/client/runnner.rs:48-177 | If all threads connect and none panics, a run that cannot go on has brought all of them through, and both speeds came from one series of each. |
| WorkerPool.PoolConserves | src/mioserver/worker.rs:84-182 | In every state of every run, also after a count has wrapped, each accepted connection is in exactly one place; a worker has at most one in hand; its count is, modulo 2^64, that plus its failed setups, less repeated removals. |
| WorkerPool.FirstComeFirstServed | src/mioserver/worker.rs:86-106 | Connections leave the queue in the order they were accepted. |
| WorkerPool.PollUnderflows | src/mioserver/worker.rs:249-264 | A poll takes its removals off the count if and only if the count holds as many; otherwise the count wraps by 2^64, and the worker goes on. With one removal at most and counts exact so far it never wraps. |
| WorkerPool.CountsExact | src/mioserver/worker.rs:184-269 | When no poll removes a connection twice, counts are exact in every run and no removal wraps. |
| WorkerPool.CountsByLabels | src/mioserver/worker.rs:116-182 | In every state of every run each worker's count is, modulo 2^64, the connections it took less the removals of its polls; its failures are its setups that did not come to be ready, its next token counts its takes, and it lives unless a setup panicked or its poll failed. |
| WorkerPool.PlacesByLabels | src/mioserver/worker.rs:116-264 | The connections that failed and those that were closed are, in order, those of the run's failed setups and of its removals. |
| WorkerPool.TwiceIsTooOften | src/mioserver/worker.rs:249-264 | Two removals of a healthy worker's one connection leave a count of 2^64 - 1, and the next connection it takes a count of 0. |
| WorkerPool.TokensNotReused | src/mioserver/worker.rs:122-123 | A worker never gives the same token twice. |
| Workers.CollectedTwice | src/mioserver/worker.rs:193-246 | A poll that reports each token at most once collects the connection twice if and only if a handler ended it and returned more than 15 seconds after its event; it never collects it more often. |
| Workers.CollectedExactly | src/mioserver/worker.rs:193-264 | A poll collects a connection if and only if the worker holds it and one of its handlers returned 0 or failed, or more than 15 seconds have passed since its last event was taken up. |
| Workers.SingleExactly | src/mioserver/worker.rs:193-264 | So the removals of a poll are single, as exact counts need them, if and only if no handler that ended its connection overran the limit. |
| Workers.SlowFailure | src/mioserver/worker.rs:193-264 | A handler that fails after 16 seconds: its token is collected twice and a count of 1 becomes 2^64 - 1. |
| Workers.SharedPool.HandleConnection | src/mioserver/server.rs:237-255 | The accepted connection goes to the end of the queue. |
| Workers.SharedPool.TakeConnection | src/mioserver/worker.rs:86-123 | A connection is taken exactly when the worker has none and the queue is not empty; count and next token go up together. |
| Workers.SharedPool.FinishSetup | src/mioserver/worker.rs:126-166 | A good setup stores the connection under its token and marks it active; a failed one drops it and leaves the count as it was. |
| Workers.SharedPool.ProcessAllConnections | src/mioserver/worker.rs:184-269 | Each event marks its connection active before its handler runs; the removals are those of the failed or ended handlers, then of a connection whose last event is too long ago by then, carried out in order after both. |

## Left out

- Sockets, polling, real time and the timeout of `process_phase`: a socket is a script of answers and time a number that does not decrease.
- The HTTP upgrade and the connection-type phase: a session starts with the upgrade answer on its way to the client.
- TLS records, handshake contents and certificates; WebSocket streams; OpenSSL: a rustls connection is what its calls answer.
- `rustls_server.rs` has no handshake loop; it is the same object with `handshakeDone` set from the start.
- Token checks, configuration, logging, the control server, printing and storing of results.
- The unreachable phase `GetChunkSendOk`, and QUIT.
- Tokio handlers other than PUT, PUTNORESULT and `generate_chunks`; of the first two, the parsing of the size.
- A failing write of the tokio handlers: the line is taken to be lost as a whole, though its first bytes may have gone out; a refused OK ends the handlers before anything else.
- Unicode: text is bytes, whitespace is ASCII, and lossy decoding or a slice inside a multi-byte character is not modelled.
- ServerHandlers.Connection.HandleGetChunksSendChunks: the chunk size must be a table key, where the code would panic; a count of 0 never ends, as in a release build, where the subtraction wraps.
- ServerHandlers.Connection.HandlePutSendBytes: printed numbers must fit the 8192-byte buffer, which all 128-bit numbers do.
- Counters are unbounded numbers; only where a width matters (parsed numbers, the median, the calculator, the worker counts) is it modelled.
- The fields of a connection and of a measurement are one record value in a field of their object, and the fixed buffers are sequences; the source owns all of them without sharing, so no aliasing is lost.
- SessionRuns.UploadReported: the rows are recovered when the byte total fits in 64 bits; the client's parser drops larger numbers.
- ClientRuns.CallKeeps: schedules in which the peer ends the stream are not part of it; `Events.ServerAtEnd` and `Events.ClientAtEnd` say what the handlers do then.
- A panic of a worker outside its setup is not modelled; the count of a connection's own bytes, and time, do not wrap.
