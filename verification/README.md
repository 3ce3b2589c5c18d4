# Ping-pong over verbs: a verified model

Two programs exchange messages over InfiniBand queue pairs. Before they do, they exchange addresses
over an ordinary byte stream. This project models both halves and proves what they promise.

## The message loop

A client and a server run the same loop over `n` queue pairs. Each side has one pool of posted
receives (`routs` counts them), one completion queue, one pending mask per queue pair and two
counters, `scnt` and `rcnt`. A completion clears a bit of the mask of its queue pair; when the mask
is empty and `scnt < iters`, the next message is posted there. The loop ends when both *global*
counters have reached `iters`, while progress is made per queue pair, so whether both sides finish
is not obvious from the code.

* `Verbs`, `Endpoints` and `PingPongSystem` (`Verbs.dfy`, `Endpoint.dfy`, `System.dfy`) define the
  device, the loop body as functions, and the system of two endpoints whose steps interleave freely:
  transmit, deliver, acknowledge, drop, take an event, re-arm, poll, process one completion, leave.
* `Driver` is the program itself: a class whose methods run the source's loops on mutable fields and
  arrays, each proved against the functions of `Endpoints`; what the device does in the meantime is
  an argument. `Refinement` proves that the methods never fail and that what they compute is a run of
  the system, whatever the devices and the other program do between two actions. `Following` proves
  the converse: a run in which a side leaves its loop is cut into the rounds of its program, which
  ends where the run does.
* `TokenInvariant`, `StepInvariant` and `SystemInvariant` hold the invariant. Every queue pair has one
  token, the right to send next; it is with a side, in a message, in an unprocessed receive
  completion, or lost. The invariant ties masks, queues, counters and events to the tokens, and every
  step keeps it.
* `Safety`, `Alternation`, `Termination`, `Completion`, `Throttle`, `Overshoot`, `Outcomes`,
  `SomeRun`, `PerQueuePair`, `Payload`, `Credits`, `Events`, `CompletionOrder` and `Transport` draw
  the consequences. `StartUp` and `NoQueuePairs` look at the sizes that the start-up check admits, and
  `Programs` states the results for the programs of the repository.

Three results are worth reading first.

* `Outcomes.CompletionIff`: on a reliable connection every maximal run ends both loops **if and only
  if** the client's count is at most `max(server's, 0)` and the server's count is at most
  `max(client's, n)`. Equal counts always satisfy this. For counts that do not, a run that leaves a
  side waiting for ever is constructed: it delivers to the side with the smaller count only while that
  side has nothing in progress, so that it never posts more than its count. When at least some run
  ends both loops is `SomeRun.SomeRunCompletesIff`.
* `Programs.StreamCompletesIff`: the server of the stream library runs 1000 iterations whatever the
  client asks for (`src/server.c:178`), so a client and this server both finish if and only if
  the client's `-n` is 1000.
* `PerQueuePair.CountIsPerPairIff`: the iteration count is a number of exchanges per queue pair if and
  only if there is one queue pair, or nothing to exchange.

## The handshake

`Hex`, `Gid`, `Record`, `RecordText` and `Dependence` model the text of an address record byte by
byte: `%0wx` and `%x` as in sections 7.21.6.1 and 7.21.6.2 of C11, the 33-byte GID buffer, `htonl` and
`ntohl` on hosts of either byte order. `Framing` models the byte stream as a list of pieces of any size with an ending,
closed or broken, and says exactly when the reassembly loop ends. `Handshake` runs the client against
either server program over byte strings that arrive piece by piece, with the reassembly loop or with
single reads, and proves which runs get both programs through and how the queue pairs are wired when
the first message is sent (states INIT, RTR and RTS as in section 10.3.1 of the InfiniBand
Architecture Specification, Volume 1).

## Assumptions

* Both sides use the same number of queue pairs, at least one, and the numbers of a side are distinct.
* `n <= rx_depth` on both sides. `srq_pingpong` checks it; for one queue pair it says that at least
  one receive is posted. `iters` is any integer.
* `num_qp <= MAX_QP`, which is 256, for `srq_pingpong`: its arrays and both directions of its handshake
  have `MAX_QP` entries (`Driver.Context.Valid`, `Handshake.Pair.Valid`). `num_qp` and `rx_depth` are
  not negative.
* Posting fails only when the queue is full. The device frees the slot of a send when its completion
  is processed, which is the latest moment possible.
* Completions carry a success status, and an event names the queue that was armed.
* The device goes on completing posted work after a program has left its loop. An unreliable
  transport may acknowledge a send before, after or without its delivery.
* Writes to the byte stream succeed and their bytes arrive, in order and in pieces of any size; the
  other side's address record holds what its hardware can produce: a 16-bit LID, 24-bit numbers. A
  program that gives up closes its end.
* The buffer is modelled one byte at a time. `Payload` proves that runs do not depend on contents and
  puts the bytes together again.

## Where the code differs from what it says

* `srq_pingpong` describes `--iters` as the number of exchanges per queue pair
  (`src/example/srq_pingpong.c:566`); the loop counts them over all queue pairs together.
  `PerQueuePair.CountIsPerPairIff` says when the description holds; with more queue pairs only the
  totals are bounded, from above by `iters + n - 1` a side, which `Overshoot.BoundIsAttained` shows to
  be reached.
* The programs for one queue pair read a record with a single `read` (`src/client.c:67`,
  `src/server.c:115`, and likewise `rc_pingpong`, `uc_pingpong` and `ud_pingpong`). They fail if and
  only if one of these finds less than a record (`Handshake.HandshakeCompletes`,
  `Handshake.ShortFirstPiece`). The server does not look at its last `read`, so it can enter its
  message loop after the client has given up (`Handshake.ServerAlone`).
* The reassembly loops test for `r < 0` only (`src/example/srq_pingpong.c:207`), so that a stream that
  is closed in the middle of a record makes them read for ever (`Framing.LoopEndsIff`).
* The exchange functions go on with the array after a failure: on a broken stream `srq_pingpong` does not give up,
  since both of them return the array, which is not null
  (`src/example/srq_pingpong.c:207-225` and `298-334`). `Framing.Connection.ReadRecords` says what is in it.
* The start-up check compares `num_qp` with `rx_depth` only (`src/example/srq_pingpong.c:694`). It admits
  sizes above `MAX_QP`, for which the arrays overrun (`StartUp.AdmittedOverrun`), and no queue pair at
  all, with which both programs wait for ever (`NoQueuePairs.BothWait`). Neither is checked elsewhere.
* Nothing looks at the number of conversions of `sscanf`. `Record.Parse` therefore keeps the old
  contents of the fields that were not reached; `Dependence.MessageDecidesIff` says for which messages
  this makes no difference, and `Dependence.NulsKeepAll` is one for which it does.

## Model

| member | source | states |
|---|---|---|
| `Outcomes.CompletionIff` | src/example/srq_pingpong.c:794-898 | Deadlock freedom for any number of queue pairs, exactly: all maximal reliable runs end both loops if and only if the two iteration counts fit, although each side stops on its own global counter |
| `Outcomes.SufficientRunsComplete` | src/example/uc_pingpong.c:687-782 | Any number of queue pairs, any losses: a maximal run ends both loops whenever the client's count plus the server's losses is at most `max(server's, 0)` and the server's count plus the client's losses is at most `max(client's, n)` |
| `Outcomes.LosslessRunsComplete` | src/example/srq_pingpong.c:812-898 | In particular a maximal run that loses nothing has both sides past their loops, given counts that fit, whatever the interleaving |
| `Outcomes.MismatchStalls` | src/client.c:365-444 | For every pair of counts that do not fit there is a maximal run in which a side waits for ever |
| `SomeRun.SomeRunCompletesIff` | src/example/srq_pingpong.c:812-898 | On a reliable connection some maximal run ends both loops if and only if neither count exceeds what the other side can ever post |
| `SomeRun.ClientOvershoots` | src/example/srq_pingpong.c:886-894 | If the server's count is not smaller, some run makes the client post `iters + n - 1` messages |
| `Outcomes.LossBound` | src/example/uc_pingpong.c:687-782 | On a lossy transport at most one message per queue pair is ever lost |
| `Transport.EarlyAckIff` | src/example/uc_pingpong.c:687-782 | A send can complete while its message is still on the wire if and only if the transport is unreliable |
| `Transport.LossIff` | src/example/uc_pingpong.c:687-782 | A message can be lost if and only if the transport is unreliable |
| `Outcomes.SingleQueuePair` | src/server.c:184-271 | One queue pair, equal counts, reliable or lossy: a maximal run completes if and only if nothing was dropped, and then all four counters equal `iters` |
| `Outcomes.SingleQueuePairCounts` | src/client.c:365-444 | One queue pair, any two counts, reliable or lossy: a maximal run completes if and only if the messages that were not lost suffice; with a positive client count or a server count above one, if and only if the counts are equal and nothing was lost |
| `Outcomes.SingleQueuePairInStep` | src/server.c:192-271 | One queue pair: the messages posted by the two sides never differ by more than one, nor exceed the iteration counts |
| `Programs.StreamCompletesIff` | src/server.c:178-192 | A client of the library and its server both finish if and only if the client asks for 1000 iterations |
| `Programs.StreamStarts` | src/stream.c:84 | The client's buffer holds 0x7b throughout, the server's 0x7c at first and 0x7b once it has received; all receives of both depths are posted |
| `Programs.LossyCompletesIff` | src/example/ud_pingpong.c:681-776 | UC and UD: at most one loss per run, and both sides finish exactly if there is none |
| `Programs.SrqCompletesIff` | src/example/srq_pingpong.c:694-702 | The program against itself with equal options, for all sizes from 0 that the start-up check admits and the arrays have room for: both sides always finish if and only if there is a queue pair or nothing to do; `--iters` is a number of exchanges per queue pair exactly with one of them (or no iterations) |
| `NoQueuePairs.CompletesWithoutPairsIff` | src/example/srq_pingpong.c:694-699 | Without a queue pair, which the check admits, both programs always finish exactly if there is nothing to do |
| `NoQueuePairs.BothWait` | src/example/srq_pingpong.c:812-844 | Otherwise the run in which the client merely starts is maximal, and both wait for ever |
| `StartUp.SetUpIff` | src/example/srq_pingpong.c:411-424 | The loops over the queue pairs stay inside the arrays exactly if there are at most `MAX_QP`, and fill them; otherwise they overrun at index `MAX_QP` |
| `StartUp.AdmittedIsSafeIff` | src/example/srq_pingpong.c:694 | An admitted size has a slot and a record for every queue pair exactly if it is at most `MAX_QP` |
| `StartUp.AdmittedOverrun` | src/example/srq_pingpong.c:55-72 | 257 queue pairs with a depth of 500 are admitted and overrun |
| `Completion.BothDone` | src/example/srq_pingpong.c:812-898 | In a state without steps both loops have ended, if the messages that were not lost suffice |
| `Completion.Waiting` | src/example/srq_pingpong.c:812-844 | A loop that cannot act has left, or has processed everything and waits at its condition |
| `Throttle.ThrottledRun` | src/client.c:365-444 | From the start there is a run that nothing can continue and in which the chosen side never posts more than its own count (the client no fewer than its opening) |
| `Termination.RunsTerminate` | src/example/srq_pingpong.c:812-898 | No run has more steps than fourteen per message of the two budgets, and three |
| `Termination.RunUsesWork` | src/example/srq_pingpong.c:812-898 | Every step uses up some of a natural-number measure of outstanding work |
| `Safety.ReceivesSuffice` | src/example/srq_pingpong.c:866-878 | Receiver-not-ready never happens: messages in flight to a side never exceed its posted receives, and with its unprocessed receive completions never exceed `n`, also after it has left |
| `Safety.DeliveryNeverBlocks` | src/example/srq_pingpong.c:694-699 | Hence a message on the wire can always be delivered |
| `Safety.CreditsAndCapacities` | src/example/srq_pingpong.c:389-402 | `routs` is the posted receives plus the unprocessed receive completions, between `n` and `rx_depth`; receive queue, completion queue and poll array never overflow |
| `Safety.TopUpRestoresDepth` | src/example/srq_pingpong.c:866-875 | A receive completion leaves more than `n` receives, or restores exactly `rx_depth` |
| `Credits.CreditIsExact` | src/example/srq_pingpong.c:734-738 | `routs` is `rx_depth` less the receive completions processed since the last top-up, one taking place every `rx_depth - n` of them: in particular `rx_depth` at the start and `rx_depth - rcnt` while `rcnt < rx_depth - n` |
| `Safety.NeverFails` | src/example/srq_pingpong.c:846-894 | None of the loop's error exits is ever taken |
| `Safety.Refused` | src/example/srq_pingpong.c:854-884 | The error exits are nevertheless there: an unknown queue pair, an unknown request, and too few receives end the program exactly under these conditions |
| `Safety.OvershootBound` | src/example/srq_pingpong.c:861-894 | Posted messages, hence sends completed and what the peer receives, never exceed `iters + n - 1` |
| `Overshoot.BoundIsAttained` | src/example/srq_pingpong.c:886-894 | The bound is exact: on a reliable connection, for every `n` and all equal positive counts, there is a reachable state in which both sides have posted `iters + n - 1` messages |
| `Overshoot.ServerOvershoots` | src/example/srq_pingpong.c:886-894 | If the client's count is not smaller, some run makes the server post `iters + n - 1` messages |
| `Overshoot.LeadRun` | src/example/srq_pingpong.c:812-898 | The schedule that gets there: it keeps its invariant to where nothing more is permitted |
| `PerQueuePair.CountersAreSums` | src/example/srq_pingpong.c:861-894 | In every reachable state the global counters are the sums of the messages posted and processed on the queue pairs |
| `PerQueuePair.CountIsPerPairIff` | src/example/srq_pingpong.c:566 | Equal counts `k`: every maximal run posts at least `k` messages on every queue pair of both sides if and only if there is one queue pair or `k <= 0` |
| `PerQueuePair.SomePairStarves` | src/example/srq_pingpong.c:887 | With two queue pairs or more there is a maximal run in which the server posts fewer than its count on one of them |
| `Safety.PendingIsHistory` | src/example/srq_pingpong.c:794-804 | The send bit is set exactly while a send is unprocessed, the receive bit exactly while the peer owes a message |
| `Safety.CompletionsArePending` | src/example/srq_pingpong.c:854-894 | Every completion names a known queue pair and request whose bit is set, and occurs once |
| `Safety.SlotFreeWhenIdle` | src/stream.c:125 | The send queue of depth one has room exactly while the send bit is clear |
| `Safety.NoLostWakeup` | src/server.c:192-269 | About to wait with completions unprocessed, an event is queued; there is never a second; events acknowledged equal events received |
| `Events.EventsAreCounted` | src/server.c:192-289 | After every run a side has counted exactly the events that it took in that run; until it leaves its loop it owes as many acknowledgements, and afterwards none |
| `CompletionOrder.ProcessedInOrder` | src/example/srq_pingpong.c:838-884 | The completions generated for a side in any run are processed one by one in that order, none skipped and none twice; `scnt` and `rcnt` count the sends and receives among those processed, and the others wait in the batch and the queue |
| `Safety.PollDrains` | src/example/srq_pingpong.c:838-844 | One poll takes everything in the completion queue |
| `Safety.PayloadEcho` | src/stream.c:311-356 | Every message of every run carries what the client's buffer held; so does the server's buffer from the first delivery on |
| `Payload.RunsIgnoreContents` | src/stream.c:311-356 | Runs and control states do not depend on what buffers hold |
| `Payload.BuffersEcho` | src/stream.c:84 | Whole buffers, every byte with a run of its own: the client's never changes and the server's comes to equal it |
| `Payload.MessagesEcho` | src/stream.c:333-356 | Whole messages: whatever is on the wire, at whatever moments its bytes were captured, is what the client's buffer held |
| `Alternation.SendersAlternate` | src/example/srq_pingpong.c:854-894 | The messages posted on each queue pair in any run come from client, server, client, and so on, as many as both histories count |
| `SystemInvariant.StepPreserves` | src/example/srq_pingpong.c:812-898 | Every step of program, device and network keeps the token invariant, and loses a token exactly when it drops a message |
| `SystemInvariant.RunPreserves` | src/example/srq_pingpong.c:812-898 | So does every run, and the tokens lost are the messages dropped |
| `TokenInvariant.InitialInv` | src/example/srq_pingpong.c:734-804 | It holds when the handshake is over |
| `StepInvariant.ConsumedRecv` | src/example/srq_pingpong.c:866-894 | What processing a receive completion does: credit, top-up, and a reply exactly if the slot is free and the budget not used up |
| `StepInvariant.ConsumedSend` | src/example/srq_pingpong.c:861-894 | What processing a send completion does |
| `Refinement.RunProgram` | src/example/srq_pingpong.c:734-898 | Each program as a whole, on a fresh context: posting, opening and loop take no error exit, whatever the devices and the other program do between any two actions, and leave the context as the endpoint of the system after a run |
| `Following.RunAlong` | src/example/srq_pingpong.c:794-898 | The converse: along every run in which a side leaves its loop, whatever its interleaving, the program of that side ends too, outside its loop, with the counters, credit, masks and histories that the side has there, and with as many events counted as it took, all acknowledged |
| `Following.ProgramFollows` | src/example/srq_pingpong.c:811-898 | For every such run some opening and some sequence of rounds, each with a whole poll and a whole batch, lead the program to the end of that run |
| `Following.MaximalRunsAreFollowed` | src/example/srq_pingpong.c:812-898 | So every maximal run in which the messages that were not lost suffice, hence every maximal reliable run with counts that fit, is one that both programs follow to their ends |
| `Refinement.OpenedRefines` | src/example/srq_pingpong.c:794-804 | Both programs enter their loop in a reachable state |
| `Refinement.LoopRefines` | src/example/srq_pingpong.c:811-898 | So does its loop from any reachable state |
| `Refinement.RoundRefines` | src/example/srq_pingpong.c:812-897 | A round is a run: outside steps, an event taken, outside steps, re-arming, outside steps, a poll, and a process step for each completion with outside steps before it |
| `Refinement.BatchRefines` | src/example/srq_pingpong.c:846-896 | The loop over polled completions is a run that never fails |
| `Refinement.OutsideRefines` | src/example/srq_pingpong.c:835-844 | Of the steps of devices and peer a side sees exactly what its own device did |
| `Refinement.OpeningRefines` | src/example/srq_pingpong.c:794-801 | The client's opening is a run, with outside steps before each post |
| `Driver.Context.constructor` | src/example/srq_pingpong.c:734-745 | The fresh context is the initial endpoint, with all `rx_depth` receives posted and counted |
| `Driver.Context.PostRecv` | src/example/srq_pingpong.c:500-520 | Posts what is asked for or what fits, and returns how many |
| `Driver.Context.PostOneSend` | src/example/srq_pingpong.c:522-539 | Takes the free slot of the queue pair, or fails without change |
| `Driver.Context.FindQpIndex` | src/example/srq_pingpong.c:541-550 | The index of the first queue pair with a number, or -1 |
| `Driver.Context.UseCredit` | src/example/srq_pingpong.c:866-875 | `--routs` and the top-up, with its failure |
| `Driver.Context.Answer` | src/example/srq_pingpong.c:886-894 | Clears the bit and posts the next message |
| `Driver.Context.ProcessCompletion` | src/example/srq_pingpong.c:854-894 | The loop body over completions with all its error exits |
| `Driver.Context.OpenClient` | src/example/srq_pingpong.c:794-801 | A first message on every queue pair, the device acting before each post |
| `Driver.Context.OpenServer` | src/example/srq_pingpong.c:802-804 | Waits on every queue pair |
| `Driver.Context.PollCompletions` | src/example/srq_pingpong.c:838-844 | The oldest completions, up to the size of the array |
| `Driver.Context.ProcessBatch` | src/example/srq_pingpong.c:846-896 | Processes the polled completions in order |
| `Driver.Context.PollAndProcess` | src/example/srq_pingpong.c:838-896 | A poll and the processing of what it returned |
| `Driver.Context.OneRound` | src/example/srq_pingpong.c:812-897 | Event, re-arm, poll, process |
| `Driver.Context.MessageLoop` | src/example/srq_pingpong.c:811-898 | The whole loop, and the acknowledgement of the events received |
| `Hex.PrintReads` | src/client.c:61 | A number that fits its field prints in exactly its width, in hexadecimal digits of that value |
| `Hex.ScanPrinted` | src/client.c:79 | Maximal-munch `%x` at any place in a string reads a printed field back and stops after it |
| `Hex.ScanForm` | src/client.c:79 | All that `%x` takes: white space, a sign, `0x` and as many digits as there are, with the value of those digits, negated in 32 bits after a minus, or none if they exceed 32 bits |
| `RecordText.DigitIs` | src/client.c:61 | Which sixteen characters are printed, and that both cases are read |
| `Gid.HostToWire` | src/stream.c:420-425 | The number printed for a word is the one its bytes spell in order, on hosts of either byte order |
| `Gid.WireToHost` | src/stream.c:408-418 | Storing the received number restores those bytes, on hosts of either byte order |
| `Gid.LoadIs` | src/stream.c:424 | The weights of the four bytes of a word on either host |
| `Gid.GidToWire` | src/stream.c:420-425 | The 33-byte buffer ends up with the text of all four words and one NUL, although each print writes its own |
| `Gid.WireToGid` | src/stream.c:408-418 | The sixteen bytes stored are those decoded word by word, a word that does not scan repeating the last number |
| `Gid.TextReads` | src/example/pingpong.c:67-86 | Decoding the text of a GID gives the same sixteen bytes for every combination of byte orders |
| `Record.MessageFits` | src/client.c:61 | The record and its NUL take 52 bytes exactly if every number fits its field, and more otherwise |
| `RecordText.LineText` | src/client.c:61 | Every character of a record: each digit by its weight, leading zeros, colons, and the GID byte by byte in order |
| `Record.RoundTrip` | src/client.c:60-80 | Every valid record is read back as written, whatever the reader's variables held |
| `Record.ParseForm` | src/client.c:79-80 | Not only printed records: three numbers of any length in either case, then white space, then a text of up to 32 characters are read as those numbers, the text going to the front of the GID buffer and what follows it being ignored |
| `Record.NoMeaning` | src/client.c:79 | A message without a NUL, or whose first number exceeds 32 bits, has no meaning |
| `Dependence.MessageDecidesIff` | src/client.c:79-80 | Among the messages that have a meaning, the record read is decided by the message alone, and not by what the variables held, if and only if all conversions succeed, the text reaches the last word of the GID and its first word is a number |
| `Dependence.NulsKeepAll` | src/client.c:79-80 | A message of NULs is accepted and leaves every variable as it was |
| `Framing.LoopEndsIff` | src/example/srq_pingpong.c:204-214 | The reassembly loop ends if and only if the stream holds a whole message or is broken: a `read` that returns 0 does not end it |
| `Framing.LoopOutcome` | src/example/srq_pingpong.c:204-214 | Which of completion, failure and reading for ever it is, decided by the bytes and the ending, for every way the bytes arrive |
| `Framing.ShortClosedSpins` | src/example/srq_pingpong.c:206-213 | On a closed stream that is too short the buffer is not full after any number of reads |
| `Framing.OneByteSpins` | src/example/srq_pingpong.c:206-213 | Such an input: one byte, then the end |
| `Framing.Connection.ReadMessage` | src/example/srq_pingpong.c:204-214 | The loop on its buffer, watched for any number of reads, does what `Watched` says, taking nothing beyond the message |
| `Framing.Connection.ReadOnce` | src/client.c:67-71 | A single read succeeds exactly if the first piece holds the whole record |
| `Framing.Connection.ReadRecord` | src/example/srq_pingpong.c:204-219 | One record: what becomes of it is decided by the unread bytes and the ending, and a record that was written is recovered |
| `Framing.Connection.ReadRecords` | src/example/srq_pingpong.c:203-225 | Recovers the records that were written exactly as far as they have arrived, for every way their bytes arrive, the rest of the array and of the stream untouched; with too few bytes it fails exactly on a broken stream, and reads for ever exactly on a closed one, with as many records read as are complete; a message counts as unreadable only if it is there and has no meaning |
| `Framing.Connection.WriteRecords` | src/example/srq_pingpong.c:191-198 | The stream gets the records in order |
| `Framing.StreamPrefix` | src/example/srq_pingpong.c:191-198 | Every record starts where the ones before it end |
| `Framing.FormatRecord` | src/client.c:60-61 | The message in the 52-byte buffer |
| `Framing.ScanRecord` | src/client.c:79-80 | The record parsed from the buffer, over the old values |
| `Handshake.FirstSendIsSafe` | src/example/srq_pingpong.c:746-804 | When the client is about to send first, both sides have posted receives and each queue pair is in RTS and cross-wired: number, sequence numbers, LID |
| `Handshake.ArrivesAtCounterpart` | src/example/srq_pingpong.c:83-143 | Queue pair `i` of a side sends to queue pair `i` of the other |
| `Handshake.RoutesMatch` | src/example/srq_pingpong.c:106-111 | The one route used for all queue pairs is right for each: global, with the other side's GID, if some byte of that GID's interface id is not zero, and otherwise none |
| `Handshake.HandshakeCompletes` | src/server.c:115-153 | Every run of the handshake is finite; where it stops, both programs are through if they read in a loop, and otherwise if and only if every `read` of a record found all of it |
| `Handshake.FailedIff` | src/client.c:67-71 | With single reads a program has failed if and only if one of them found less than a record |
| `Handshake.ShortFirstPiece` | src/server.c:115-120 | For every two programs that read once there is a run in which a first piece of one byte makes both give up |
| `Handshake.ServerAlone` | src/server.c:153 | And one in which the client gives up and the server enters its loop, its last `read` being unchecked |
| `Handshake.ServerAloneIff` | src/server.c:153 | With single reads a server that has entered is alone exactly if some `read` of a record was short |
| `Handshake.RunInv` | src/example/srq_pingpong.c:191-332 | No byte is lost or made up, every program has what its actions so far should give it, after any interleaving of programs and arrivals |
| `Handshake.RecordsExchanged` | src/client.c:67-73 | When the server enters its loop it has the client's records; the client has the server's if and only if it has not failed |
| `Handshake.OrderOfActions` | src/example/srq_pingpong.c:746-804 | What the order of the programs comes to, on bytes and states: receives before the record, `done` before the client connects, and where the two servers differ |
| `Handshake.BytesExchanged` | src/client.c:62-73 | What has been written when both programs are through: the client's records and the five bytes of `done`, and the server's records |
| `Handshake.ConnectAll` | src/example/srq_pingpong.c:83-143 | Succeeds exactly if all queue pairs are in INIT, and wires each, with a route exactly if a byte of 8 to 15 of the first GID is not zero; otherwise stops at the first that is not, the rest unchanged |
| `Handshake.LocalRecords` | src/example/srq_pingpong.c:746-772 | The records of a side: its numbers, masked sequence numbers, one LID and GID; zeros beyond |
| `Handshake.DecodeStream` | src/example/srq_pingpong.c:204-219 | Records decoded from the stream are those written |

## Left out

- Handshake.FirstSendIsSafe: connecting all queue pairs and writing all records are one action each; their loops are `Handshake.ConnectAll` and `Framing.Connection.WriteRecords`.
- Record.Parse: a message without a NUL, with a number over 32 bits or with a last field of more than 32 characters has no result, the C program's behaviour being undefined.
- Socket set-up, name resolution, `accept`, threads, option parsing, printing and timing.
- The verbs library beyond queues, events and states: keys, path MTU, retransmission, address handles, memory registration.
- Allocation failures, failed calls of the device and the clean-up after them; tear-down, and what becomes of a peer whose queue pair is destroyed.
- Completions with an error status, events for another queue.
- The 40-byte header space of UD buffers (`src/example/ud_pingpong.c:311`): constant offsets, which would only add easy members; the payload results speak of the bytes after it.
- The retry loop of `stream_post_send`, whose attempts all see the same queue, and `stream_post_recv_single`, which nothing calls.
- The server mode of `src/client.c`, which never connects its queue pair; the server modelled is the one of `src/server.c`.
- `src/rdma.c`, a single write after straight-line set-up, and `src/message.c`, which is unfinished.
- Port and device listing (`devinfo.c`, `asyncwatch.c`, `device_list.c`).
