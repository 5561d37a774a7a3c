# W5500 driver: a Dafny model and its proofs

The repository drives a WIZnet W5500 Ethernet chip over SPI with DMA. All register and buffer
transfers go through one command queue that is fed from the application, from DMA callbacks,
from the INT pin and from a timer; sockets keep their unsent and unread data as segments of
flat buffers; the received registers are cached ("mirrored") in RAM. On top sit a DNS client
and a WebSocket client. This project models that code and proves what it is for: bytes arrive
once and in order in both directions in every interleaving, and the codecs round-trip.

Check everything with `dafny verify dfyconfig.toml`.

## How the model is built

- `Bytes`, `Spi`, `RingAlloc`, `Queues`: 16-bit values and circular chip memories, SPI headers,
  placement of segments, the circular deque.
- `DriverSpec`: the driver's state and each routine as a function. `Sockets.Socket` and
  `Driver.W5500`: the same routines as methods that update registers, flat buffers, segment
  queues, the command queue and the running command in place, each proved to do what its
  function says.
- `Chip`, `World`: one socket of the chip, and every step of the whole system: calls of
  send, sendto, recv, recvfrom and the register accessors, completion or failure of a
  transfer, timer ticks, INT edges and the chip's own events.
- `LocalInv`, `Invariant`: the invariant, socket by socket and for the whole. `RxSteps`,
  `TxSteps`, `RegSteps`, `UdpSteps`, `ChipSteps`, `Appending`, `TaskSteps`, `Completion`,
  `ReadCompletion`: every step keeps it. `Runs`: so does every run.
- `Calls`, `Starting`: what the calls answer, and when fetching and sending start.
- `Theorems`, `Traces`, `Order`, `Priority`, `Work`, `Waiting`: what follows for runs. `Limits`,
  `RingLengths`: where it stops, with exact conditions. `Reach`, `ReachSend`: runs that get there.
- `Records`, `DnsName`, `DnsMessage`, `WebSocket`, `Base64`, `Buffers`: UDP records, names and
  messages of RFC 1035, frames of RFC 6455, the encoding of RFC 4648.

The central results are `Traces.StreamsInOrder`, `Theorems.NoLostWakeup`,
`Order.BackPushesComplete`, `Order.NoCommandBeforeFree`, `Priority.InterruptGoesFirst`,
`Starting.StartsExactlyWhen`, `Traces.RecvReturns`, `Work.IdlesOnlyAfterFailure`,
`Limits.PollRepeats`, `Limits.WindowOpens`, `RingAlloc.AllocateSafeIffNotFull`,
`RingAlloc.PlaceFoundIff` and `DnsMessage.ResponseUnderstood`.

## Assumptions about the surroundings

- A transfer takes effect when it completes; a failed one has no effect on the chip or on the
  command's bytes. Failure callbacks come only while a transfer is in flight. Whether the HAL
  accepts a transfer is a parameter of each routine.
- The INT callback runs at the moment the Socket Interrupt Register goes from zero to
  non-zero, or is missed altogether; the timer reads the register as well.
- Sn_IR is write-1-to-clear. Data arrival raises RECV. Each SEND ends in exactly one of SENDOK
  or TIMEOUT. A command leaves Sn_CR when it is accepted. Pointer registers are 16 bits wide
  and wrap; memories are 1, 2, 4, 8 or 16 KB.
- `Chip` numbers the chip's block selects, registers and socket commands itself, so that a driver
  that used other numbers would not reach it.
- On a UDP socket data arrives as whole records of 8 header bytes and non-empty data.
- Each callback, and each critical section of a call, is one atomic step.
- A run starts from opened sockets with fresh mirrors and socket buffers of at most 32767
  bytes; pointers start anywhere, and what was received and handed out before the run counts
  as history. TCP sockets are read with recv, UDP sockets with recvfrom. While sockets are open
  the register accessors read anything and write common registers, socket options or the
  commands CONNECT, DISCON and CLOSE.
- When the chip accepts DISCON or CLOSE the socket's status stops being an open one; CONNECT
  to a socket that is open already has no effect.
- READ_REG and READ_SIR commands carry one history bit, the end of the queue that they were
  pushed to.
- "Nothing has gone wrong" (`Invariant.Clean`): `enqueueFailsInISR` is 0, no asynchronous SPI
  error hit the poll of a busy command register, and no placement succeeded in a ring that was
  exactly full.

## Findings

- Filling the gap of a ring exactly makes the next placement overlap a live segment
  (`RingAlloc.AllocateSafeIffNotFull`, `RingAlloc.FullRingOverlaps`): the ends meet, and the
  placement code takes the branch for a ring that has not wrapped. In a run of the whole system
  the chip then sends one accepted payload in place of another (`ReachSend.ExactFillReached`).
- Placement indices are signed 16-bit numbers. No placement is larger than the socket's chip
  memory of m bytes and three SPI bytes. In every use of a buffer of n bytes all answers are -1
  or a place inside it if and only if n is at most 32767 or at least 32771 + m
  (`RingLengths.NeverEscapesIff`): with 16 KB of chip memory, buffers of 32768 to 49154 bytes come
  to a negative index other than -1 (`RingLengths.EscapeReached`); longer ones do not, as nothing
  is ever placed behind their first segments.
- A poll of a busy command register drops its reply (there is no case for it in the receive
  callback). Once begun it goes on, whatever the chip, the tasks and the timer do, if and only
  if the bus does not fail and no INT edge is seen while the queue has room
  (`Limits.PollEndsOnlyBy`, `Limits.PollRepeats`). One received record and a chip that is slow
  to accept RECV lead there (`Reach.PollReached`).
- An asynchronous error during such a poll, and only then, queues a command a second time
  (`Limits.FailureRepeatsOnlyPolls`, `Reach.PollFailureReached`).
- Data that arrives between a READ_SOC that found a stale RECV and the completion of its
  acknowledgement is not announced: a socket whose unread data is announced stops being so
  exactly by such an arrival (`Limits.WindowOpens`), and it sleeps once the acknowledgement has
  reached the chip (`Limits.DozingEndsInSleep`, `Limits.LateArrivalSleeps`). Two records, one of
  them with its INT edge missed, lead into the window (`Reach.WindowReached`), a third one into
  sleep (`Reach.SleepReached`).
- `_dns_decode_name` reads one byte behind its buffer if and only if its walk along labels and
  pointers comes to the last octet of a packet that fills the buffer and finds a pointer there
  (`DnsName.EscapesIffAtEdge`); some offset does so if and only if the packet fills the buffer
  and ends in an octet of at least 192 (`DnsName.EscapesSomewhere`). A well-formed response of 512
  bytes with one alias does it (`DnsMessage.ResponseEscapes`).
- A payload that has to wait for space in the chip is started only by a CHECK_TX_FSR that finds
  room or by a send call that meets a mirror that shows room (`Waiting.WaitEndsOnlyBy`). Only ticks
  on ESTABLISHED sockets queue such a check (`Waiting.ChecksComeFromTicks`), so that on a UDP socket,
  and on a TCP socket whose peer has closed its side, once no earlier check of it is left, it waits
  for the next call whatever becomes free (`Waiting.WaitsForCall`, `Waiting.UdpUnchecked`, `ReachSend.WaitReached`).
- The 16-bit output index of `ws_base64_encode` wraps beyond 49152 input bytes
  (`Base64.FitsExactly`).
- The length handed to `send` for a WebSocket frame wraps for payloads of more than 65527
  bytes (`WebSocket.SendFrame`).

## Model

| member | source | states |
|---|---|---|
| Traces.StreamsInOrder | Src/w5500.cpp:553-796 | In every reachable state of every interleaving in which nothing has gone wrong: what the chip sent is a prefix of what send and sendto accepted; on TCP, bytes received before the run, bytes returned by recv, bytes queued and bytes still in the chip together are the bytes that arrived; on UDP, earlier datagrams and those returned by recvfrom are a prefix of the records that arrived |
| Traces.HistoryIsTrace | Src/socket.cpp:220-448 | The history that the theorems speak of is the history at the start and then the concatenation of what the calls accepted and returned |
| Traces.RecvReturns | Src/socket.cpp:331-371 | The same for every recv of every run, and with room for all queued bytes it returns all of them and empties the queue |
| Traces.RingsLaidOut | Src/w5500.cpp:338-415 | In every reached state both queues of every socket are laid out, as the facts about single calls ask for |
| Theorems.ReceiveConservation | Src/w5500.cpp:553-576 | Bytes handed out, then bytes queued, then the chip's memory from the next unread byte on, are exactly the arrived bytes |
| Theorems.TransmitStream | Src/w5500.cpp:626-659 | Sent payloads are a prefix of accepted ones with their UDP destinations; the send queue holds the unconfirmed rest byte for byte; at most one payload, the head, is outstanding |
| Theorems.DatagramsInOrder | Src/socket.cpp:382-448 | For any serialised datagrams that arrived, recvfrom has returned the first of them in order, and all of them once nothing is queued or left in the chip |
| Theorems.NoLostWakeup | Src/w5500.cpp:661-692 | Unread bytes in the chip imply a pending CHECK_RCV, a positive mirrored size or a raised RECV, unless data came in the stale window |
| Waiting.WaitEndsOnlyBy | Src/w5500.cpp:684-750 | A waiting send queue is set going by an event if and only if it is a send call past its checks whose head fits the mirrored space, or a CHECK_TX_FSR on an open socket whose head fits the chip's space; otherwise it waits on |
| Waiting.ChecksComeFromTicks | Src/w5500.cpp:859-872 | A CHECK_TX_FSR of a socket is pushed by exactly the timer ticks that find its mirrored status ESTABLISHED |
| Waiting.TickLeavesCheck | Src/w5500.cpp:859-872 | After every tick an ESTABLISHED socket has a CHECK_TX_FSR pending |
| Waiting.WaitsForCall | Src/w5500.cpp:700-750 | On a socket that is not ESTABLISHED, without a leftover check, a waiting queue waits on over any run if and only if no further send call finds room in the mirror |
| Waiting.UdpUnchecked | Src/w5500.cpp:859-872 | A UDP socket is such a socket in every reached state |
| ReachSend.WaitReached | Src/w5500.cpp:700-750 | A run in which nothing has gone wrong ends idle with a payload waiting that the chip has room for |
| Theorems.SegmentsStayApart | Src/w5500.cpp:338-415 | All live segments of both buffers of a socket, the reserved one included, lie inside the buffer and are pairwise disjoint |
| Theorems.MirrorsSound | Src/w5500.cpp:684-692 | While a direction is idle its mirrored pointer is the chip's and its mirrored free space or received size is at most the chip's |
| Theorems.WriteSparesUnsent | Src/w5500.cpp:700-738 | A completed WRITE_BUF leaves every byte that the chip has not freed |
| Theorems.CommandHandshake | Src/w5500.cpp:441-479 | A write to a socket's command register, SEND, RECV or a task's CONNECT, DISCON or CLOSE, is in flight only while the chip's register is free, with its read-back right behind it; a held register is mirrored or read first |
| Order.NoCommandBeforeFree | Src/w5500.cpp:441-479 | Between two writes to a socket's command register, SEND, RECV or a task's CONNECT, DISCON or CLOSE, some read has found the register free |
| Theorems.CheckAfterRelease | Src/w5500.cpp:771-793 | CHECK_RCV samples only after RX_RD has been written and a RECV accepted, and it is the last command of its batch |
| Theorems.FlagsActedOnOnce | Src/w5500.cpp:596-671 | A READ_SOC meets no pending acknowledgement; a SENDOK or TIMEOUT that it sees belongs to exactly one unconfirmed payload |
| Theorems.AcknowledgeFirst | Src/w5500.cpp:661-671 | A pending Sn_IR clear is the very next command, clears only raised flags, and no READ_SOC of its socket is pending |
| Order.BackPushesComplete | Src/w5500.cpp:319-330 | At every moment of a run the completed back-pushed commands followed by the pending ones are exactly all commands that the events so far have pushed to the back: first in, first out, each once, none made up, whatever is pushed to the front and however often transfers fail |
| Order.StepOrder | Src/w5500.cpp:422-544 | One step adds to the back-pushed commands exactly what its event pushes, at the end, and keeps a held command register held unless a read finds it free |
| Priority.InterruptGoesFirst | Src/w5500.cpp:253-269 | From an INT edge that is seen and finds room in the queue until its READ_SIR has completed, in every run: all commands that had not started at the edge and all pushed to the back since are still pending, in order, behind a READ_SIR, and ahead of it is at most the one command from the back that was in flight at the edge; so no other starts, and that one only when it is retried |
| Priority.FlaggedSocketsRead | Src/w5500.cpp:578-593 | A READ_SIR that finds raised flags leaves, before everything else, a READ_SOC for each flagged socket, the highest first, and for no other |
| Priority.SeenFlagsCleared | Src/w5500.cpp:596-671 | A READ_SOC leaves, before everything else, the clearing of all the flags that the chip showed, and behind everything the batches it asks for, the fetch before the send |
| Starting.StartsExactlyWhen | Src/w5500.cpp:546-796 | For every event: afterwards a socket is receiving if and only if it was and its fetch did not just end, or the event asks for a fetch and the socket is open, its mirror shows bytes and there is a place; the same for sending with the head payload and the mirrored free space; and the mirrors change only by completed reads, to what the chip shows |
| Starting.FetchesMirrored | Src/w5500.cpp:753-796 | A fetch that begins asks for all mirrored bytes from the mirrored read pointer on; its five commands are all that the socket has pending to receive |
| Starting.SendsOldest | Src/w5500.cpp:700-750 | Sending that begins takes the oldest payload: destination on UDP, bytes, write pointer, SEND, in this order and nothing else |
| Starting.TcpTimeoutDrops | Src/w5500.cpp:626-634 | A TCP timeout drops every queued payload, sends nothing and lets received data be fetched |
| Work.OneTransfer | Src/w5500.cpp:319-330 | At every step boundary of every run a transfer is in flight exactly while a command is running |
| Work.IdlesOnlyAfterFailure | Src/w5500.cpp:851-857 | The queue waits without a transfer only after an SPI failure, and a timer tick with a working bus restarts it |
| Runs.StepKeeps | Src/w5500.cpp:253-885 | Every step of the driver and its surroundings keeps the invariant |
| Runs.RunKeeps | Src/w5500.cpp:253-885 | The invariant holds in every state of every run that is still clean |
| Runs.StartExists | Src/socket.cpp:22-110 | Opened sockets in any mix of TCP and UDP start a run |
| Growth.StepGrows | Src/w5500.cpp:20 | Lost enqueues, placements in an exactly full ring and errors during a poll are never forgotten |
| Limits.PollNeverRefreshes | Src/w5500.cpp:449-464 | The poll of a busy command register, once completed, leaves the whole state as it was |
| Limits.PollEndsOnlyBy | Src/w5500.cpp:449-464 | For every event that can happen during such a poll: the poll goes on afterwards if and only if the event is no bus failure and no seen INT edge that finds room in the queue |
| Limits.PollRepeats | Src/w5500.cpp:449-464 | The same over runs of any length |
| Reach.PollReached | Src/w5500.cpp:441-479 | A run from opened sockets, one record arriving and RECV accepted late, is in such a poll with nothing gone wrong |
| Reach.PollFailureReached | Src/w5500.cpp:319-330 | In such a run an asynchronous error can happen and queues the command twice |
| Limits.BusyWritePolls | Src/w5500.cpp:449-464 | A command-register write that meets a busy mirror stays queued while the register is polled |
| Limits.FailureRepeatsOnlyPolls | Src/w5500.cpp:319-330 | A failure leaves the pending commands unchanged if and only if the transfer was no poll; a poll's command is queued twice |
| Limits.LateArrivalSleeps | Src/w5500.cpp:619-671 | Data arriving anywhere in the stale window, with the Sn_IR write in flight or waiting, has neither flag, mirrored size nor pending check once that write completes, whatever lies between |
| Limits.WindowOpens | Src/w5500.cpp:619-671 | In one step a socket whose unread data is announced, or that has none, stops being so if and only if data arrives in the stale window |
| Limits.DozingEndsInSleep | Src/w5500.cpp:661-671 | Late data stays in the window under every event but the completion of that acknowledgement, which puts the socket to sleep |
| Reach.WindowReached | Src/w5500.cpp:619-683 | A run from opened sockets reaches the stale window with data able to arrive |
| Reach.SleepReached | Src/w5500.cpp:619-683 | A run in which nothing has gone wrong ends with unread data and a sleeping socket |
| RingAlloc.AllocateSafeIffNotFull | Src/w5500.cpp:338-415 | A successful placement overlaps no live segment if and only if the ring was not exactly full |
| RingAlloc.PlaceFoundIff | Src/w5500.cpp:338-415 | In a ring that is not exactly full the answer is the newest end if a segment there continues the layout, else the start of the buffer if one there does, and -1 only if neither does |
| RingAlloc.FullRingPlace | Src/w5500.cpp:349-366 | An exactly full ring is answered as if both sides of the place where its ends meet were free |
| RingAlloc.AllocateKeepsLayout | Src/w5500.cpp:338-415 | A placement in a ring that is not full keeps segments in order around the ring with one wrap |
| RingAlloc.SafeRunsStayDisjoint | Src/w5500.cpp:338-415 | Over every run of placements, pops and trims without exact fill, live segments stay in bounds and disjoint |
| RingAlloc.TrimKeepsLayout | Src/socket.cpp:426-437 | Moving the start of the oldest segment forward keeps the layout |
| RingAlloc.FullRingOverlaps | Src/w5500.cpp:349-366 | A concrete run with an exact fill puts two live segments on the same bytes |
| ReachSend.ExactFillReached | Src/w5500.cpp:349-366 | A run of the whole system with no lost command and no failed poll in which an exact fill makes the chip send the fourth accepted payload in place of the second |
| RingAlloc.IndexInside | Src/w5500.cpp:338-372 | In buffers of at most 32767 bytes the answer is -1 or a place inside the buffer |
| RingAlloc.InsideIffShort | Src/w5500.cpp:338-415 | For arbitrary laid-out rings, also ones that no use produces: all answers are -1 or places inside the buffer if and only if it has at most 32767 bytes |
| RingLengths.NeverEscapesIff | Src/w5500.cpp:338-415 | Over every use of one buffer from the empty queue on, with placements of at most the chip memory and three bytes: all answers are -1 or places inside the buffer if and only if its length is at most 32767 or exceeds 32767 by more than the largest placement |
| RingLengths.EscapeReached | Src/w5500.cpp:338-372 | For every length in between, a use of the buffer after which the next placement is answered with -32768 |
| Spi.CrTestExact | Src/w5500.cpp:443-444 | The test on the header bytes recognises exactly the writes to the command registers of the eight sockets |
| Spi.HeaderRoundTrip | Src/w5500.cpp:798-845 | The chip takes from a header the address, block and direction that were put into it |
| Spi.ControlBytes | Inc/w5500_macros.h:49-57 | The control byte of every kind of transfer of every socket, as a number |
| Queues.Queue.PushBack | Inc/queue.hpp:188-203 | Appends unless full and reports whether the first-push callback is due |
| Queues.Queue.PushFront | Inc/queue.hpp:205-220 | Prepends unless full and reports whether the first-push callback is due |
| Queues.Queue.PopFront | Inc/queue.hpp:222-231 | Removes and returns the front element, or nothing when empty |
| Queues.Queue.PopBack | Inc/queue.hpp:233-242 | Removes and returns the back element, or nothing when empty |
| Queues.Queue.PeekFront | Inc/queue.hpp:244-251 | The front element, if any |
| Queues.Queue.PeekBack | Inc/queue.hpp:253-261 | The back element, if any |
| Queues.Queue.Clear | Inc/queue.hpp:280-287 | Empties the queue |
| Driver.W5500.StartNext | Src/w5500.cpp:422-544 | Pops the next command and starts it, a poll, or nothing; read-back and re-queued writes go to the front; a refused transfer is put back |
| Driver.W5500.KickStart | Src/w5500.cpp:417-420 | Starts the next command only when none is running |
| Driver.W5500.HandleSpiFailure | Src/w5500.cpp:319-330 | Puts the running command back in front, or counts it as lost |
| Driver.W5500.SendPending | Src/w5500.cpp:700-750 | Pushes the batch of the oldest segment when nothing is being sent, the socket is open and the chip has room |
| Driver.W5500.ReceivePending | Src/w5500.cpp:753-796 | Reserves a place and pushes the receive batch when data is mirrored and none is being received; only the index -1 counts as no space |
| Driver.W5500.DmaRxComplete | Src/w5500.cpp:546-697 | Deals with the finished read according to the running command |
| Driver.W5500.HandleSoc | Src/w5500.cpp:596-671 | Receives, drops the sent segment and sends the next, and queues the acknowledgement in front |
| Driver.W5500.ReadSocs | Src/w5500.cpp:578-593 | Queues a READ_SOC in front for every flagged socket |
| Driver.W5500.TransferComplete | Src/w5500.cpp:275-297 | Deals with a finished transfer and starts the next command |
| Driver.W5500.TimerCallback | Src/w5500.cpp:851-885 | Restarts a stalled queue, then queues a free-space check per established socket and a read of the interrupt register |
| Driver.W5500.InterruptCallback | Src/w5500.cpp:253-269 | Queues a read of the interrupt register in front: with room in the queue it comes before everything that has not started |
| Driver.W5500.EnqueueSetReg | Src/w5500.cpp:181-194 | Queues a register write if and only if it has at most 7 bytes and the queue has room, and says so |
| Driver.W5500.EnqueueGetReg | Src/w5500.cpp:197-210 | Queues a register read if and only if it has at most 7 bytes and the queue has room, and says so |
| Driver.W5500.Send | Src/socket.cpp:220-264 | Checks, places and queues a payload and tries to send; every error code as in the source |
| Driver.W5500.SendTo | Src/socket.cpp:276-322 | The same for a datagram with its destination |
| Driver.W5500.Recv | Src/socket.cpp:331-371 | Returns the payloads of the longest beginning of the receive queue that fits, drops those segments and asks for more data |
| Driver.W5500.RecvFrom | Src/socket.cpp:382-448 | Takes one record off the front segment and asks for more data |
| Sockets.PlaceFor | Src/w5500.cpp:338-415 | The place found from the two ends of a segment queue: the newest end if it is free, else the start of the buffer, else -1 |
| Sockets.Socket.Enqueue | Src/socket.cpp:235-251 | Places a payload in the send buffer and queues its segment with 16-bit ends; all other bytes and segments stay; only the index -1 counts as no space |
| Sockets.Socket.CopyOut | Src/socket.cpp:338-365 | Returns the payloads of the longest beginning of the receive queue that fits and drops exactly those segments |
| Calls.RecvHandsOut | Src/socket.cpp:331-371 | What recv returns is the payloads of the first k queued segments, at most the room given; those segments and no others are gone; the next payload would not fit; other sockets are untouched |
| Calls.SendAnswers | Src/socket.cpp:220-264 | Which code send returns: INVALID_PARAM, INVALID_STATE, PACK_TOO_LRG for a payload beyond the chip memory or the buffer, TXBUF_FULL when no place continues the layout, QUEUE_FULL with 15 payloads queued, else SOCK_OK |
| Calls.SendToAnswers | Src/socket.cpp:276-322 | The same for sendto, with its port and status |
| Sockets.Socket.TakeDatagram | Src/socket.cpp:393-443 | Pops the front segment and pushes its rest back when another record is left; a record that does not fit leaves everything |
| Sockets.Socket.BufferRead | Src/w5500.cpp:553-576 | Puts the fetched bytes in place and queues their segment unless the queue is full |
| Sockets.Socket.PopSent | Src/w5500.cpp:650-657 | Drops the oldest segment, if any, and ends the sending state |
| Sockets.Socket.ClearSends | Src/w5500.cpp:629-634 | Empties the send queue and ends the sending state |
| Scheduling.StartPending | Src/w5500.cpp:422-544 | Starting a command leaves the pending list as it is but for the read-back behind a command-register write |
| Scheduling.FailurePending | Src/w5500.cpp:319-330 | After a failure outside a poll nothing is in flight and the pending list is as it was, or, with a full queue, its first command is counted as lost |
| Scheduling.PushBackPending | Src/w5500.cpp:700-796 | A back push appends any command to the pending list; on an idle driver it also starts it, and a command-register write then gets its read-back |
| Scheduling.PushFrontPending | Src/w5500.cpp:253-269 | A front push that finds room goes before every pending command when nothing is in flight or a poll is, and else right behind the one in flight; nothing else moves |
| RxSteps.ReceivePlanKeeps | Src/w5500.cpp:753-796 | Reserving a place and queuing the receive batch keeps the socket's invariant |
| RxSteps.BufferBrings | Src/w5500.cpp:834-845 | A READ_BUF with the header written for it brings the unread bytes from the read pointer on, also across the 16-bit wrap |
| RxSteps.ReadBufKeeps | Src/w5500.cpp:553-576 | The fetched bytes become the newest segment and no other segment changes |
| RxSteps.RxRdKeeps | Src/w5500.cpp:771-778 | The Sn_RX_RD write moves the chip's pointer past the fetched bytes |
| RxSteps.CheckRcvIsLast | Src/w5500.cpp:672-683 | The size is sampled when the chip has released what was fetched |
| RxSteps.CheckRcvKeeps | Src/w5500.cpp:672-683 | The end of a batch keeps the socket's invariant |
| RxSteps.RecvCopyConserves | Src/socket.cpp:338-365 | The bytes that recv returns are exactly the payloads that leave the queue |
| TxSteps.EnqueueKeeps | Src/socket.cpp:233-251 | A new payload is stored clear of every queued one |
| TxSteps.SendPlanKeeps | Src/w5500.cpp:700-750 | Queuing the send batch and writing the header spoils no queued payload |
| TxSteps.BufferLands | Src/w5500.cpp:822-832 | A WRITE_BUF puts the payload just after what was written, also across the 16-bit wrap |
| TxSteps.TxWriteKeeps | Src/w5500.cpp:715-738 | Each transfer of the send batch brings the head payload and its destination one stage further |
| TxSteps.PayloadSparesUnsent | Src/w5500.cpp:710-713 | The free-space check keeps a payload off every byte not freed |
| TxSteps.SentKeepsTx | Src/w5500.cpp:649-659 | Dropping the sent segment confirms exactly the payload that was sent |
| RegSteps.CrStartsOnFree | Src/w5500.cpp:441-479 | Whenever a command-register write may start, the chip's register is free |
| RegSteps.CommandOrderedKeeps | Src/socket.cpp:118-199 | A task's CONNECT, DISCON or CLOSE in the command register disturbs no batch of its socket |
| RegSteps.MirrorKeeps | Src/w5500.cpp:578-593 | Reading all registers of a socket refreshes its mirrors without harm to transfers under way |
| RegSteps.SocKeeps | Src/w5500.cpp:596-671 | READ_SOC as a whole keeps the socket's invariant |
| RegSteps.ClearKeeps | Src/w5500.cpp:661-671 | Clearing acknowledged flags loses no flag that nobody has acted on |
| UdpSteps.DatagramTaken | Src/socket.cpp:393-443 | A record that fits the caller's buffer is returned with its source and the segment goes exactly when it was the last; one that does not fit changes nothing |
| UdpSteps.SegmentDrained | Src/socket.cpp:393-443 | A segment of any well-formed records is returned record by record in order and dropped with the last, not before |
| UdpSteps.RecvFromKeeps | Src/socket.cpp:382-448 | Taking a record keeps the socket's invariant, record boundaries included |
| Records.ParseSerial | Src/socket.cpp:396-424 | Any datagrams with non-empty data are read back from their records |
| Records.WholeJoin | Src/socket.cpp:396-424 | Reading concatenated record streams concatenates the datagrams |
| ChipSteps.ChipKeeps | Src/w5500.cpp:596-692 | The chip's own events keep the socket's invariant |
| Invariant.StartKeeps | Src/w5500.cpp:422-544 | Starting the next command keeps the invariant |
| ReadCompletion.SocHandled | Src/w5500.cpp:596-671 | READ_SOC pushes its batches behind everything and its acknowledgement before everything |
| ReadCompletion.PushSocsAdds | Src/w5500.cpp:578-593 | READ_SIR puts one READ_SOC per flagged socket in front of the queue |
| DnsName.IsValidHostname | Src/dns_client.c:102-130 | Accepts exactly the names of 1 to 253 characters whose labels are 1 to 63 letters, digits or hyphens |
| DnsName.EncodeName | Src/dns_client.c:135-167 | Writes the wire form of an accepted name, len+2 bytes, and nothing for any other |
| DnsName.WireLength | Src/dns_client.c:147-164 | The wire form is two octets longer than the name |
| DnsName.DecodeName | Src/dns_client.c:172-215 | On any bytes, ends, writes at most name_len-1 characters and a zero, leaves the rest of the buffer alone, and tells when the source would read behind its buffer |
| DnsName.DecodeResolves | Src/dns_client.c:172-215 | Any name in the packet, compressed or not, that is reached over fewer than ten pointers and fits is decoded as its labels joined by dots, with the offset that skipping finds |
| DnsName.DecodeTruncates | Src/dns_client.c:202-212 | Any such name that does not fit is decoded up to the last character that fits |
| DnsName.EscapesIffAtEdge | Src/dns_client.c:172-215 | A byte behind the buffer is read if and only if the walk reaches the last octet of a packet that fills the buffer and finds a pointer there |
| DnsName.EscapesSomewhere | Src/dns_client.c:189-197 | Some offset leads there if and only if the packet fills the buffer and ends in an octet of at least 192 |
| DnsName.DecodeWire | Src/dns_client.c:172-215 | An uncompressed name that fits is read as its labels joined by dots, with the offset just past it |
| DnsName.NameRoundTrip | Src/dns_client.c:135-215 | Every accepted hostname survives encoding and decoding anywhere in a packet; its wire form has at most 255 octets |
| DnsName.JoinSplit | Src/dns_client.c:151-161 | Splitting a name at its dots and joining the labels gives the name back |
| DnsName.SkipName | Src/dns_client.c:274-305 | Finds the offset after a name, or the error |
| DnsName.DecodeAgreesWithSkip | Src/dns_client.c:172-305 | Decoding leaves the offset that skipping finds, whenever the skip succeeds and the labels before the first pointer fit |
| DnsMessage.Client.GenerateId | Src/dns_client.c:94-97 | Identifiers count up and wrap at 16 bits |
| DnsMessage.Client.BuildQuery | Src/dns_client.c:220-269 | Leaves in the buffer, octet by octet, the identifier, the flags 0x0100, one question and no records, a name that the decoder reads as the hostname, the type and class 1, or refuses the name; an identifier is used up either way |
| DnsMessage.QueryLength | Src/dns_client.c:220-269 | A query is len+18 bytes long and fits the packet buffer |
| DnsMessage.Parse | Src/dns_client.c:310-415 | The parsing loops do what the parsing function says, errors included |
| DnsMessage.ResponseCodes | Src/dns_client.c:333-344 | NAME_NOT_FOUND is reported if and only if the response code is 3, SERVER_ERROR if and only if it is another one but 0, INVALID_PARAM for a message without a whole header |
| DnsMessage.TruncatedRefused | Src/dns_client.c:364-388 | A packet that ends inside an announced record, at whatever octet, is malformed |
| DnsMessage.ResponseUnderstood | Src/dns_client.c:310-415 | For any well-formed response with code 0 and one question or none: header, address and time to live of the first 4-byte A record, presence and time to live of the first CNAME record, absence reported as absence; and its target, compressed or not, if the decoder can follow it over fewer than ten pointers, it fits and has no zero octet |
| DnsMessage.AnswersUnderstood | Src/dns_client.c:364-411 | For any well-formed answer section, from any state of the response: the first address, and the first alias with the name decoded at its data |
| DnsMessage.ResponseEscapes | Src/dns_client.c:310-415 | A 512-byte response with one alias record is accepted although decoding its target reads behind the buffer |
| DnsMessage.PlainAlias | Src/dns_client.c:393-405 | The target of a first CNAME record that is uncompressed and fits is one that the decoder can follow |
| DnsMessage.RecordFields | Src/dns_client.c:376-391 | The fields of a serialised record are read where the parser looks for them |
| WebSocket.MaskPayload | Src/websocket_client.c:595-599 | Combines each payload octet in place, bit by bit by exclusive or, with the key octet whose turn it is, and changes nothing else |
| WebSocket.XorIsExclusiveOr | Src/websocket_client.c:595-599 | A bit of a masked octet is set if and only if it is set in exactly one of the octet and the key octet |
| WebSocket.MaskingUndoesItself | Src/websocket_client.c:595-599 | Masking twice with one key is the identity |
| WebSocket.CreateFrameHeader | Src/websocket_client.c:567-591 | Writes opcode, length in 7 or 16 bits and key, and returns the length written |
| WebSocket.HeaderLenAgrees | Src/websocket_client.c:191-196 | The header length computed beforehand is the length written |
| WebSocket.FrameOnWire | Src/websocket_client.c:567-591 | A frame has FIN set, no reserved bit, the opcode, the MASK bit, the shortest length, the key and the payload masked with it bit by bit |
| WebSocket.SendFrame | Src/websocket_client.c:174-216 | What is handed to send is the frame of the payload as RFC 6455 lays it out, masked bit by bit, contiguous and complete exactly up to 65527 payload bytes |
| WebSocket.Process | Src/websocket_client.c:323-383 | Parses one received chunk, copies a text or binary payload to the caller and unmasks it there; leaves the buffer alone otherwise |
| WebSocket.FrameReceived | Src/websocket_client.c:335-383 | Any frame, whatever its FIN and reserved bits and however its length is written, is received: payload handed over unmasked, refused for want of room, or passed over by its opcode |
| WebSocket.FrameRoundTrip | Src/websocket_client.c:335-383 | Any text or binary frame that the sender writes, masked or not, is received with its opcode and payload |
| WebSocket.IncompleteRefused | Src/websocket_client.c:329-369 | No proper non-empty beginning of any such frame is taken for a frame |
| WebSocket.LongFrameRefused | Src/websocket_client.c:352-354 | A frame with a 64-bit length is refused |
| Base64.Encode | Src/websocket_client.c:508-523 | Writes the encoding, with the 16-bit output index of the source |
| Base64.EncodedLength | Src/websocket_client.c:508-523 | 4 characters for every 3 bytes begun, all from the alphabet or padding |
| Base64.RoundTrip | Src/websocket_client.c:508-523 | A reference decoder recovers every input |
| Base64.Injective | Src/websocket_client.c:508-523 | Different inputs have different encodings |
| Base64.FitsExactly | Src/websocket_client.c:508-523 | The whole encoding is written if and only if the input has at most 49152 bytes |

## Left out

- The buffers of callers and the inline bytes of commands are values; sharing of one buffer between sockets is excluded.
- Socket buffers of more than 32767 bytes occur in no run of the whole system, see RingLengths.NeverEscapesIff; the methods cover them, without the memory outside a buffer.
- Theorems.TransmitStream: a TCP timeout ends the run; what it does to its socket is said by Starting.TcpTimeoutDrops.
- Theorems.NoLostWakeup: that the announced data is fetched in the end is not claimed, because the poll of a busy command register can go on for ever.
- DnsMessage.ResponseUnderstood: only the first question is skipped, as in the source; responses with several questions are covered by DnsMessage.Parse alone.
- DnsName.DecodeName: what the source does after reading behind its buffer is undefined, so the method stops there; DnsMessage.Parse then reports an alias without a name.
- Bytes outside a socket's buffers, the register bytes overwritten by the three header bytes of READ_SOC, and the counters commandRetries and spiErrCount.
- Chip selection, DMA memory, HAL status values other than accepted or refused, and FreeRTOS primitives.
- initWizchip, setWiznetHardware, socket, connect, close and disconnect with their polling loops, except for the command-register writes of the last three; OPEN and re-opening a socket during a run.
- Socket callbacks into the application, getters, setters, error strings and logging.
- The retry and timeout loops of _dns_query, all of Src/udp_client.c and Src/ntp_client.c.
- The WebSocket handshake text, connection states, control frames and their replies, and several frames in one chunk; the masking key comes in as a parameter instead of from the random source.
