# udp-test: a Dafny model of the console UDP sender and receiver

udp-test is a small Java console program. It binds a UDP receiver to one
local port. Every datagram that arrives is handed to a listener, which prints
it as UTF-8 text. The program then reads console lines. A line that starts
with `/` is a command (`quit`, `start-sender`, `stop-sender`, or anything
else, which is reported as invalid). A blank line does nothing. Any other
line is sent as one UTF-8 datagram to a fixed destination, through a second
channel bound to a sender port.

This project models three pieces of the program in Dafny and proves
properties about them:

- `input.dfy` (module `InputParsing`) models `Main.parseInputType`, including
  Java's `String.trim()`, the command table and its first-match lookup.
- `receiver.dfy` (module `DataReceiver`) models `DataReceiverService`: its
  `Result` values, `startService`, `endServiceImmediately`, `onError`,
  `closeChannel` and the self-resubmitting receive task.
- `sender.dfy` (module `DataSender`) models `DataSenderService`:
  `startService`, `sendMessage` with its queued task and its `onError`
  lambda, `endServiceImmediately` and `closeChannel`.
- `mainloop.dfy` (module `MainLoop`) models one turn of the console loop in
  `Main.main`, the dispatch from the parsed line to the two services.
- `bytebuffer.dfy` (module `ByteBuffers`) models the part of
  `java.nio.ByteBuffer` the services use, over an `array<byte>`.
- `utf8.dfy` (module `Utf8`) models `String.getBytes(UTF_8)` and its inverse.
- `wire.dfy` (module `Wire`) holds the shared vocabulary: bytes, channels,
  socket outcomes and the exceptions a task lets escape.

Each service is modelled twice. A value datatype (`ReceiverState`,
`SenderState`) holds the service's fields. Each Java method is a function on
that datatype, and lemmas state what follows from several calls. A class
(`DataReceiverService`, `DataSenderService`) holds the same fields as
mutable state. Its methods are proved to change that state exactly as the
matching function says.

The socket is not modelled. Every call that may fail (`DatagramChannel.open`,
`bind`, `receive`, `send`, `close`) takes its outcome as a parameter, so every
outcome is covered. The single-thread executor is the FIFO queue `pending`.
`RunNextTask` takes the head task and runs it. What the listeners and
callbacks are told is kept in append-only logs: `delivered` for the receiver,
`notified` for the sender. What the sender puts on the wire is kept in
`transmitted`.

The model keeps these behaviours of the code as written:

- `onError` in the receiver closes an open channel first, and closing clears
  the listener. So an `Error` result reaches the listener only when the
  channel was already closed. In the model, where operations do not
  overlap, that means only when `DatagramChannel.open` fails. In the
  running program a receive interrupted by a close from the main thread can
  also deliver one (see "## Left out").
- A receive or send task that is still queued after the service stopped
  dereferences the null channel. It throws `NullPointerException`, which
  ends that task; the executor keeps it in a `Future` that nobody reads and
  goes on to the next task.
- A sender whose `bind` fails throws `DataSenderException`, but the opened
  channel stays assigned. The service then reports itself started.
- A successful send tells the completion callback nothing.
- A message whose UTF-8 bytes exceed the 1024-byte buffer throws
  `BufferOverflowException` out of the task. No callback is told, nothing
  is sent and the channel stays as it was.
- A datagram longer than 1024 bytes is cut to its first 1024 bytes.
- Stopping a service does not withdraw its queued tasks. In the model, a
  receiver that is stopped and started again therefore holds two receive
  tasks if its receive task was still queued when it stopped. In the
  running program the task usually waits inside `receive`; the close makes
  that receive fail, and the task is not resubmitted.

## Model

| member | source | states |
|---|---|---|
| `InputParsing.SkipLeading` | src/main/java/main/Main.java:134 | the first scan of `String.trim()`: every char it steps over is a char up to U+0020, and it stops at the end or at the first char above U+0020 |
| `InputParsing.SkipTrailing` | src/main/java/main/Main.java:134 | the second scan of `String.trim()`: every char it steps back over is a char up to U+0020, it never passes the first scan's stop, and it stops after a char above U+0020 unless it reaches that stop |
| `InputParsing.Trim` | src/main/java/main/Main.java:143 | `String.trim()`: the result is never longer than the input, it is empty exactly when the input is blank, and otherwise it neither starts nor ends with a char up to U+0020 |
| `InputParsing.TrimIsInfix` | src/main/java/main/Main.java:134 | what `String.trim()` keeps is an infix of the input, and everything before and after it is a char up to U+0020 |
| `InputParsing.TrimIdempotent` | src/main/java/main/Main.java:134 | trimming a trimmed string changes nothing |
| `InputParsing.FirstMatch` | src/main/java/main/Main.java:136-140 | the loop over `Type.values()` stops at the first type whose raw string equals the text; no earlier type matches |
| `InputParsing.ClassifyByFirstMatch` | src/main/java/main/Main.java:136-141 | raw strings are distinct, so a type other than UNKNOWN is chosen exactly when its raw string equals the text, and UNKNOWN exactly when no other does |
| `InputParsing.ParseInputType` | src/main/java/main/Main.java:132-148 | a line is a Command exactly when it starts with `/`; the command is QUIT, START_SENDER_SERVICE or STOP_SENDER_SERVICE exactly when its raw string equals the trimmed rest, UNKNOWN exactly when none does; a line is None exactly when it does not start with `/` and is blank; otherwise it is a SendMessage carrying the untrimmed line |
| `InputParsing.ParseTrimsCommandWord` | src/main/java/main/Main.java:133-138 | example input `/ quit `: blanks between the symbol and the command word, and after it, are ignored, so it is QUIT |
| `InputParsing.ParseIsCaseSensitive` | src/main/java/main/Main.java:137 | example input `/QUIT`: the comparison with raw strings is case-sensitive, so it is UNKNOWN |
| `InputParsing.ParseLeadingBlankIsMessage` | src/main/java/main/Main.java:143-147 | example input ` /quit`: a blank before the symbol makes the line a message, sent as typed |
| `InputParsing.ParseBlankIsNone` | src/main/java/main/Main.java:143-144 | example input of a blank and a tab: the line is None |
| `InputParsing.BlankCommandMatchesUnknownEntry` | src/main/java/main/Main.java:31-41 | a bare `/` followed by blanks matches UNKNOWN's own empty raw string, the fourth table entry, so it is UNKNOWN |
| `Utf8.EncodeChar` | src/main/java/datasender/DataSenderService.java:89 | one char becomes one to four bytes; exactly the ASCII chars take one byte, which is the char's code; every later byte is a continuation byte |
| `Utf8.EncodeAppend` | src/main/java/datasender/DataSenderService.java:89 | encoding a concatenation is concatenating the encodings |
| `Utf8.Encode` | src/main/java/datasender/DataSenderService.java:89 | `getBytes(UTF_8)`: a string of n chars encodes to between n and 4n bytes |
| `Utf8.EncodeAscii` | src/main/java/datasender/DataSenderService.java:89 | an ASCII string encodes to its own char codes, one byte each |
| `Utf8.FitsBuffer` | src/main/java/datasender/DataSenderService.java:89 | a message of at most capacity/4 chars fits the buffer; one of more than capacity chars never does |
| `Utf8.DecodeEncodeChar` | src/main/java/main/Main.java:70 | decoding the head of a char's encoding, whatever follows, gives back that char and its byte count |
| `Utf8.DecodeEncode` | src/main/java/main/Main.java:70 | `new String(bytes, UTF_8)` undoes `getBytes(UTF_8)` on every string |
| `Utf8.DecodeChar` | src/main/java/main/Main.java:70 | reading one char takes one to four bytes and never reads past the end; a byte below 0x80 is its own char; a stray continuation byte is refused (Java substitutes U+FFFD) |
| `Utf8.Decode` | src/main/java/main/Main.java:70 | `new String(bytes, UTF_8)` on well-formed input: the string has at most as many chars as there are bytes, and at least a quarter as many |
| `Utf8.DecodeCharReadsEncoding` | src/main/java/main/Main.java:70 | whatever the decoder reads as one char is exactly that char's encoding, so stray or missing continuation bytes, overlong forms, surrogates and values past U+10FFFF are refused |
| `Utf8.DecodeReadsEncoding` | src/main/java/main/Main.java:70 | a byte string that decodes is the encoding of what it decodes to, so decoding is the exact inverse of encoding |
| `Utf8.DecodeRefusesMissingContinuation` | src/main/java/main/Main.java:70 | example input `C2 41`: a lead byte followed by a non-continuation byte is refused |
| `Utf8.DecodeRefusesOverlong` | src/main/java/main/Main.java:70 | example input `C1 81`: the overlong form of `A` is refused |
| `ByteBuffers.ByteBuffer.Allocate` | src/main/java/datasender/DataSenderService.java:34 | `ByteBuffer.allocate`: a fresh buffer of the given capacity, all zeros, position 0, limit at capacity |
| `ByteBuffers.ByteBuffer.Clear` | src/main/java/datasender/DataSenderService.java:88 | position 0 and limit at capacity; contents unchanged |
| `ByteBuffers.ByteBuffer.Put` | src/main/java/datasender/DataSenderService.java:89 | overflows exactly when the bytes exceed the room between position and limit, and then writes nothing; otherwise they land at the old position, which advances past them, and no other byte changes |
| `ByteBuffers.ByteBuffer.Flip` | src/main/java/datasender/DataSenderService.java:90 | the limit becomes the old position and the position 0 |
| `ByteBuffers.ByteBuffer.Receive` | src/main/java/datareceiver/DataReceiverService.java:68 | `DatagramChannel.receive` into the buffer: as many leading bytes of the datagram as fit are stored at the position, the rest are dropped, and every other byte of the buffer keeps its value |
| `ByteBuffers.ByteBuffer.Get` | src/main/java/datareceiver/DataReceiverService.java:71-72 | copies out exactly the n bytes at the position and advances the position by n |
| `DataReceiver.StartReason` | src/main/java/datareceiver/DataReceiverService.java:112-117 | the catch clauses of `startService`: a SocketException and a SecurityException each get their own message, every other IOException the last one, and only startup messages are used |
| `DataReceiver.ReceiveReason` | src/main/java/datareceiver/DataReceiverService.java:78-87 | the catch clauses of the receive task, most specific first: each closed-channel exception and the SecurityException get their own message, only other IOExceptions reach the last clause, and no startup message is used |
| `DataReceiver.Truncate` | src/main/java/datareceiver/DataReceiverService.java:68-72 | what the listener gets of a datagram is a prefix of it, no longer than the buffer, and the whole datagram whenever it fits |
| `DataReceiver.ReceiverState.CloseChannel` | src/main/java/datareceiver/DataReceiverService.java:143-153 | whether or not `close()` fails, the service is stopped and has no listener; the queue and the deliveries are unchanged |
| `DataReceiver.ReceiverState.OnError` | src/main/java/datareceiver/DataReceiverService.java:132-141 | the service ends stopped; an Error reaches the listener only if the channel was already closed, since closing an open channel clears the listener first |
| `DataReceiver.ReceiverState.StartService` | src/main/java/datareceiver/DataReceiverService.java:97-120 | a started service is unchanged; otherwise it ends started exactly when open and bind both succeed, and then holds the new channel, the new listener and one more queued receive task; an open failure leaves the listener registered and tells it the Error; a bind failure closes the channel and clears the listener before the Error is reported, so nothing is delivered |
| `DataReceiver.ReceiverState.EndServiceImmediately` | src/main/java/datareceiver/DataReceiverService.java:122-130 | the service ends stopped; a stopped one is unchanged; a started one loses its listener; queued tasks stay queued |
| `DataReceiver.ReceiverState.RunTask` | src/main/java/datareceiver/DataReceiverService.java:63-90 | on a stopped service the task throws NullPointerException and changes nothing else; a received datagram is handed, cut to the buffer, to the listener if there is one, and the task resubmits itself; a receive failure stops the service, drops the listener and is not resubmitted |
| `DataReceiver.ReceiverState.RunTasks` | src/main/java/datareceiver/DataReceiverService.java:77 | the single-thread executor running queued tasks in order: the listener log only grows, the queue never grows, and a stopped service stays stopped |
| `DataReceiver.EndTwiceIsEndOnce` | src/main/java/datareceiver/DataReceiverService.java:122-130 | ending the service a second time changes nothing |
| `DataReceiver.StartTwiceIsStartOnce` | src/main/java/datareceiver/DataReceiverService.java:97-101 | once started, a second `startService` changes nothing, whatever its listener and socket outcomes |
| `DataReceiver.ReceiveLoopDeliversEach` | src/main/java/datareceiver/DataReceiverService.java:68-77 | while receives succeed, each task run delivers exactly one Success, in arrival order, and the queue keeps its length |
| `DataReceiver.StoppedReceiverIsSilent` | src/main/java/datareceiver/DataReceiverService.java:63-68 | once stopped, running any queued tasks keeps the service stopped and delivers nothing |
| `DataReceiver.ErrorEndsReceiveLoop` | src/main/java/datareceiver/DataReceiverService.java:78-88 | a receive failure ends the one receive loop: no task is left, the service is stopped and no later outcome delivers anything |
| `DataReceiver.RestartKeepsStaleTask` | src/main/java/datareceiver/DataReceiverService.java:97-130 | stopping and restarting a running receiver leaves two receive tasks queued on the new channel |
| `DataReceiver.DataReceiverService.constructor` | src/main/java/datareceiver/DataReceiverService.java:59-61 | a new service is stopped, with no listener, no queued task and a 1024-byte buffer |
| `DataReceiver.DataReceiverService.IsStarted` | src/main/java/datareceiver/DataReceiverService.java:93-95 | started exactly when the modelled state is started |
| `DataReceiver.DataReceiverService.CloseChannel` | src/main/java/datareceiver/DataReceiverService.java:143-153 | the fields change as `ReceiverState.CloseChannel` says |
| `DataReceiver.DataReceiverService.OnError` | src/main/java/datareceiver/DataReceiverService.java:132-141 | the fields change as `ReceiverState.OnError` says |
| `DataReceiver.DataReceiverService.StartService` | src/main/java/datareceiver/DataReceiverService.java:97-120 | the fields change as `ReceiverState.StartService` says |
| `DataReceiver.DataReceiverService.EndServiceImmediately` | src/main/java/datareceiver/DataReceiverService.java:122-130 | the fields change as `ReceiverState.EndServiceImmediately` says |
| `DataReceiver.DataReceiverService.RunNextTask` | src/main/java/datareceiver/DataReceiverService.java:63-90 | clearing, receiving into, flipping and draining the shared buffer hands on exactly the truncated datagram, so the fields and the escaping exception are those of `ReceiverState.RunTask` |
| `DataSender.SenderState.CloseChannel` | src/main/java/datasender/DataSenderService.java:118-127 | whether or not `close()` fails, the service is stopped and nothing else changes |
| `DataSender.SenderState.StartService` | src/main/java/datasender/DataSenderService.java:43-64 | a started service is unchanged and nothing is thrown; otherwise the service ends started exactly when open succeeds, nothing is thrown exactly when bind succeeds too, and the thrown exception carries the failing call's cause; only the channel changes |
| `DataSender.SenderState.EndServiceImmediately` | src/main/java/datasender/DataSenderService.java:108-116 | the service ends stopped, a stopped one is unchanged, and only the channel changes |
| `DataSender.SenderState.SendMessage` | src/main/java/datasender/DataSenderService.java:70-106 | on a stopped service the callback is told IllegalState at once and nothing is queued, and a null callback throws NullPointerException; on a started one exactly one task is queued and no callback is told |
| `DataSender.SenderState.OnError` | src/main/java/datasender/DataSenderService.java:76-83 | the service ends stopped and the task's callback, if any, is told the failure; queue and wire are untouched |
| `DataSender.SenderState.RunTask` | src/main/java/datasender/DataSenderService.java:85-105 | an oversized message throws BufferOverflowException and changes nothing else, even on a stopped service; otherwise a stopped service throws NullPointerException; a successful send puts exactly the message's UTF-8 bytes on the wire to the destination and tells no callback; a failed send stops the service and tells the callback |
| `DataSender.StartReason` | src/main/java/datasender/DataSenderService.java:56-61 | the catch clauses of `startService`: a SocketException and a SecurityException each get their own message, every other IOException the last one, and only startup messages are used |
| `DataSender.SendReason` | src/main/java/datasender/DataSenderService.java:93-102 | the catch clauses of the send task, most specific first: each closed-channel exception and the SecurityException get their own message, only other IOExceptions reach the last clause, and no startup message is used |
| `DataSender.RunTaskGrowsLogs` | src/main/java/datasender/DataSenderService.java:85-105 | one send task, whatever its outcome: it leaves the front of the queue, the callback log and the wire only grow, the destination stays, a stopped service stays stopped |
| `DataSender.RunTasksDrainsFront` | src/main/java/datasender/DataSenderService.java:85 | the single-thread executor running queued send tasks in order, whatever the outcomes: tasks leave from the front of the queue and none is added, the callback log and the wire only grow, the destination never changes, and a stopped service stays stopped |
| `DataSender.TasksAt` | src/main/java/datasender/DataSenderService.java:85 | successive sends queue one task per message, in order, each with the callback |
| `DataSender.PayloadsAt` | src/main/java/datasender/DataSenderService.java:89-92 | the datagrams of a run of successful sends are one per task, each the task's UTF-8 bytes to the destination |
| `DataSender.EndTwiceIsEndOnce` | src/main/java/datasender/DataSenderService.java:108-116 | ending the service a second time changes nothing |
| `DataSender.SendMessagesQueueInOrder` | src/main/java/datasender/DataSenderService.java:70-106 | on a started service, successive `sendMessage` calls queue their tasks in call order and change nothing else |
| `DataSender.SentStep` | src/main/java/datasender/DataSenderService.java:88-92 | one successful send of a message that fits removes its task and appends its datagram |
| `DataSender.TasksTransmitInOrder` | src/main/java/datasender/DataSenderService.java:85-105 | while sends succeed, the queued messages reach the wire in queue order, and no callback is told |
| `DataSender.SendsTransmitInCallOrder` | src/main/java/datasender/DataSenderService.java:70-106 | messages sent in order on an idle started service reach the destination in that order as their UTF-8 bytes, with no completion callback |
| `DataSender.StoppedSenderIsSilent` | src/main/java/datasender/DataSenderService.java:85-92 | once stopped, running queued tasks sends nothing, tells no callback and leaves the service stopped |
| `DataSender.OversizedMessageIsDropped` | src/main/java/datasender/DataSenderService.java:88-89 | a message of more than 1024 chars throws BufferOverflowException: it is not sent, its callback is not told and the channel stays as it was |
| `DataSender.DataSenderService.constructor` | src/main/java/datasender/DataSenderService.java:37-41 | a new service is stopped, with nothing queued, told or sent, and a 1024-byte buffer |
| `DataSender.DataSenderService.IsStarted` | src/main/java/datasender/DataSenderService.java:66-68 | started exactly when the modelled state is started |
| `DataSender.DataSenderService.StartService` | src/main/java/datasender/DataSenderService.java:43-64 | the fields and the thrown exception are those of `SenderState.StartService` |
| `DataSender.DataSenderService.SendMessage` | src/main/java/datasender/DataSenderService.java:70-106 | the fields and the escaping exception are those of `SenderState.SendMessage` |
| `DataSender.DataSenderService.EndServiceImmediately` | src/main/java/datasender/DataSenderService.java:108-116 | the fields change as `SenderState.EndServiceImmediately` says |
| `DataSender.DataSenderService.CloseChannel` | src/main/java/datasender/DataSenderService.java:118-127 | the fields change as `SenderState.CloseChannel` says |
| `DataSender.DataSenderService.OnError` | src/main/java/datasender/DataSenderService.java:76-83 | the fields change as `SenderState.OnError` says |
| `DataSender.DataSenderService.RunNextTask` | src/main/java/datasender/DataSenderService.java:85-105 | clearing, filling, flipping and draining the shared buffer sends exactly the message's UTF-8 bytes, so the fields and the escaping exception are those of `SenderState.RunTask` |
| `MainLoop.Dispatch` | src/main/java/main/Main.java:86-129 | the loop goes on exactly when the line is not QUIT; a blank line changes nothing; a message is handed to the sender; QUIT stops both services; START_SENDER_SERVICE and STOP_SENDER_SERVICE act on the sender only, and a start failure is reported; UNKNOWN is reported as invalid and changes nothing |
| `MainLoop.LoopbackRoundTrip` | src/main/java/datareceiver/DataReceiverService.java:68-74 | a message that fits, sent and then received, reaches the receiver's listener as exactly its UTF-8 bytes, with the source the receive reports, and decoding them gives the message back |

## Left out

- Threads and `channelLock` are not modelled. Each operation runs whole, and
  tasks run only when `RunNextTask` is called, so every order of whole
  operations is covered but no interleaving inside one is.
- A receive blocked while another thread closes the channel is left out.
  `endServiceImmediately` and `closeChannel` do not take `channelLock`, so
  `close()` wakes the receive task before the channel and the listener are
  cleared. What the task's `onError` then sees depends on the
  interleaving. It may find the channel cleared but the listener still set,
  and deliver an Error. It may find the channel still set, and hit a
  NullPointerException in its own `closeChannel`. It may find both cleared,
  and deliver nothing. The model only covers orders of whole operations.
- The executors' `shutdown()` on QUIT (Main.java lines 111 and 113) is left
  out. So is the `RejectedExecutionException` a later submit would raise;
  the loop ends at QUIT anyway.
- Main's startup (Main.java lines 56-84) is not a member of its own. It
  prints the configuration, creates the executors and calls
  `receiverService.startService` once, which is
  `DataReceiver.ReceiverState.StartService` with the printing listener.
- The listener's and the callback's printing is left out. Listeners and
  callbacks are identities (`nat`), and what they are told is logged.
- `Configuration.java` is not part of this model. Ports and the destination
  are parameters.
- Console I/O (`Scanner`, `println`) is left out. The Japanese message texts
  become the tags `Reason` and `Report`.
- Socket addresses and channels are opaque numbers. The behaviour of the
  real socket is the outcome parameters.
- Strings are sequences of Unicode scalar values. Java strings holding lone
  UTF-16 surrogates, which `getBytes` turns into `?`, cannot be expressed.
- The contents of the shared buffer after a task are left out. Only its
  position and limit invariant is kept.
- DataReceiver.ReceiverState.CloseChannel: requires a started service. Every
  caller checks `isStarted()` first, so the NullPointerException that
  `closeChannel` would throw on a null channel is not modelled.
- DataSender.SenderState.CloseChannel: requires a started service.
  `endServiceImmediately` checks `isStarted()` first. The `onError` lambda
  calls `closeChannel()` without that check. It runs only after
  `channel.send` threw a checked exception, and a null channel would have
  thrown NullPointerException instead, so without other threads the
  channel is set there too.
- DataSender.SenderState.OnError: requires a started service. Without other
  threads, a send can only fail on an open channel.
- DataReceiver.ReceiverState.RunTask: a receive failure is only taken on an
  open channel. A task on a closed channel throws NullPointerException
  before the channel can report a failure.
- Utf8.Decode: returns None on malformed bytes, where Java's
  `new String(bytes, UTF_8)` puts U+FFFD in their place. Only the round
  trip with Encode holds for Java too; decoding a datagram cut inside a char
  is not modelled.
- Utf8.DecodeChar: returns None on a stray continuation byte, a missing
  continuation byte, an overlong form, a surrogate or a value above
  U+10FFFF, where Java's decoder consumes the malformed bytes and
  substitutes U+FFFD.
- Utf8.DecodeCharReadsEncoding: holds for the strict decoder only; Java's
  decoder also yields U+FFFD for bytes that are not the encoding of it.
- Utf8.DecodeReadsEncoding: holds for the strict decoder only; Java's
  `new String` turns any bytes into a string, not just encodings.
- Utf8.DecodeRefusesMissingContinuation: Java decodes `C2 41` to U+FFFD
  followed by `A` instead of refusing it.
- Utf8.DecodeRefusesOverlong: Java decodes `C1 81` to U+FFFD characters
  instead of refusing it.
- MainLoop.LoopbackRoundTrip: the source address the listener gets is
  whatever the receive outcome reports. Nothing ties it to the sender's
  bound port, which only the class holds, or ties the sender's destination
  to the receiver.
