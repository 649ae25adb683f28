/** DataSenderService: a UDP channel bound to a local port; each
    sendMessage queues one task on a single-thread executor that writes the
    message's UTF-8 bytes to the fixed destination through one shared
    1024-byte buffer.

    The executor is the FIFO `pending`, run one task at a time by
    RunNextTask; the completion callbacks are the append-only log
    `notified`; what reaches the network is the append-only log
    `transmitted`. */
module DataSender {
  import opened Wire
  import opened ByteBuffers
  import Utf8

  const BUFFER_SIZE: nat := 1024

  /** The identity of a Consumer<Exception> passed to sendMessage. */
  type Callback = nat

  /** The text of DataSenderException's message, one per catch clause. */
  datatype Reason =
    | CouldNotBind                // startService, SocketException
    | SecurityWhileOpening        // startService, SecurityException
    | CouldNotOpen                // startService, IOException
    | ClosedByInterruptWhileSending
    | ClosedByAnotherThread
    | SendChannelClosed
    | SecurityWhileSending
    | IOWhileSending

  datatype DataSenderException = DataSenderException(source: Cause, message: Reason)

  /** What a completion callback is given: the IllegalStateException of a
      send before start, or a DataSenderException from the task. */
  datatype SendError = IllegalState | Failure(exception: DataSenderException)

  /** One call callback.accept(error). */
  datatype Notification = Notification(callback: Callback, error: SendError)

  /** One datagram written by channel.send(buffer, destinationAddress). */
  datatype Datagram = Datagram(destination: Address, payload: seq<byte>)

  /** The task a sendMessage call submits, with what its lambda captures. */
  datatype SendTask = SendTask(message: string, completionListener: Option<Callback>)

  /** Outcome of channel.send(buffer, destinationAddress) on an open channel. */
  datatype SendOutcome = Sent | SendFailed(cause: Cause)

  /** startService either returns or throws a DataSenderException. */
  datatype StartResult = StartResult(state: SenderState, thrown: Option<DataSenderException>)

  /** The catch clauses of startService, in order: a SocketException and
      a SecurityException each have their own message, and every other
      IOException falls to the last clause. */
  function StartReason(cause: Cause): (r: Reason)
    ensures r == CouldNotBind || r == SecurityWhileOpening || r == CouldNotOpen
    ensures r == CouldNotBind <==> cause == SocketError
    ensures r == SecurityWhileOpening <==> cause == Security
  {
    match cause
    case SocketError => CouldNotBind
    case Security => SecurityWhileOpening
    case _ => CouldNotOpen
  }

  /** The catch clauses of the send task, in order, most specific first:
      each closed-channel exception has its own message, and only what no
      earlier clause catches falls to the IOException clause. */
  function SendReason(cause: Cause): (r: Reason)
    ensures r != CouldNotBind && r != SecurityWhileOpening && r != CouldNotOpen
    ensures r == ClosedByInterruptWhileSending <==> cause == ClosedByInterrupt
    ensures r == ClosedByAnotherThread <==> cause == AsynchronousClose
    ensures r == SendChannelClosed <==> cause == ClosedChannel
    ensures r == SecurityWhileSending <==> cause == Security
    ensures r == IOWhileSending <==> cause == SocketError || cause == OtherIO
  {
    match cause
    case ClosedByInterrupt => ClosedByInterruptWhileSending
    case AsynchronousClose => ClosedByAnotherThread
    case ClosedChannel => SendChannelClosed
    case Security => SecurityWhileSending
    case _ => IOWhileSending
  }

  /** The callback invocation a listener gets, if one was given. */
  function NotifyTo(callback: Option<Callback>, error: SendError): seq<Notification>
  {
    if callback.Some? then [Notification(callback.value, error)] else []
  }

  /** The service's fields, and each of its operations as a function of
      them. */
  datatype SenderState = SenderState(
    destination: Address,
    channel: Option<Channel>,
    pending: seq<SendTask>,
    notified: seq<Notification>,
    transmitted: seq<Datagram>)
  {
    /** isStarted(): the channel alone decides. */
    predicate IsStarted()
    {
      channel.Some?
    }

    /** closeChannel(): the channel is cleared whether or not close()
        throws; the failure is only logged. */
    function CloseChannel(close: CloseOutcome): (r: SenderState)
      requires IsStarted()
      ensures !r.IsStarted()
      ensures r == this.(channel := r.channel)
    {
      match close
      case Closed => this.(channel := None)
      case CloseFailed => this.(channel := None)
    }

    /** startService(). A bind failure throws but leaves the opened channel
        assigned, so the service then reports itself started. */
    function StartService(open: OpenOutcome, bind: BindOutcome): (r: StartResult)
      ensures IsStarted() ==> r == StartResult(this, None)
      ensures !IsStarted() ==> (r.state.IsStarted() <==> open.Opened?)
      ensures !IsStarted() ==> (r.thrown.None? <==> open.Opened? && bind.Bound?)
      ensures !IsStarted() && open.Opened? ==> r.state.channel == Some(open.channel)
      ensures !IsStarted() && open.OpenFailed? ==>
        r.thrown == Some(DataSenderException(open.cause, StartReason(open.cause)))
      ensures !IsStarted() && open.Opened? && bind.BindFailed? ==>
        r.thrown == Some(DataSenderException(bind.cause, StartReason(bind.cause)))
      ensures r.state == this.(channel := r.state.channel)
    {
      if IsStarted() then StartResult(this, None)
      else
        match open
        case OpenFailed(cause) =>
          StartResult(this, Some(DataSenderException(cause, StartReason(cause))))
        case Opened(ch) =>
          var withChannel := this.(channel := Some(ch));
          match bind
          case BindFailed(cause) =>
            StartResult(withChannel, Some(DataSenderException(cause, StartReason(cause))))
          case Bound =>
            StartResult(withChannel, None)
    }

    /** endServiceImmediately() */
    function EndServiceImmediately(close: CloseOutcome): (r: SenderState)
      ensures !r.IsStarted()
      ensures !IsStarted() ==> r == this
      ensures r == this.(channel := r.channel)
    {
      if IsStarted() then CloseChannel(close) else this
    }

    /** sendMessage(message, completionListener). Stopped: the callback is
        told at once and nothing is queued; a null callback then throws
        NullPointerException to the caller. Started: one task is queued and
        no callback is told yet. */
    function SendMessage(message: string, completionListener: Option<Callback>): (r: TaskResult<SenderState>)
      ensures !IsStarted() && completionListener.Some? ==>
        r.raised.None? && r.state == this.(notified := notified + [Notification(completionListener.value, IllegalState)])
      ensures !IsStarted() && completionListener.None? ==>
        r == TaskResult(this, Some(NullPointer))
      ensures IsStarted() ==>
        r.raised.None? && r.state == this.(pending := pending + [SendTask(message, completionListener)])
    {
      if !IsStarted() then
        match completionListener
        case None => TaskResult(this, Some(NullPointer))
        case Some(callback) =>
          TaskResult(this.(notified := notified + [Notification(callback, IllegalState)]), None)
      else
        TaskResult(this.(pending := pending + [SendTask(message, completionListener)]), None)
    }

    /** The onError lambda of sendMessage: close the channel, then tell the
        callback if there is one. */
    function OnError(completionListener: Option<Callback>, e: DataSenderException, close: CloseOutcome): (r: SenderState)
      requires IsStarted()
      ensures !r.IsStarted() && r.pending == pending && r.transmitted == transmitted
      ensures r.notified == notified + NotifyTo(completionListener, Failure(e))
    {
      var closed := CloseChannel(close);
      closed.(notified := notified + NotifyTo(completionListener, Failure(e)))
    }

    /** One run of the send task at the head of the queue. The message's
        bytes go into the 1024-byte buffer first, so an oversized message
        throws BufferOverflowException, which nothing catches; only then is
        the channel used, so a task left over from a stopped service throws
        NullPointerException. */
    function RunTask(outcome: SendOutcome, close: CloseOutcome): (r: TaskResult<SenderState>)
      requires |pending| > 0
      ensures var payload := Utf8.Encode(pending[0].message);
        |payload| > BUFFER_SIZE ==>
          r == TaskResult(this.(pending := pending[1..]), Some(BufferOverflow))
      ensures var payload := Utf8.Encode(pending[0].message);
        |payload| <= BUFFER_SIZE && !IsStarted() ==>
          r == TaskResult(this.(pending := pending[1..]), Some(NullPointer))
      ensures var payload := Utf8.Encode(pending[0].message);
        |payload| <= BUFFER_SIZE && IsStarted() && outcome.Sent? ==>
          r.raised.None? && r.state.channel == channel && r.state.notified == notified
          && r.state.pending == pending[1..]
          && r.state.transmitted == transmitted + [Datagram(destination, payload)]
      ensures var task := pending[0];
        |Utf8.Encode(task.message)| <= BUFFER_SIZE && IsStarted() && outcome.SendFailed? ==>
          r.raised.None? && !r.state.IsStarted()
          && r.state.pending == pending[1..] && r.state.transmitted == transmitted
          && r.state.notified == notified
               + NotifyTo(task.completionListener,
                          Failure(DataSenderException(outcome.cause, SendReason(outcome.cause))))
      ensures r.state.destination == destination
    {
      var task := pending[0];
      var taken := this.(pending := pending[1..]);
      var payload := Utf8.Encode(task.message);
      if |payload| > BUFFER_SIZE then
        TaskResult(taken, Some(BufferOverflow))
      else if !IsStarted() then
        TaskResult(taken, Some(NullPointer))
      else
        match outcome
        case Sent =>
          TaskResult(taken.(transmitted := transmitted + [Datagram(destination, payload)]), None)
        case SendFailed(cause) =>
          TaskResult(taken.OnError(task.completionListener, DataSenderException(cause, SendReason(cause)), close), None)
    }

    /** The executor running queued tasks in order, one outcome per task,
        until the outcomes or the queue run out. */
    function RunTasks(outcomes: seq<SendOutcome>, close: CloseOutcome): SenderState
      decreases |outcomes|
    {
      if outcomes == [] || pending == [] then this
      else RunTask(outcomes[0], close).state.RunTasks(outcomes[1..], close)
    }

    /** sendMessage called once per message, in order, with one callback. */
    function SendMessages(messages: seq<string>, completionListener: Option<Callback>): SenderState
      decreases |messages|
    {
      if messages == [] then this
      else SendMessage(messages[0], completionListener).state.SendMessages(messages[1..], completionListener)
    }
  }

  /** The tasks that successive sendMessage calls queue. */
  function Tasks(messages: seq<string>, completionListener: Option<Callback>): seq<SendTask>
  {
    if messages == [] then [] else [SendTask(messages[0], completionListener)] + Tasks(messages[1..], completionListener)
  }

  /** Successive sends queue one task per message, in message order, each
      carrying the one callback. */
  lemma {:induction false} TasksAt(messages: seq<string>, completionListener: Option<Callback>)
    ensures var tasks := Tasks(messages, completionListener);
      |tasks| == |messages|
      && forall k :: 0 <= k < |tasks| ==> tasks[k] == SendTask(messages[k], completionListener)
    decreases |messages|
  {
    if messages != [] {
      TasksAt(messages[1..], completionListener);
    }
  }

  /** The datagrams that the given tasks put on the wire when every send
      succeeds. */
  function Payloads(destination: Address, tasks: seq<SendTask>): seq<Datagram>
  {
    if tasks == [] then []
    else [Datagram(destination, Utf8.Encode(tasks[0].message))] + Payloads(destination, tasks[1..])
  }

  /** Payloads holds one datagram per task, in task order. */
  lemma {:induction false} PayloadsAt(destination: Address, tasks: seq<SendTask>)
    ensures |Payloads(destination, tasks)| == |tasks|
    ensures forall k :: 0 <= k < |tasks| ==>
      Payloads(destination, tasks)[k] == Datagram(destination, Utf8.Encode(tasks[k].message))
  {
    if tasks != [] {
      PayloadsAt(destination, tasks[1..]);
    }
  }

  /** The datagrams of messages queued by one callback, in message order. */
  lemma PayloadsOfMessages(destination: Address, messages: seq<string>, completionListener: Option<Callback>)
    ensures var sent := Payloads(destination, Tasks(messages, completionListener));
      |sent| == |messages|
      && forall k :: 0 <= k < |messages| ==> sent[k] == Datagram(destination, Utf8.Encode(messages[k]))
  {
    var tasks := Tasks(messages, completionListener);
    TasksAt(messages, completionListener);
    PayloadsAt(destination, tasks);
    forall k | 0 <= k < |messages|
      ensures Payloads(destination, tasks)[k] == Datagram(destination, Utf8.Encode(messages[k]))
    {
      assert tasks[k].message == messages[k];
    }
  }

  predicate AllFit(tasks: seq<SendTask>)
  {
    forall k :: 0 <= k < |tasks| ==> |Utf8.Encode(tasks[k].message)| <= BUFFER_SIZE
  }

  /** endServiceImmediately() twice is the same as once. */
  lemma EndTwiceIsEndOnce(s: SenderState, first: CloseOutcome, second: CloseOutcome)
    ensures s.EndServiceImmediately(first).EndServiceImmediately(second) == s.EndServiceImmediately(first)
  {
  }

  /** Messages that each fit the buffer make tasks that all fit it. */
  lemma TasksOfMessagesFit(messages: seq<string>, completionListener: Option<Callback>)
    requires forall k :: 0 <= k < |messages| ==> |Utf8.Encode(messages[k])| <= BUFFER_SIZE
    ensures AllFit(Tasks(messages, completionListener))
  {
    var tasks := Tasks(messages, completionListener);
    TasksAt(messages, completionListener);
    forall k | 0 <= k < |tasks|
      ensures |Utf8.Encode(tasks[k].message)| <= BUFFER_SIZE
    {
      assert tasks[k].message == messages[k];
    }
  }

  /** On a started service, successive sendMessage calls queue one task
      each, in call order, and tell no callback. */
  lemma {:induction false} SendMessagesQueueInOrder(s: SenderState, messages: seq<string>, completionListener: Option<Callback>)
    requires s.IsStarted()
    ensures var r := s.SendMessages(messages, completionListener);
      r == s.(pending := s.pending + Tasks(messages, completionListener))
    decreases |messages|
  {
    if messages != [] {
      var task := SendTask(messages[0], completionListener);
      var rest := Tasks(messages[1..], completionListener);
      var next := s.(pending := s.pending + [task]);
      SendMessagesStep(s, messages, completionListener);
      SendMessagesQueueInOrder(next, messages[1..], completionListener);
      assert Tasks(messages, completionListener) == [task] + rest;
      assert (s.pending + [task]) + rest == s.pending + ([task] + rest);
    } else {
      assert Tasks(messages, completionListener) == [];
      assert s.pending + [] == s.pending;
    }
  }

  /** One sendMessage call on a started service, then the rest. */
  lemma SendMessagesStep(s: SenderState, messages: seq<string>, completionListener: Option<Callback>)
    requires s.IsStarted() && messages != []
    ensures s.SendMessages(messages, completionListener)
      == s.(pending := s.pending + [SendTask(messages[0], completionListener)])
           .SendMessages(messages[1..], completionListener)
  {
  }


  /** The executor runs the head task, then the rest. */
  lemma RunTasksStep(s: SenderState, outcomes: seq<SendOutcome>, close: CloseOutcome)
    requires outcomes != [] && s.pending != []
    ensures s.RunTasks(outcomes, close) == s.RunTask(outcomes[0], close).state.RunTasks(outcomes[1..], close)
  {
  }

  /** One task run: the task leaves the front of the queue, the callback log
      and the wire only grow, the destination stays, a stopped service stays
      stopped. */
  lemma RunTaskGrowsLogs(s: SenderState, outcome: SendOutcome, close: CloseOutcome)
    requires s.pending != []
    ensures var next := s.RunTask(outcome, close).state;
      next.destination == s.destination && next.pending == s.pending[1..]
      && s.notified <= next.notified && s.transmitted <= next.transmitted
      && (!s.IsStarted() ==> !next.IsStarted())
  {
  }

  /** Whatever the outcomes, the executor takes tasks from the front of the
      queue and adds none; the callback log and the wire only grow; the
      destination never changes; a stopped service stays stopped. */
  lemma {:induction false} RunTasksDrainsFront(s: SenderState, outcomes: seq<SendOutcome>, close: CloseOutcome)
    ensures var r := s.RunTasks(outcomes, close);
      r.destination == s.destination
      && |r.pending| <= |s.pending| && r.pending == s.pending[|s.pending| - |r.pending|..]
      && s.notified <= r.notified && s.transmitted <= r.transmitted
      && (!s.IsStarted() ==> !r.IsStarted())
    decreases |outcomes|
  {
    if outcomes != [] && s.pending != [] {
      var next := s.RunTask(outcomes[0], close).state;
      RunTasksStep(s, outcomes, close);
      RunTaskGrowsLogs(s, outcomes[0], close);
      RunTasksDrainsFront(next, outcomes[1..], close);
      var r := next.RunTasks(outcomes[1..], close);
      assert s.RunTasks(outcomes, close) == r;
      assert r.destination == s.destination;
      assert s.notified <= next.notified <= r.notified;
      assert s.transmitted <= next.transmitted <= r.transmitted;
      assert next.pending == s.pending[1..];
      assert r.pending == next.pending[|next.pending| - |r.pending|..];
      assert r.pending == s.pending[|s.pending| - |r.pending|..];
    }
  }


  /** One successful send of a message that fits. */
  lemma SentStep(s: SenderState, close: CloseOutcome)
    requires s.IsStarted() && |s.pending| > 0 && |Utf8.Encode(s.pending[0].message)| <= BUFFER_SIZE
    ensures s.RunTask(Sent, close).state
      == s.(pending := s.pending[1..],
            transmitted := s.transmitted + [Datagram(s.destination, Utf8.Encode(s.pending[0].message))])
  {
  }

  /** While every send succeeds, the executor puts the queued messages on
      the wire in queue order, each as exactly its UTF-8 bytes, and tells no
      callback. */
  lemma {:induction false} TasksTransmitInOrder(s: SenderState, outcomes: seq<SendOutcome>, close: CloseOutcome)
    requires s.IsStarted() && AllFit(s.pending) && |outcomes| == |s.pending|
    requires forall k :: 0 <= k < |outcomes| ==> outcomes[k].Sent?
    ensures var r := s.RunTasks(outcomes, close);
      r.channel == s.channel && r.pending == [] && r.notified == s.notified
      && r.transmitted == s.transmitted + Payloads(s.destination, s.pending)
    decreases |outcomes|
  {
    if outcomes != [] {
      assert outcomes[0] == Sent;
      SentStep(s, close);
      var next := s.RunTask(Sent, close).state;
      var first := Datagram(s.destination, Utf8.Encode(s.pending[0].message));
      RunTasksStep(s, outcomes, close);
      assert AllFit(next.pending) by {
        forall k | 0 <= k < |next.pending|
          ensures |Utf8.Encode(next.pending[k].message)| <= BUFFER_SIZE
        {
          assert next.pending[k] == s.pending[k + 1];
        }
      }
      TasksTransmitInOrder(next, outcomes[1..], close);
      var r := next.RunTasks(outcomes[1..], close);
      assert next.pending == s.pending[1..] && next.destination == s.destination;
      assert Payloads(s.destination, s.pending) == [first] + Payloads(s.destination, s.pending[1..]);
      assert r.transmitted == s.transmitted + [first] + Payloads(s.destination, s.pending[1..]);
    } else {
      assert s.pending == [];
    }
  }

  /** A started service whose queue holds one task per message, every one
      fitting the buffer, puts the messages' UTF-8 bytes on the wire in
      message order when every send succeeds. */
  lemma QueuedMessagesTransmitInOrder(q: SenderState, messages: seq<string>, completionListener: Option<Callback>,
                                      outcomes: seq<SendOutcome>, close: CloseOutcome)
    requires q.IsStarted() && q.pending == Tasks(messages, completionListener)
    requires forall k :: 0 <= k < |messages| ==> |Utf8.Encode(messages[k])| <= BUFFER_SIZE
    requires |outcomes| == |messages| && forall k :: 0 <= k < |outcomes| ==> outcomes[k].Sent?
    ensures var r := q.RunTasks(outcomes, close);
      r.IsStarted() && r.notified == q.notified
      && |r.transmitted| == |q.transmitted| + |messages|
      && forall k :: 0 <= k < |messages| ==>
           r.transmitted[|q.transmitted| + k] == Datagram(q.destination, Utf8.Encode(messages[k]))
  {
    TasksAt(messages, completionListener);
    TasksOfMessagesFit(messages, completionListener);
    TasksTransmitInOrder(q, outcomes, close);
    var r := q.RunTasks(outcomes, close);
    var sent := Payloads(q.destination, q.pending);
    assert r.transmitted == q.transmitted + sent;
    PayloadsOfMessages(q.destination, messages, completionListener);
    forall k | 0 <= k < |messages|
      ensures r.transmitted[|q.transmitted| + k] == Datagram(q.destination, Utf8.Encode(messages[k]))
    {
      assert r.transmitted[|q.transmitted| + k] == sent[k];
    }
  }

  /** Messages sent in order on a started, idle service reach the
      destination in that order, as their UTF-8 bytes, with no completion
      callback at all. */
  lemma SendsTransmitInCallOrder(s: SenderState, messages: seq<string>, completionListener: Option<Callback>,
                                 outcomes: seq<SendOutcome>, close: CloseOutcome)
    requires s.IsStarted() && s.pending == []
    requires forall k :: 0 <= k < |messages| ==> |Utf8.Encode(messages[k])| <= BUFFER_SIZE
    requires |outcomes| == |messages| && forall k :: 0 <= k < |outcomes| ==> outcomes[k].Sent?
    ensures var r := s.SendMessages(messages, completionListener).RunTasks(outcomes, close);
      r.IsStarted() && r.notified == s.notified
      && |r.transmitted| == |s.transmitted| + |messages|
      && forall k :: 0 <= k < |messages| ==>
           r.transmitted[|s.transmitted| + k] == Datagram(s.destination, Utf8.Encode(messages[k]))
  {
    SendMessagesQueueInOrder(s, messages, completionListener);
    var queued := s.SendMessages(messages, completionListener);
    assert [] + Tasks(messages, completionListener) == Tasks(messages, completionListener);
    assert queued == s.(pending := Tasks(messages, completionListener));
    QueuedMessagesTransmitInOrder(queued, messages, completionListener, outcomes, close);
  }


  /** Once stopped, the service stays stopped: every task still queued
      dies on the buffer or on the null channel, nothing is transmitted and
      no callback is told. */
  lemma {:induction false} StoppedSenderIsSilent(s: SenderState, outcomes: seq<SendOutcome>, close: CloseOutcome)
    requires !s.IsStarted()
    ensures var r := s.RunTasks(outcomes, close);
      !r.IsStarted() && r.notified == s.notified && r.transmitted == s.transmitted
    decreases |outcomes|
  {
    if outcomes != [] && s.pending != [] {
      StoppedSenderIsSilent(s.RunTask(outcomes[0], close).state, outcomes[1..], close);
    }
  }

  /** A message longer than the buffer never reaches the wire, and its
      callback is never told, even on a started service. */
  lemma OversizedMessageIsDropped(s: SenderState, outcome: SendOutcome, close: CloseOutcome)
    requires |s.pending| > 0 && |s.pending[0].message| > BUFFER_SIZE
    ensures var r := s.RunTask(outcome, close);
      r.raised == Some(BufferOverflow) && r.state.channel == s.channel
      && r.state.notified == s.notified && r.state.transmitted == s.transmitted
  {
    Utf8.FitsBuffer(s.pending[0].message, BUFFER_SIZE);
  }

  class DataSenderService {
    const servicePort: nat
    const destinationAddress: Address
    const buffer: ByteBuffer
    var channel: Option<Channel>
    var pending: seq<SendTask>
    var notified: seq<Notification>
    var transmitted: seq<Datagram>

    ghost predicate Valid()
      reads this, buffer
    {
      buffer.Valid() && buffer.data.Length == BUFFER_SIZE
    }

    function Model(): SenderState
      reads this
    {
      SenderState(destinationAddress, channel, pending, notified, transmitted)
    }

    constructor (servicePort: nat, destinationAddress: Address)
      ensures Valid() && fresh(buffer) && fresh(buffer.data)
      ensures this.servicePort == servicePort
      ensures Model() == SenderState(destinationAddress, None, [], [], [])
    {
      this.servicePort := servicePort;
      this.destinationAddress := destinationAddress;
      buffer := new ByteBuffer.Allocate(BUFFER_SIZE);
      channel := None;
      pending, notified, transmitted := [], [], [];
    }

    function IsStarted(): (started: bool)
      reads this
      ensures started <==> Model().IsStarted()
    {
      channel != None
    }

    method StartService(open: OpenOutcome, bind: BindOutcome) returns (thrown: Option<DataSenderException>)
      modifies this
      ensures Model() == old(Model()).StartService(open, bind).state
      ensures thrown == old(Model()).StartService(open, bind).thrown
    {
      if IsStarted() {
        return None;
      }
      match open {
        case OpenFailed(cause) =>
          return Some(DataSenderException(cause, StartReason(cause)));
        case Opened(ch) =>
          channel := Some(ch);
      }
      match bind {
        case BindFailed(cause) =>
          return Some(DataSenderException(cause, StartReason(cause)));
        case Bound =>
          return None;
      }
    }

    method SendMessage(message: string, completionListener: Option<Callback>) returns (raised: Option<Uncaught>)
      modifies this
      ensures Model() == old(Model()).SendMessage(message, completionListener).state
      ensures raised == old(Model()).SendMessage(message, completionListener).raised
    {
      if !IsStarted() {
        if completionListener == None {
          return Some(NullPointer);
        }
        notified := notified + [Notification(completionListener.value, IllegalState)];
        return None;
      }
      pending := pending + [SendTask(message, completionListener)];
      raised := None;
    }

    method EndServiceImmediately(close: CloseOutcome)
      modifies this
      ensures Model() == old(Model()).EndServiceImmediately(close)
    {
      if !IsStarted() {
        return;
      }
      CloseChannel(close);
    }

    method CloseChannel(close: CloseOutcome)
      requires IsStarted()
      modifies this
      ensures Model() == old(Model()).CloseChannel(close)
    {
      match close {
        case Closed =>
        case CloseFailed =>
      }
      channel := None;
    }

    method OnError(completionListener: Option<Callback>, e: DataSenderException, close: CloseOutcome)
      requires IsStarted()
      modifies this
      ensures Model() == old(Model()).OnError(completionListener, e, close)
    {
      CloseChannel(close);
      if completionListener != None {
        notified := notified + [Notification(completionListener.value, Failure(e))];
      }
    }

    /** The executor takes the head task and runs it: clear the shared
        buffer, put the message's UTF-8 bytes, flip, and send what lies
        between position and limit to the destination. */
    method RunNextTask(outcome: SendOutcome, close: CloseOutcome) returns (raised: Option<Uncaught>)
      requires Valid() && |pending| > 0
      modifies this, buffer, buffer.data
      ensures Valid()
      ensures Model() == old(Model()).RunTask(outcome, close).state
      ensures raised == old(Model()).RunTask(outcome, close).raised
    {
      var task := pending[0];
      pending := pending[1..];
      buffer.Clear();
      var overflow := buffer.Put(Utf8.Encode(task.message));
      if overflow {
        return Some(BufferOverflow);
      }
      buffer.Flip();
      if channel == None {
        return Some(NullPointer);
      }
      match outcome {
        case Sent =>
          var payload := buffer.Get(buffer.limit - buffer.position);
          transmitted := transmitted + [Datagram(destinationAddress, payload)];
        case SendFailed(cause) =>
          OnError(task.completionListener, DataSenderException(cause, SendReason(cause)), close);
      }
      raised := None;
    }
  }
}
