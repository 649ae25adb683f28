/** DataReceiverService: a UDP channel bound to a local port, drained by a
    receive task that resubmits itself to a single-thread executor and hands
    each datagram to a listener.

    The executor is the FIFO `pending`, run one task at a time by
    RunNextTask; the listener is the append-only log `delivered` of the
    results handed to it. Each channel operation takes its outcome as a
    parameter, so every outcome the socket may produce is covered. */
module DataReceiver {
  import opened Wire
  import opened ByteBuffers

  const BUFFER_SIZE: nat := 1024

  /** The identity of a Consumer<Result> passed to startService. */
  type Listener = nat

  /** The text of DataReceiverException's message, one per catch clause. */
  datatype Reason =
    | CouldNotBind                // startService, SocketException
    | SecurityWhileOpening        // startService, SecurityException
    | CouldNotOpen                // startService, IOException
    | ClosedByInterruptWhileReceiving
    | ClosedByAnotherThread
    | ReceiveChannelClosed
    | SecurityWhileReceiving
    | IOWhileReceiving

  datatype DataReceiverException = DataReceiverException(source: Cause, message: Reason)

  /** DataReceiverService.Result */
  datatype Result =
    | Success(sourceAddress: Address, receivedData: seq<byte>)
    | Error(error: DataReceiverException)

  /** One call listener.accept(result). */
  datatype Delivery = Delivery(listener: Listener, result: Result)

  /** The one kind of task this service submits: dataReceiverTask. */
  datatype Task = DataReceiverTask

  /** Outcome of channel.receive(buffer) on an open channel. */
  datatype ReceiveOutcome = Received(source: Address, datagram: seq<byte>) | ReceiveFailed(cause: Cause)

  /** The catch clauses of startService, in order: a SocketException and
      a SecurityException each have their own message, and every other
      IOException falls to the last clause. */
  function StartReason(cause: Cause): (r: Reason)
    ensures r == CouldNotBind || r == SecurityWhileOpening || r == CouldNotOpen
    ensures r == CouldNotBind <==> cause == SocketError
    ensures r == SecurityWhileOpening <==> cause == Security
  {
    match cause
    case SocketError => CouldNotBind
    case Security => SecurityWhileOpening
    case _ => CouldNotOpen
  }

  /** The catch clauses of dataReceiverTask, in order, most specific
      first: each closed-channel exception has its own message, and only
      what no earlier clause catches falls to the IOException clause. */
  function ReceiveReason(cause: Cause): (r: Reason)
    ensures r != CouldNotBind && r != SecurityWhileOpening && r != CouldNotOpen
    ensures r == ClosedByInterruptWhileReceiving <==> cause == ClosedByInterrupt
    ensures r == ClosedByAnotherThread <==> cause == AsynchronousClose
    ensures r == ReceiveChannelClosed <==> cause == ClosedChannel
    ensures r == SecurityWhileReceiving <==> cause == Security
    ensures r == IOWhileReceiving <==> cause == SocketError || cause == OtherIO
  {
    match cause
    case ClosedByInterrupt => ClosedByInterruptWhileReceiving
    case AsynchronousClose => ClosedByAnotherThread
    case ClosedChannel => ReceiveChannelClosed
    case Security => SecurityWhileReceiving
    case _ => IOWhileReceiving
  }

  /** What channel.receive leaves of a datagram in a buffer of the given
      capacity: its first bytes, the excess silently dropped. */
  function Truncate(datagram: seq<byte>, capacity: nat): (r: seq<byte>)
    ensures |r| <= capacity && |r| <= |datagram| && r == datagram[..|r|]
    ensures |r| == capacity || r == datagram
  {
    if |datagram| <= capacity then datagram else datagram[..capacity]
  }

  /** The delivery a listener gets, if one is registered. */
  function DeliverTo(listener: Option<Listener>, result: Result): seq<Delivery>
  {
    if listener.Some? then [Delivery(listener.value, result)] else []
  }

  /** The service's fields, and each of its operations as a function of
      them. */
  datatype ReceiverState = ReceiverState(
    channel: Option<Channel>,
    listener: Option<Listener>,
    pending: seq<Task>,
    delivered: seq<Delivery>)
  {
    /** isStarted(): the channel alone decides. */
    predicate IsStarted()
    {
      channel.Some?
    }

    /** closeChannel(): the channel and the listener are cleared whether or
        not close() throws; the failure is only logged. */
    function CloseChannel(close: CloseOutcome): (r: ReceiverState)
      requires IsStarted()
      ensures !r.IsStarted() && r.listener.None?
      ensures r.pending == pending && r.delivered == delivered
    {
      match close
      case Closed => this.(channel := None, listener := None)
      case CloseFailed => this.(channel := None, listener := None)
    }

    /** onError(): close an open channel, then report to the listener that
        is still set. Closing clears the listener, so the Error reaches a
        listener only when the channel was already closed. */
    function OnError(e: DataReceiverException, close: CloseOutcome): (r: ReceiverState)
      ensures !r.IsStarted() && r.pending == pending
      ensures r.listener == if IsStarted() then None else listener
      ensures r.delivered == delivered + if IsStarted() then [] else DeliverTo(listener, Error(e))
    {
      var closed := if IsStarted() then CloseChannel(close) else this;
      closed.(delivered := closed.delivered + DeliverTo(closed.listener, Error(e)))
    }

    /** startService(listener) */
    function StartService(l: Option<Listener>, open: OpenOutcome, bind: BindOutcome, close: CloseOutcome): (r: ReceiverState)
      ensures IsStarted() ==> r == this
      ensures !IsStarted() ==> (r.IsStarted() <==> open.Opened? && bind.Bound?)
      ensures !IsStarted() && r.IsStarted() ==>
        r.channel == Some(open.channel) && r.listener == l
        && r.pending == pending + [DataReceiverTask] && r.delivered == delivered
      ensures !IsStarted() && open.OpenFailed? ==>
        r.listener == l && r.pending == pending
        && r.delivered == delivered + DeliverTo(l, Error(DataReceiverException(open.cause, StartReason(open.cause))))
      ensures !IsStarted() && open.Opened? && bind.BindFailed? ==>
        r.listener.None? && r.pending == pending && r.delivered == delivered
    {
      if IsStarted() then this
      else
        var registered := this.(listener := l);
        match open
        case OpenFailed(cause) =>
          registered.OnError(DataReceiverException(cause, StartReason(cause)), close)
        case Opened(ch) =>
          var withChannel := registered.(channel := Some(ch));
          match bind
          case BindFailed(cause) =>
            withChannel.OnError(DataReceiverException(cause, StartReason(cause)), close)
          case Bound =>
            withChannel.(pending := pending + [DataReceiverTask])
    }

    /** endServiceImmediately() */
    function EndServiceImmediately(close: CloseOutcome): (r: ReceiverState)
      ensures !r.IsStarted()
      ensures !IsStarted() ==> r == this
      ensures IsStarted() ==> r.listener.None?
      ensures r.pending == pending && r.delivered == delivered
    {
      if IsStarted() then CloseChannel(close) else this
    }

    /** One run of dataReceiverTask, taken from the head of the queue. */
    function RunTask(outcome: ReceiveOutcome, close: CloseOutcome): (r: TaskResult<ReceiverState>)
      requires |pending| > 0
      ensures !IsStarted() ==>
        r.raised == Some(NullPointer) && r.state == this.(pending := pending[1..])
      ensures IsStarted() ==> r.raised.None?
      ensures IsStarted() && outcome.Received? ==>
        r.state.channel == channel && r.state.listener == listener
        && r.state.pending == pending[1..] + [DataReceiverTask]
        && r.state.delivered == delivered
             + DeliverTo(listener, Success(outcome.source, Truncate(outcome.datagram, BUFFER_SIZE)))
      ensures IsStarted() && outcome.ReceiveFailed? ==>
        !r.state.IsStarted() && r.state.listener.None?
        && r.state.pending == pending[1..] && r.state.delivered == delivered
    {
      var taken := this.(pending := pending[1..]);
      if !IsStarted() then
        TaskResult(taken, Some(NullPointer))
      else
        match outcome
        case Received(source, datagram) =>
          var data := Truncate(datagram, BUFFER_SIZE);
          TaskResult(
            taken.(delivered := delivered + DeliverTo(listener, Success(source, data)),
                   pending := taken.pending + [DataReceiverTask]),
            None)
        case ReceiveFailed(cause) =>
          TaskResult(taken.OnError(DataReceiverException(cause, ReceiveReason(cause)), close), None)
    }

    /** The executor running queued tasks in order, one outcome per task,
        until the outcomes or the queue run out. The listener log only
        grows, the queue never does, and a stopped service stays stopped. */
    function RunTasks(outcomes: seq<ReceiveOutcome>, close: CloseOutcome): (r: ReceiverState)
      ensures delivered <= r.delivered
      ensures |r.pending| <= |pending|
      ensures !IsStarted() ==> !r.IsStarted()
      decreases |outcomes|
    {
      if outcomes == [] || pending == [] then this
      else RunTask(outcomes[0], close).state.RunTasks(outcomes[1..], close)
    }
  }

  /** The deliveries that successive successful receives produce. */
  function Successes(l: Listener, outcomes: seq<ReceiveOutcome>): seq<Delivery>
    requires forall k :: 0 <= k < |outcomes| ==> outcomes[k].Received?
  {
    if outcomes == [] then []
    else [Delivery(l, Success(outcomes[0].source, Truncate(outcomes[0].datagram, BUFFER_SIZE)))]
         + Successes(l, outcomes[1..])
  }

  /** endServiceImmediately() twice is the same as once. */
  lemma EndTwiceIsEndOnce(s: ReceiverState, first: CloseOutcome, second: CloseOutcome)
    ensures s.EndServiceImmediately(first).EndServiceImmediately(second) == s.EndServiceImmediately(first)
  {
  }

  /** A second startService on a started service changes nothing, whatever
      the listener and the socket would do. */
  lemma StartTwiceIsStartOnce(s: ReceiverState, l1: Option<Listener>, l2: Option<Listener>,
                              open1: OpenOutcome, open2: OpenOutcome,
                              bind1: BindOutcome, bind2: BindOutcome, close: CloseOutcome)
    requires s.StartService(l1, open1, bind1, close).IsStarted()
    ensures var t := s.StartService(l1, open1, bind1, close);
      t.StartService(l2, open2, bind2, close) == t
  {
  }

  /** While the channel stays open and every receive succeeds, each task
      hands exactly one Success, truncated to the buffer, to the listener,
      in arrival order, and puts exactly one task back on the queue. */
  lemma {:induction false} ReceiveLoopDeliversEach(s: ReceiverState, l: Listener,
                                                   outcomes: seq<ReceiveOutcome>, close: CloseOutcome)
    requires s.IsStarted() && s.listener == Some(l) && |s.pending| > 0
    requires forall k :: 0 <= k < |outcomes| ==> outcomes[k].Received?
    ensures var r := s.RunTasks(outcomes, close);
      r.channel == s.channel && r.listener == s.listener && |r.pending| == |s.pending|
      && r.delivered == s.delivered + Successes(l, outcomes)
    decreases |outcomes|
  {
    if outcomes != [] {
      var first := Delivery(l, Success(outcomes[0].source, Truncate(outcomes[0].datagram, BUFFER_SIZE)));
      var next := s.RunTask(outcomes[0], close).state;
      assert next.delivered == s.delivered + [first];
      assert s.RunTasks(outcomes, close) == next.RunTasks(outcomes[1..], close);
      ReceiveLoopDeliversEach(next, l, outcomes[1..], close);
      assert Successes(l, outcomes) == [first] + Successes(l, outcomes[1..]);
    }
  }

  /** Once stopped, the service stays stopped and its listener hears
      nothing: every task still queued dies on the null channel. */
  lemma {:induction false} StoppedReceiverIsSilent(s: ReceiverState, outcomes: seq<ReceiveOutcome>, close: CloseOutcome)
    requires !s.IsStarted()
    ensures var r := s.RunTasks(outcomes, close);
      !r.IsStarted() && r.listener == s.listener && r.delivered == s.delivered
      && |r.pending| <= |s.pending|
    decreases |outcomes|
  {
    if outcomes != [] && s.pending != [] {
      StoppedReceiverIsSilent(s.RunTask(outcomes[0], close).state, outcomes[1..], close);
    }
  }

  /** A receive error ends the loop of a service that runs one receive
      task: the task is not resubmitted, the service is stopped, and no
      later outcome produces a delivery. */
  lemma ErrorEndsReceiveLoop(s: ReceiverState, outcomes: seq<ReceiveOutcome>, close: CloseOutcome)
    requires s.IsStarted() && |s.pending| == 1
    requires |outcomes| > 0 && outcomes[0].ReceiveFailed?
    ensures var r := s.RunTasks(outcomes, close);
      !r.IsStarted() && r.listener.None? && r.pending == [] && r.delivered == s.delivered
  {
  }

  /** Stopping does not withdraw the queued receive task, so stopping and
      starting again leaves two receive tasks on the new channel: "at most
      one receive loop" is not an invariant. */
  lemma RestartKeepsStaleTask(s: ReceiverState, l: Option<Listener>, ch: Channel, close: CloseOutcome)
    requires s.IsStarted() && s.pending == [DataReceiverTask]
    ensures var r := s.EndServiceImmediately(close).StartService(l, Opened(ch), Bound, close);
      r.IsStarted() && r.pending == [DataReceiverTask, DataReceiverTask]
  {
  }

  class DataReceiverService {
    const port: nat
    const buffer: ByteBuffer
    var channel: Option<Channel>
    var dataReceiverListener: Option<Listener>
    var pending: seq<Task>
    var delivered: seq<Delivery>

    ghost predicate Valid()
      reads this, buffer
    {
      buffer.Valid() && buffer.data.Length == BUFFER_SIZE
    }

    function Model(): ReceiverState
      reads this
    {
      ReceiverState(channel, dataReceiverListener, pending, delivered)
    }

    constructor (port: nat)
      ensures Valid() && fresh(buffer) && fresh(buffer.data)
      ensures this.port == port && Model() == ReceiverState(None, None, [], [])
    {
      this.port := port;
      buffer := new ByteBuffer.Allocate(BUFFER_SIZE);
      channel, dataReceiverListener := None, None;
      pending, delivered := [], [];
    }

    function IsStarted(): (started: bool)
      reads this
      ensures started <==> Model().IsStarted()
    {
      channel != None
    }

    method CloseChannel(close: CloseOutcome)
      requires IsStarted()
      modifies this
      ensures Model() == old(Model()).CloseChannel(close)
    {
      match close {
        case Closed =>
        case CloseFailed =>
      }
      channel := None;
      dataReceiverListener := None;
    }

    method OnError(e: DataReceiverException, close: CloseOutcome)
      modifies this
      ensures Model() == old(Model()).OnError(e, close)
    {
      if IsStarted() {
        CloseChannel(close);
      }
      if dataReceiverListener != None {
        delivered := delivered + [Delivery(dataReceiverListener.value, Error(e))];
      }
    }

    method StartService(l: Option<Listener>, open: OpenOutcome, bind: BindOutcome, close: CloseOutcome)
      modifies this
      ensures Model() == old(Model()).StartService(l, open, bind, close)
    {
      if IsStarted() {
        return;
      }
      dataReceiverListener := l;
      match open {
        case OpenFailed(cause) =>
          OnError(DataReceiverException(cause, StartReason(cause)), close);
        case Opened(ch) =>
          channel := Some(ch);
          match bind {
            case BindFailed(cause) =>
              OnError(DataReceiverException(cause, StartReason(cause)), close);
            case Bound =>
              pending := pending + [DataReceiverTask];
          }
      }
    }

    method EndServiceImmediately(close: CloseOutcome)
      modifies this
      ensures Model() == old(Model()).EndServiceImmediately(close)
    {
      if !IsStarted() {
        return;
      }
      CloseChannel(close);
    }

    /** The executor takes the head task and runs dataReceiverTask: clear
        the shared buffer, receive into it, flip it, copy out exactly the
        bytes received, hand them on, and resubmit. */
    method RunNextTask(outcome: ReceiveOutcome, close: CloseOutcome) returns (raised: Option<Uncaught>)
      requires Valid() && |pending| > 0
      modifies this, buffer, buffer.data
      ensures Valid()
      ensures Model() == old(Model()).RunTask(outcome, close).state
      ensures raised == old(Model()).RunTask(outcome, close).raised
    {
      pending := pending[1..];
      buffer.Clear();
      if channel == None {
        return Some(NullPointer);
      }
      match outcome {
        case Received(source, datagram) =>
          buffer.Receive(datagram);
          buffer.Flip();
          var receivedData := buffer.Get(buffer.limit);
          assert receivedData == Truncate(datagram, BUFFER_SIZE);
          if dataReceiverListener != None {
            delivered := delivered + [Delivery(dataReceiverListener.value, Success(source, receivedData))];
          }
          pending := pending + [DataReceiverTask];
        case ReceiveFailed(cause) =>
          OnError(DataReceiverException(cause, ReceiveReason(cause)), close);
      }
      raised := None;
    }
  }
}
