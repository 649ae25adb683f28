/** Vocabulary shared by both socket services: bytes, opaque socket
    handles and addresses, the exception classes the services catch, and the
    outcomes an abstract DatagramChannel may produce. */
module Wire {

  /** Java null-or-reference, made explicit. */
  datatype Option<+T> = None | Some(value: T)

  /** One byte of a datagram payload (Java's byte, read as unsigned). */
  type byte = b: int | 0 <= b < 256

  /** A SocketAddress: only its identity matters here. */
  type Address = nat

  /** The identity of one DatagramChannel returned by DatagramChannel.open(). */
  type Channel = nat

  /** The class of an exception thrown by a channel operation. The receive
      and send paths catch ClosedByInterruptException, then
      AsynchronousCloseException, then ClosedChannelException, then
      SecurityException, then IOException; startService catches
      SocketException, SecurityException and IOException. */
  datatype Cause =
    | ClosedByInterrupt   // ClosedByInterruptException
    | AsynchronousClose   // AsynchronousCloseException
    | ClosedChannel       // ClosedChannelException
    | SocketError         // SocketException (BindException and friends)
    | Security            // SecurityException
    | OtherIO             // any other IOException

  /** Outcome of DatagramChannel.open(). */
  datatype OpenOutcome = Opened(channel: Channel) | OpenFailed(cause: Cause)

  /** Outcome of channel.socket().bind(new InetSocketAddress(port)). */
  datatype BindOutcome = Bound | BindFailed(cause: Cause)

  /** Outcome of channel.close(); a failure is only logged by the services. */
  datatype CloseOutcome = Closed | CloseFailed

  /** Runtime exceptions that escape a service operation or a queued task
      because no catch clause names them. */
  datatype Uncaught = NullPointer | BufferOverflow

  /** What running one operation leaves behind: the new state and the
      exception, if any, that escaped it. */
  datatype TaskResult<S> = TaskResult(state: S, raised: Option<Uncaught>)
}
