/** One turn of the console loop in Main.main: classify the line, then
    drive the services as the switch does. Reading the line and printing
    are left out; what would be printed is returned as a Report. */
module MainLoop {
  import Wire
  import opened InputParsing
  import DataReceiver
  import DataSender
  import Utf8

  /** What the turn prints, beyond logging inside the services. */
  datatype Report =
    | Silent
    | Sending(message: string)
    | InvalidCommand(input: string)
    | CouldNotStartSender(error: DataSender.DataSenderException)
    | Quitting

  /** The body of `while (isRunning)`. Main's completion callback is
      never null, so sendMessage never throws here. The executors'
      shutdown() on QUIT is not modelled. */
  method Dispatch(input: string, receiver: DataReceiver.DataReceiverService,
                  sender: DataSender.DataSenderService, callback: DataSender.Callback,
                  open: Wire.OpenOutcome, bind: Wire.BindOutcome,
                  receiverClose: Wire.CloseOutcome, senderClose: Wire.CloseOutcome)
    returns (isRunning: bool, report: Report)
    modifies receiver, sender
    ensures isRunning <==> ParseInputType(input) != Command(Quit)
    ensures match ParseInputType(input)
      case None =>
        unchanged(receiver, sender) && report == Silent
      case SendMessage(m) =>
        unchanged(receiver) && report == Sending(m)
        && sender.Model() == old(sender.Model()).SendMessage(m, Wire.Some(callback)).state
      case Command(Quit) =>
        report == Quitting && !receiver.IsStarted() && !sender.IsStarted()
        && receiver.Model() == old(receiver.Model()).EndServiceImmediately(receiverClose)
        && sender.Model() == old(sender.Model()).EndServiceImmediately(senderClose)
      case Command(StartSenderService) =>
        var started := old(sender.Model()).StartService(open, bind);
        unchanged(receiver) && sender.Model() == started.state
        && report == if started.thrown.Some? then CouldNotStartSender(started.thrown.value) else Silent
      case Command(StopSenderService) =>
        unchanged(receiver) && report == Silent
        && sender.Model() == old(sender.Model()).EndServiceImmediately(senderClose)
      case Command(Unknown) =>
        unchanged(receiver, sender) && report == InvalidCommand(input)
  {
    isRunning, report := true, Silent;
    var inputType := ParseInputType(input);
    match inputType {
      case SendMessage(message) =>
        report := Sending(message);
        var raised := sender.SendMessage(message, Wire.Some(callback));
      case Command(kind) =>
        match kind {
          case Quit =>
            report := Quitting;
            receiver.EndServiceImmediately(receiverClose);
            sender.EndServiceImmediately(senderClose);
            isRunning := false;
          case StartSenderService =>
            var thrown := sender.StartService(open, bind);
            if thrown.Some? {
              report := CouldNotStartSender(thrown.value);
            }
          case StopSenderService =>
            sender.EndServiceImmediately(senderClose);
          case Unknown =>
            report := InvalidCommand(input);
        }
      case None =>
    }
  }

  /** A message that fits the buffer, sent by a started sender and
      received by a started receiver, reaches the receiver's listener as
      exactly its UTF-8 bytes, tagged with whatever source the receive
      reports, and the listener's new String(data, UTF_8) gives the message
      back. */
  lemma LoopbackRoundTrip(sender: DataSender.SenderState, receiver: DataReceiver.ReceiverState,
                          l: DataReceiver.Listener, source: Wire.Address, close: Wire.CloseOutcome)
    requires sender.IsStarted() && |sender.pending| > 0
    requires |Utf8.Encode(sender.pending[0].message)| <= DataSender.BUFFER_SIZE
    requires receiver.IsStarted() && receiver.listener == Wire.Some(l) && |receiver.pending| > 0
    ensures var sent := sender.RunTask(DataSender.Sent, close).state;
      |sent.transmitted| == |sender.transmitted| + 1
      && var datagram := sent.transmitted[|sender.transmitted|];
      receiver.RunTask(DataReceiver.Received(source, datagram.payload), close).state.delivered
        == receiver.delivered
           + [DataReceiver.Delivery(l, DataReceiver.Success(source, Utf8.Encode(sender.pending[0].message)))]
    ensures Utf8.Decode(Utf8.Encode(sender.pending[0].message)) == Wire.Some(sender.pending[0].message)
  {
    Utf8.DecodeEncode(sender.pending[0].message);
  }
}
