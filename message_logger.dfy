/** The message logger of server/messagelogger/logger.go: commands go to
    the printer's command printer, events to its event printer, anything
    else to neither. The result is the printer call `Consume` makes. */
module MessageLogger {
  import opened Wrappers
  import opened BusMessages

  datatype PrinterCall = PrintCommand(message: Message) | PrintEvent(message: Message)

  /** `logger.Consume`. */
  function Consume(m: Message): (call: Option<PrinterCall>)
    ensures TypeOf(m) == CommandMessage <==> call == Some(PrintCommand(m))
    ensures TypeOf(m) == EventMessage <==> call == Some(PrintEvent(m))
    ensures call.None? <==> TypeOf(m) == OtherMessage
    ensures call.Some? ==> call.value.message == m
  {
    match TypeOf(m)
    case CommandMessage => Some(PrintCommand(m))
    case EventMessage => Some(PrintEvent(m))
    case OtherMessage => None
  }
}
