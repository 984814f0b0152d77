/**
 * The event side of the Android Auto plugin: the event sink the Flutter side
 * listens on, and `sendCommand`, the fire-and-forget way the media service
 * asks the app for something.
 */
module AutoPlugin {
  import opened Channel

  class AutoPlugin {
    /** Whether an event sink is attached (`eventSink != null`). */
    var sinkAttached: bool
    /** Every envelope handed to the sink, oldest first. */
    var sent: seq<Payload>

    constructor ()
      ensures !sinkAttached && sent == []
    {
      sinkAttached := false;
      sent := [];
    }

    /** The stream handler's `onListen`. */
    method Listen()
      modifies this
      ensures sinkAttached && sent == old(sent)
    {
      sinkAttached := true;
    }

    /** The stream handler's `onCancel`. */
    method Cancel()
      modifies this
      ensures !sinkAttached && sent == old(sent)
    {
      sinkAttached := false;
    }

    /** `sendCommand(command, arguments)`: the envelope `{"command" -> command}`
        with every argument copied over it goes to the sink; with no sink it is
        dropped without failing. */
    method SendCommand(command: string, arguments: Option<Payload>)
      modifies this
      ensures sinkAttached == old(sinkAttached)
      ensures sent == old(sent) + (if sinkAttached then [Envelope("command", command, arguments)] else [])
    {
      var data := Envelope("command", command, arguments);
      if sinkAttached {
        sent := sent + [data];
      }
    }
  }
}
