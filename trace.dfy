/**
 * The part of an OTF2 trace that the converter consumes: the definitions it
 * looks at (locations, I/O handles, attributes) and the events it reacts to.
 * Decoding the trace itself is done by the OTF2 reader library, which is not
 * part of this model; a trace is given here as the sequence of
 * `(location, event)` pairs the reader would yield.
 */
module Trace {
  import opened Common

  /**
   * An OTF2 I/O handle: its own name, and the name of the file definition it
   * refers to, when it has one. The empty string stands for a missing name.
   */
  datatype IoHandle = IoHandle(name: string, file: Option<string>)

  /** The location (rank or thread) that recorded an event, by the name of its location group. */
  datatype Location = Location(groupName: string)

  /** One attribute attached to an event: the attribute definition's name and an integer value. */
  datatype Attribute = Attribute(name: string, value: int)

  /** The event kinds the converter distinguishes; every other kind is `OtherEvent`. */
  datatype Event =
    | ProgramBegin(time: nat)
    | Enter(region: string)
    | IoOperationBegin(time: nat, handle: IoHandle, bytesRequest: nat, attributes: seq<Attribute>)
    | IoOperationComplete(time: nat, handle: IoHandle)
    | OtherEvent

  /** One element of the reader's event stream. */
  datatype LocatedEvent = LocatedEvent(location: Location, event: Event)
}
