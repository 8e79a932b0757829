/**
 * The data-transfer types of the client: the connection lifecycle states,
 * the event record handed to subscribers and the options record consumed
 * by the client's constructor.
 */
module Dtos {
  import opened Wrappers

  /** The lifecycle phases of a client, with the enum's underlying values. */
  datatype ReadyState = Initializing | Connecting | Open | Closed {

    function Value(): int {
      match this
      case Initializing => -1
      case Connecting => 0
      case Open => 1
      case Closed => 2
    }
  }

  /** A decoded event: every property is nullable, and the decoder sets only the first two. */
  datatype CustomEventArgs = CustomEventArgs(
    eventType: Option<string>,
    data: Option<string>,
    id: Option<string>,
    retry: Option<int>)

  const MessageType: string := "message"

  /** The event the decoder emits for one terminated block. */
  function Message(data: string): CustomEventArgs {
    CustomEventArgs(Some(MessageType), Some(data), None, None)
  }

  /** One entry of a `Dictionary<string, string>`, in enumeration order. */
  datatype Header = Header(key: string, value: string)

  /** A 32-bit signed C# `int`. */
  newtype Int32 = x: int | -0x8000_0000 <= x < 0x8000_0000

  /**
   * The options record. Its reference-typed properties are nullable in the
   * model, because a caller can still assign `null` to them and the
   * constructor's `??` fallbacks then apply.
   */
  datatype ExtraOptions = ExtraOptions(
    headers: Option<seq<Header>>,
    payload: Option<string>,
    httpMethod: Option<string>,
    debug: bool,
    maxRetries: Int32)

  /** `new EventSourceExtraOptions()`: the property initialisers. */
  function DefaultOptions(): ExtraOptions {
    ExtraOptions(Some([]), Some(""), Some("GET"), false, 3)
  }
}
