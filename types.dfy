/** The value types shared by the session layer and the user interface (types.ts). */
module Types {

  datatype Option<T> = None | Some(value: T)

  /** The four states shown to the user; the manager reports them through its status callback. */
  datatype ConnectionStatus = Disconnected | Connecting | Connected | Error

  datatype Sender = Me | Them

  /** One line of the chat log. */
  datatype Message = Message(id: string, text: string, sender: Sender, timestamp: string)

  /** The `payload` object of a message envelope. */
  datatype Payload = Payload(text: string, timestamp: string)

  /** A value received over or sent on a data connection: its `type` field and its `payload`. */
  datatype Datum = Datum(kind: string, payload: Payload)
}
