/** The records the two chat screens exchange with the backend: participants,
    chat messages, the doctor's contact entries, socket emits and history
    queries. */
module Messages {
  import opened Common

  /** A signed-in user as the screens receive it: `_id`, `fullname`, `role`.
      An empty `id` stands for a missing `_id` (both are falsy). */
  datatype Participant = Participant(id: string, fullname: string, role: string)

  /** One chat message. `senderName` is present only on messages that come
      from the backend; `time` is the display string `toLocaleTimeString`
      produced when the message was written. */
  datatype Message = Message(
    senderId: string,
    receiverId: string,
    senderName: Option<string>,
    text: string,
    time: string,
    senderModel: string,
    receiverModel: string)

  /** One entry of the doctor's contact list, derived from a message. */
  datatype Contact = Contact(
    senderId: string,
    senderName: Option<string>,
    receiverId: string,
    receiverModel: string)

  /** One `socket.emit` call: the event name and its payload. */
  datatype Emit =
    | JoinRoom(receiverId: string, senderId: string)
    | SendMessage(msg: Message)

  /** The query parameters of `GET /api/messages/history`. */
  datatype HistoryQuery =
    | ByReceiver(receiverId: string)
    | ByPair(user1: string, user2: string)
}
