/** The patient's chat screen with one doctor: the history fetch, the live
    message log and the compose box. */
module Chat {
  import opened Common
  import opened Text
  import opened Messages

  /** The history query: a user whose role is exactly "Doctor" asks for every
      message addressed to them, anyone else for the conversation between the
      doctor and themselves. */
  function HistoryParams(user: Participant, doctor: Participant): (q: HistoryQuery)
    ensures q.ByReceiver? <==> user.role == "Doctor"
    ensures q.ByReceiver? ==> q.receiverId == user.id
    ensures q.ByPair? ==> q.user1 == doctor.id && q.user2 == user.id
  {
    if user.role == "Doctor" then ByReceiver(user.id) else ByPair(doctor.id, user.id)
  }

  /** The state of the patient's chat screen. `outbox` lists the socket emits
      in order; `saved` lists the messages posted to `/api/messages/register`;
      `pending` holds the sent messages whose post has not settled yet. */
  class PatientChatView {
    const doctor: Option<Participant>
    const user: Option<Participant>
    var messages: seq<Message>
    var message: string
    var outbox: seq<Emit>
    var saved: seq<Message>
    var pending: seq<Message>

    /** Mounting the screen with `doctor` and `user` from the navigation state. */
    constructor (doctor: Option<Participant>, user: Option<Participant>)
      ensures this.doctor == doctor && this.user == user
      ensures messages == [] && message == "" && outbox == [] && saved == [] && pending == []
    {
      this.doctor, this.user := doctor, user;
      messages, message := [], "";
      outbox, saved, pending := [], [], [];
    }

    /** The mount effect: without a doctor or a user nothing is fetched and no
        room is joined; otherwise the history is requested and the room of the
        pair is joined. */
    method Mount() returns (query: Option<HistoryQuery>)
      modifies this`outbox
      ensures query.None? <==> doctor.None? || user.None?
      ensures query.Some? ==>
        query.value == HistoryParams(user.value, doctor.value) &&
        outbox == old(outbox) + [JoinRoom(doctor.value.id, user.value.id)]
      ensures query.None? ==> outbox == old(outbox)
    {
      if doctor.None? || user.None? {
        return None;
      }
      query := Some(HistoryParams(user.value, doctor.value));
      outbox := outbox + [JoinRoom(doctor.value.id, user.value.id)];
    }

    /** The history response: the log is replaced by the fetched messages
        (emptied when the field is missing) and kept when the fetch fails. */
    method LoadHistory(res: Fetch<Option<seq<Message>>>)
      requires doctor.Some? && user.Some?
      modifies this`messages
      ensures res.Ok? ==> messages == res.data.GetOr([])
      ensures res.Err? ==> messages == old(messages)
    {
      if res.Ok? {
        messages := res.data.GetOr([]);
      }
    }

    /** A message arriving in the room is appended at the end of the log. */
    method Receive(data: Message)
      requires doctor.Some? && user.Some?
      modifies this`messages
      ensures messages == old(messages) + [data]
    {
      messages := messages + [data];
    }

    /** Typing into the compose box. */
    method Type(text: string)
      modifies this`message
      ensures message == text
    {
      message := text;
    }

    /** Pressing send: whitespace-only text does nothing; otherwise the
        message from the patient to the doctor is emitted and its post is
        started. The log and the compose box change only when that post
        settles, in `SendSettled`. */
    method Send(time: string) returns (sent: Option<Message>)
      requires doctor.Some? && user.Some?
      modifies this`outbox, this`saved, this`pending
      ensures sent.None? <==> Blank(message)
      ensures sent.None? ==> outbox == old(outbox) && saved == old(saved) && pending == old(pending)
      ensures sent.Some? ==>
        sent.value == Message(user.value.id, doctor.value.id, None,
                              message, time, "Patient", "Doctor") &&
        outbox == old(outbox) + [SendMessage(sent.value)] &&
        saved == old(saved) + [sent.value] &&
        pending == old(pending) + [sent.value]
    {
      if Trim(message) == "" {
        return None;
      }
      assert !Blank(message);
      var m := Message(user.value.id, doctor.value.id, None,
                       message, time, "Patient", "Doctor");
      outbox := outbox + [SendMessage(m)];
      saved := saved + [m];
      pending := pending + [m];
      sent := Some(m);
    }

    /** The post of the `k`-th pending message settles, successfully or not:
        that message is appended to the log and the compose box is cleared,
        whatever it holds by then. */
    method SendSettled(k: nat)
      requires k < |pending|
      modifies this`messages, this`message, this`pending
      ensures messages == old(messages) + [old(pending)[k]] && message == ""
      ensures pending == old(pending)[..k] + old(pending)[k + 1..]
    {
      messages := messages + [pending[k]];
      message := "";
      pending := pending[..k] + pending[k + 1..];
    }
  }

  /** Patient P1 writes "Hello" to doctor D1 and D1's answer arrives before
      the post of "Hello" settles: the answer is logged first, and text typed
      meanwhile is cleared when the post settles. A whitespace-only send
      starts nothing. */
  method ConversationScenario(p1: Participant, d1: Participant, t: string, reply: Message)
    requires p1.role == "Patient"
  {
    var view := new PatientChatView(Some(d1), Some(p1));
    var q := view.Mount();
    assert q == Some(ByPair(d1.id, p1.id));
    view.Type("  ");
    assert Blank("  ");
    var none := view.Send(t);
    assert none == None && view.pending == [];
    view.Type("Hello");
    assert !IsWhitespace("Hello"[0]);
    var sent := view.Send(t);
    var hello := Message(p1.id, d1.id, None, "Hello", t, "Patient", "Doctor");
    assert view.pending == [hello] && view.messages == [];
    view.Receive(reply);
    view.Type("And");
    view.SendSettled(0);
    assert view.messages == [reply, hello];
    assert view.message == "" && view.pending == [];
  }
}
