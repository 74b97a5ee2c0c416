/** The doctor's chat screen: a contact list derived from the senders seen in
    the doctor's message history and in live traffic, the message log of the
    selected contact, and the compose box. */
module DoctorChat {
  import opened Common
  import opened Text
  import opened Messages

  /** `cs.find(p => p.senderId === id)` finds an entry. */
  predicate Known(cs: seq<Contact>, id: string)
  {
    exists k :: 0 <= k < |cs| && cs[k].senderId == id
  }

  /** Some message of `ms` was sent by `id`. */
  predicate SentBy(ms: seq<Message>, id: string)
  {
    exists j :: 0 <= j < |ms| && ms[j].senderId == id
  }

  /** No two entries share a `senderId`. */
  predicate DistinctSenders(cs: seq<Contact>)
  {
    forall k1, k2 :: 0 <= k1 < k2 < |cs| ==> cs[k1].senderId != cs[k2].senderId
  }

  /** The contact entry a message yields: replies go back to its sender. */
  function ContactOf(m: Message): (c: Contact)
    ensures c.senderId == c.receiverId == m.senderId
    ensures c.receiverModel == m.senderModel && c.senderName == m.senderName
  {
    Contact(m.senderId, m.senderName, m.senderId, m.senderModel)
  }

  /** One step of the contact update: an unseen sender is appended, a known
      one leaves the list as it is. */
  function AddContact(cs: seq<Contact>, m: Message): (r: seq<Contact>)
    ensures |cs| <= |r| <= |cs| + 1 && r[..|cs|] == cs
    ensures Known(r, m.senderId)
  {
    if Known(cs, m.senderId) then cs
    else
      var r := cs + [ContactOf(m)];
      assert r[|cs|].senderId == m.senderId;
      r
  }

  /** The contact list the `reduce` over the doctor's history builds. */
  function UniqueSenders(ms: seq<Message>): (r: seq<Contact>)
    ensures |r| <= |ms|
    ensures |ms| > 0 ==> |r| > 0
  {
    if |ms| == 0 then [] else AddContact(UniqueSenders(ms[..|ms| - 1]), ms[|ms| - 1])
  }

  /** The position of the first message of `ms` sent by `id`. */
  function FirstIndex(ms: seq<Message>, id: string): (j: nat)
    requires SentBy(ms, id)
    ensures j < |ms| && ms[j].senderId == id
    ensures forall i :: 0 <= i < j ==> ms[i].senderId != id
  {
    var n := |ms| - 1;
    if SentBy(ms[..n], id) then FirstIndex(ms[..n], id)
    else
      assert forall i :: 0 <= i < n ==> ms[..n][i] == ms[i];
      n
  }

  /** A contact update keeps every earlier entry in place, adds an entry
      exactly when the sender is new, and keeps senders distinct. */
  lemma AddContactSpec(cs: seq<Contact>, m: Message)
    ensures |AddContact(cs, m)| >= |cs| && AddContact(cs, m)[..|cs|] == cs
    ensures Known(cs, m.senderId) ==> AddContact(cs, m) == cs
    ensures !Known(cs, m.senderId) ==>
      |AddContact(cs, m)| == |cs| + 1 && AddContact(cs, m)[|cs|] == ContactOf(m)
    ensures forall id :: Known(AddContact(cs, m), id) <==> Known(cs, id) || id == m.senderId
    ensures DistinctSenders(cs) ==> DistinctSenders(AddContact(cs, m))
  {
    var r := AddContact(cs, m);
    if !Known(cs, m.senderId) {
      assert r[|cs|].senderId == m.senderId;
      forall id ensures Known(r, id) ==> Known(cs, id) || id == m.senderId {
        if Known(r, id) {
          var k :| 0 <= k < |r| && r[k].senderId == id;
          if k < |cs| { assert cs[k] == r[k]; }
        }
      }
    }
  }

  /** The senders of `ms` are those of `ms` without its last message, and
      the last message's sender. */
  lemma SentBySplit(ms: seq<Message>)
    requires |ms| > 0
    ensures forall id :: SentBy(ms, id) <==> SentBy(ms[..|ms| - 1], id) || id == ms[|ms| - 1].senderId
  {
    var n := |ms| - 1;
    var init := ms[..n];
    forall id ensures SentBy(ms, id) <==> SentBy(init, id) || id == ms[n].senderId {
      if SentBy(init, id) {
        var j :| 0 <= j < n && init[j].senderId == id;
        assert ms[j].senderId == id;
      }
      if SentBy(ms, id) && id != ms[n].senderId {
        var j :| 0 <= j < |ms| && ms[j].senderId == id;
        assert init[j].senderId == id;
      }
    }
  }

  /** The first position of a sender does not move when a message is added
      after it; a new sender's first position is the added message. */
  lemma FirstIndexSplit(ms: seq<Message>)
    requires |ms| > 0
    ensures forall id :: SentBy(ms[..|ms| - 1], id) ==> FirstIndex(ms, id) == FirstIndex(ms[..|ms| - 1], id)
    ensures !SentBy(ms[..|ms| - 1], ms[|ms| - 1].senderId) ==> FirstIndex(ms, ms[|ms| - 1].senderId) == |ms| - 1
  {
  }

  /** A sender of the history without its last message keeps its first
      position when that message is added. */
  lemma FirstIndexKept(ms: seq<Message>, id: string)
    requires |ms| > 0 && SentBy(ms[..|ms| - 1], id)
    ensures SentBy(ms, id) && FirstIndex(ms, id) == FirstIndex(ms[..|ms| - 1], id)
  {
    var j :| 0 <= j < |ms| - 1 && ms[..|ms| - 1][j].senderId == id;
    assert ms[j].senderId == id;
  }

  /** The contacts built from history hold exactly one entry per distinct
      sender of the history. */
  lemma {:induction false} UniqueSendersCover(ms: seq<Message>)
    ensures forall id :: Known(UniqueSenders(ms), id) <==> SentBy(ms, id)
    ensures DistinctSenders(UniqueSenders(ms))
  {
    if |ms| > 0 {
      UniqueSendersCover(ms[..|ms| - 1]);
      AddContactSpec(UniqueSenders(ms[..|ms| - 1]), ms[|ms| - 1]);
      SentBySplit(ms);
      FirstIndexSplit(ms);
    }
  }

  /** `c` is the contact of the first message of `ms` from `c`'s sender. */
  predicate FromFirst(ms: seq<Message>, c: Contact)
  {
    SentBy(ms, c.senderId) &&
    var first := ms[FirstIndex(ms, c.senderId)];
    c.senderName == first.senderName && c.receiverId == c.senderId &&
    c.receiverModel == first.senderModel
  }

  /** A contact taken from the first message of a sender stays so when a
      message is appended. */
  lemma FromFirstKept(ms: seq<Message>, c: Contact)
    requires |ms| > 0 && FromFirst(ms[..|ms| - 1], c)
    ensures FromFirst(ms, c)
  {
    FirstIndexKept(ms, c.senderId);
  }

  /** The contact of a message from a sender not seen before it is taken
      from that sender's first message. */
  lemma FromFirstNew(ms: seq<Message>)
    requires |ms| > 0 && !SentBy(ms[..|ms| - 1], ms[|ms| - 1].senderId)
    ensures FromFirst(ms, ContactOf(ms[|ms| - 1]))
  {
    FirstIndexSplit(ms);
  }

  /** Each contact built from history is taken from its sender's first
      message: that message's sender name, and its sender id and sender role
      as the address replies go to. */
  lemma {:induction false} UniqueSendersFirstSeen(ms: seq<Message>)
    ensures forall k :: 0 <= k < |UniqueSenders(ms)| ==> FromFirst(ms, UniqueSenders(ms)[k])
  {
    if |ms| > 0 {
      var n := |ms| - 1;
      var ci, r := UniqueSenders(ms[..n]), UniqueSenders(ms);
      UniqueSendersFirstSeen(ms[..n]);
      UniqueSendersCover(ms[..n]);
      AddContactSpec(ci, ms[n]);
      forall k | 0 <= k < |r| ensures FromFirst(ms, r[k]) {
        if k < |ci| {
          assert r[k] == ci[k];
          FromFirstKept(ms, ci[k]);
        } else {
          FromFirstNew(ms);
        }
      }
    }
  }

  /** Both contacts name senders of `ms`, and the first names the earlier
      first sender. */
  predicate InOrder(ms: seq<Message>, c1: Contact, c2: Contact)
  {
    SentBy(ms, c1.senderId) && SentBy(ms, c2.senderId) &&
    FirstIndex(ms, c1.senderId) < FirstIndex(ms, c2.senderId)
  }

  /** Entries of `cs` appear in the order of their senders' first messages in
      `ms`. */
  predicate OrderedByFirst(ms: seq<Message>, cs: seq<Contact>)
  {
    forall k1, k2 :: 0 <= k1 < k2 < |cs| ==> InOrder(ms, cs[k1], cs[k2])
  }

  /** Appending a message moves no sender's first position. */
  lemma PairLifts(ms: seq<Message>, c1: Contact, c2: Contact)
    requires |ms| > 0 && InOrder(ms[..|ms| - 1], c1, c2)
    ensures InOrder(ms, c1, c2)
  {
    FirstIndexKept(ms, c1.senderId);
    FirstIndexKept(ms, c2.senderId);
  }

  /** An order by first position in a history still holds once a message is
      appended to it. */
  lemma OrderLifts(ms: seq<Message>, cs: seq<Contact>)
    requires |ms| > 0
    requires OrderedByFirst(ms[..|ms| - 1], cs)
    ensures OrderedByFirst(ms, cs)
  {
    forall k1, k2 | 0 <= k1 < k2 < |cs| ensures InOrder(ms, cs[k1], cs[k2]) {
      PairLifts(ms, cs[k1], cs[k2]);
    }
  }

  /** A sender first seen in the last message comes after every sender seen
      before it. */
  lemma NewSenderLast(ms: seq<Message>, cs: seq<Contact>)
    requires |ms| > 0
    requires OrderedByFirst(ms, cs)
    requires forall k :: 0 <= k < |cs| ==> SentBy(ms[..|ms| - 1], cs[k].senderId)
    requires !SentBy(ms[..|ms| - 1], ms[|ms| - 1].senderId)
    ensures OrderedByFirst(ms, cs + [ContactOf(ms[|ms| - 1])])
  {
    var n := |ms| - 1;
    var last := ContactOf(ms[n]);
    var r := cs + [last];
    assert SentBy(ms, last.senderId) by { assert ms[n].senderId == last.senderId; }
    assert FirstIndex(ms, last.senderId) == n;
    forall k1, k2 | 0 <= k1 < k2 < |r| ensures InOrder(ms, r[k1], r[k2]) {
      if k2 < |cs| {
        assert r[k1] == cs[k1] && r[k2] == cs[k2];
      } else {
        assert r[k1] == cs[k1] && r[k2] == last;
        FirstIndexKept(ms, cs[k1].senderId);
      }
    }
  }


  /** The contacts built from history are in the order in which their
      senders first appear. */
  lemma {:induction false} UniqueSendersOrder(ms: seq<Message>)
    ensures OrderedByFirst(ms, UniqueSenders(ms))
  {
    if |ms| > 0 {
      var n := |ms| - 1;
      var ci := UniqueSenders(ms[..n]);
      UniqueSendersOrder(ms[..n]);
      OrderLifts(ms, ci);
      if !Known(ci, ms[n].senderId) {
        UniqueSendersCover(ms[..n]);
        forall k | 0 <= k < |ci| ensures SentBy(ms[..n], ci[k].senderId) {
          assert Known(ci, ci[k].senderId);
        }
        NewSenderLast(ms, ci);
      }
    }
  }

  /** The `reduce` of the contact fetch: one pass over the doctor's messages
      that appends an entry for each sender not yet in the accumulator. */
  method DeriveContacts(all: seq<Message>) returns (acc: seq<Contact>)
    ensures acc == UniqueSenders(all)
    ensures forall id :: Known(acc, id) <==> SentBy(all, id)
    ensures DistinctSenders(acc)
  {
    acc := [];
    var i := 0;
    while i < |all|
      invariant 0 <= i <= |all|
      invariant acc == UniqueSenders(all[..i])
    {
      assert all[..i + 1][..i] == all[..i];
      if !Known(acc, all[i].senderId) {
        acc := acc + [ContactOf(all[i])];
      }
      i := i + 1;
    }
    assert all[..|all|] == all;
    UniqueSendersCover(all);
  }

  /** The state of the doctor's chat screen. `outbox` lists the socket emits
      in order; `saved` lists the messages posted to `/api/messages/register`;
      `pending` holds the sent messages whose post has not settled yet. */
  class DoctorChatView {
    const doctor: Option<Participant>
    var messages: seq<Message>
    var contacts: seq<Contact>
    var selectedPerson: Option<Contact>
    var message: string
    var error: string
    var outbox: seq<Emit>
    var saved: seq<Message>
    var pending: seq<Message>

    /** The contact list never holds two entries for one sender. */
    ghost predicate Valid()
      reads this`contacts
    {
      DistinctSenders(contacts)
    }

    /** Mounting the screen with the user taken from the navigation state. */
    constructor (doctor: Option<Participant>)
      ensures Valid()
      ensures this.doctor == doctor && messages == [] && contacts == []
      ensures selectedPerson == None && message == "" && error == ""
      ensures outbox == [] && saved == [] && pending == []
    {
      this.doctor := doctor;
      messages, contacts, selectedPerson := [], [], None;
      message, error := "", "";
      outbox, saved, pending := [], [], [];
    }

    /** The doctor joins a room keyed by the doctor's own id, so that messages
        from any patient arrive. */
    method JoinDoctorRoom()
      modifies this`outbox
      ensures doctor.Some? && doctor.value.id != "" ==>
        outbox == old(outbox) + [JoinRoom(doctor.value.id, doctor.value.id)]
      ensures doctor.None? || doctor.value.id == "" ==> outbox == old(outbox)
    {
      if doctor.Some? && doctor.value.id != "" {
        outbox := outbox + [JoinRoom(doctor.value.id, doctor.value.id)];
      }
    }

    /** A message arriving in the doctor's own room: it joins the log only if
        it comes from the selected contact; its sender becomes a contact if
        not one already. */
    method ReceiveInDoctorRoom(data: Message)
      requires Valid()
      modifies this`messages, this`contacts
      ensures Valid()
      ensures selectedPerson.Some? && data.senderId == selectedPerson.value.senderId ==>
        messages == old(messages) + [data]
      ensures selectedPerson.None? || data.senderId != selectedPerson.value.senderId ==>
        messages == old(messages)
      ensures Known(old(contacts), data.senderId) ==> contacts == old(contacts)
      ensures !Known(old(contacts), data.senderId) ==> contacts == old(contacts) + [ContactOf(data)]
    {
      if selectedPerson.Some? && data.senderId == selectedPerson.value.senderId {
        messages := messages + [data];
      }
      AddContactSpec(contacts, data);
      contacts := AddContact(contacts, data);
    }

    /** The contact fetch: with a doctor, the contact list becomes the
        distinct senders of the fetched messages (none when the field is
        missing); a failure or a missing doctor sets the error text. */
    method LoadContacts(res: Fetch<Option<seq<Message>>>) returns (requested: bool)
      requires Valid()
      modifies this`contacts, this`error
      ensures Valid()
      ensures requested <==> doctor.Some? && doctor.value.id != ""
      ensures !requested ==> error == "No doctor found" && contacts == old(contacts)
      ensures requested && res.Ok? ==>
        contacts == UniqueSenders(res.data.GetOr([])) && error == old(error)
      ensures requested && res.Err? ==>
        error == "Failed to fetch contacts" && contacts == old(contacts)
    {
      if doctor.None? || doctor.value.id == "" {
        error := "No doctor found";
        return false;
      }
      requested := true;
      match res {
        case Ok(data) =>
          contacts := DeriveContacts(data.GetOr([]));
        case Err(_) =>
          error := "Failed to fetch contacts";
      }
    }

    /** Clicking a contact selects it. */
    method Select(person: Contact)
      modifies this`selectedPerson
      ensures selectedPerson == Some(person)
    {
      selectedPerson := Some(person);
    }

    /** The history fetch that runs when a contact is selected: the log is
        replaced by the fetched messages (emptied when the field is missing)
        and kept as it is when the fetch fails. */
    method LoadHistory(res: Fetch<Option<seq<Message>>>) returns (query: Option<HistoryQuery>)
      modifies this`messages
      ensures query.Some? <==> doctor.Some? && selectedPerson.Some?
      ensures query.Some? ==> query.value == ByPair(doctor.value.id, selectedPerson.value.senderId)
      ensures query.Some? && res.Ok? ==> messages == res.data.GetOr([])
      ensures query.None? || res.Err? ==> messages == old(messages)
    {
      if doctor.None? || selectedPerson.None? {
        return None;
      }
      query := Some(ByPair(doctor.value.id, selectedPerson.value.senderId));
      if res.Ok? {
        messages := res.data.GetOr([]);
      }
    }

    /** With a contact selected, the doctor joins the room of that pair. */
    method JoinPairRoom()
      modifies this`outbox
      ensures doctor.Some? && selectedPerson.Some? ==>
        outbox == old(outbox) + [JoinRoom(selectedPerson.value.senderId, doctor.value.id)]
      ensures doctor.None? || selectedPerson.None? ==> outbox == old(outbox)
    {
      if doctor.Some? && selectedPerson.Some? {
        outbox := outbox + [JoinRoom(selectedPerson.value.senderId, doctor.value.id)];
      }
    }

    /** A message arriving in the pair room is appended to the log. */
    method ReceiveInPairRoom(data: Message)
      modifies this`messages
      ensures messages == old(messages) + [data]
    {
      messages := messages + [data];
    }

    /** Typing into the compose box. */
    method Type(text: string)
      modifies this`message
      ensures message == text
    {
      message := text;
    }

    /** Pressing send: nothing happens for whitespace-only text or with no
        contact selected; otherwise the message to the selected contact is
        emitted and its post is started. The log and the compose box change
        only when that post settles, in `SendSettled`. */
    method Send(time: string) returns (sent: Option<Message>)
      requires doctor.Some?
      modifies this`outbox, this`saved, this`pending
      ensures sent.None? <==> Blank(message) || selectedPerson.None?
      ensures sent.None? ==> outbox == old(outbox) && saved == old(saved) && pending == old(pending)
      ensures sent.Some? ==>
        sent.value == Message(doctor.value.id, selectedPerson.value.senderId, None,
                              message, time, "Doctor", "Patient") &&
        outbox == old(outbox) + [SendMessage(sent.value)] &&
        saved == old(saved) + [sent.value] &&
        pending == old(pending) + [sent.value]
    {
      if Trim(message) == "" || selectedPerson.None? {
        return None;
      }
      assert !Blank(message);
      var m := Message(doctor.value.id, selectedPerson.value.senderId, None,
                       message, time, "Doctor", "Patient");
      outbox := outbox + [SendMessage(m)];
      saved := saved + [m];
      pending := pending + [m];
      sent := Some(m);
    }

    /** The post of the `k`-th pending message settles, successfully or not
        (a failure only writes a console line): that message is appended to
        the log and the compose box is cleared, whatever it holds by then. */
    method SendSettled(k: nat)
      requires k < |pending|
      modifies this`messages, this`message, this`pending
      ensures messages == old(messages) + [old(pending)[k]] && message == ""
      ensures pending == old(pending)[..k] + old(pending)[k + 1..]
    {
      messages := messages + [pending[k]];
      message := "";
      pending := pending[..k] + pending[k + 1..];
    }
  }

  /** Two patients write to a doctor before any contact is selected: both
      become contacts in order of discovery and the log stays empty. */
  method LiveContactsScenario(d1: Participant, m1: Message, m2: Message)
    requires m1.senderId != m2.senderId
  {
    var view := new DoctorChatView(Some(d1));
    view.Type("typed first");
    view.ReceiveInDoctorRoom(m1);
    view.ReceiveInDoctorRoom(m2);
    assert view.contacts == [ContactOf(m1), ContactOf(m2)];
    assert view.messages == [];
  }
}
