/** The backend's message record (`ChatMessage`) and its JSON form. The record
    knows six properties and nothing else: whatever else a client puts in the
    payload, the correlation id included, is dropped when the payload is read,
    and so is absent from every copy the server stores or sends back. */
module MessageModel {
  import opened Wrappers
  import opened WireMessage

  /** The contents of one `ChatMessage` object; `timestamp` is an instant in
      milliseconds. */
  datatype MessageRecord = MessageRecord(
    id: Option<string>,
    roomId: Option<string>,
    senderUsername: Option<string>,
    receiverUsername: Option<string>,
    content: Option<string>,
    timestamp: Option<int>)

  /** Reading a JSON payload into the record: the six known properties are
      kept, every other property is ignored. */
  function Decode(m: Msg): (r: MessageRecord)
    ensures r.id == m.id && r.roomId == m.roomId && r.senderUsername == m.senderUsername
    ensures r.receiverUsername == m.receiverUsername && r.content == m.content && r.timestamp == m.timestamp
  {
    MessageRecord(m.id, m.roomId, m.senderUsername, m.receiverUsername, m.content, m.timestamp)
  }

  /** Writing the record as JSON: its six properties and no others. */
  function Encode(r: MessageRecord): (m: Msg)
    ensures m.clientId.None? && m.sender.None? && m.receiver.None? && m.createdAt.None?
    ensures m.senderDisplayName.None? && m.isOwn.None?
    ensures m.id == r.id && m.roomId == r.roomId && m.senderUsername == r.senderUsername
    ensures m.receiverUsername == r.receiverUsername && m.content == r.content && m.timestamp == r.timestamp
  {
    Msg(r.id, r.roomId, r.senderUsername, None, r.receiverUsername, None, r.content, None, r.timestamp, None, None, None)
  }

  /** Reading back what the server wrote gives the same record. */
  lemma DecodeEncode(r: MessageRecord)
    ensures Decode(Encode(r)) == r
  {
  }

  /** A payload that passes through the record comes back with its known
      properties and without its client id. */
  lemma EchoDropsClientId(m: Msg)
    ensures Encode(Decode(m)).clientId.None?
    ensures Encode(Decode(m)) == m.(clientId := None, sender := None, receiver := None, createdAt := None,
                                   senderDisplayName := None, isOwn := None)
  {
  }

  class ChatMessage {
    var id: Option<string>
    var roomId: Option<string>
    var senderUsername: Option<string>
    var receiverUsername: Option<string>
    var content: Option<string>
    var timestamp: Option<int>

    /** The contents of this object. */
    function Value(): MessageRecord
      reads this
    {
      MessageRecord(id, roomId, senderUsername, receiverUsername, content, timestamp)
    }

    /** `new ChatMessage()`: every field null. */
    constructor Empty()
      ensures Value() == MessageRecord(None, None, None, None, None, None)
    {
      id := None;
      roomId := None;
      senderUsername := None;
      receiverUsername := None;
      content := None;
      timestamp := None;
    }

    /** The five-argument constructor: each argument in its field, no id. */
    constructor (roomId: Option<string>, senderUsername: Option<string>, receiverUsername: Option<string>,
                 content: Option<string>, timestamp: Option<int>)
      ensures Value() == MessageRecord(None, roomId, senderUsername, receiverUsername, content, timestamp)
    {
      this.id := None;
      this.roomId := roomId;
      this.senderUsername := senderUsername;
      this.receiverUsername := receiverUsername;
      this.content := content;
      this.timestamp := timestamp;
    }

    /** The four-argument constructor: the five-argument one without a receiver. */
    constructor WithoutReceiver(roomId: Option<string>, senderUsername: Option<string>,
                                content: Option<string>, timestamp: Option<int>)
      ensures Value() == MessageRecord(None, roomId, senderUsername, None, content, timestamp)
    {
      this.id := None;
      this.roomId := roomId;
      this.senderUsername := senderUsername;
      this.receiverUsername := None;
      this.content := content;
      this.timestamp := timestamp;
    }

    /** The object the JSON reader builds for an inbound payload. */
    constructor FromJson(m: Msg)
      ensures Value() == Decode(m)
    {
      id := m.id;
      roomId := m.roomId;
      senderUsername := m.senderUsername;
      receiverUsername := m.receiverUsername;
      content := m.content;
      timestamp := m.timestamp;
    }

    method SetRoomId(roomId: Option<string>)
      modifies this`roomId
      ensures Value() == old(Value()).(roomId := roomId)
    {
      this.roomId := roomId;
    }

    method SetSenderUsername(senderUsername: Option<string>)
      modifies this`senderUsername
      ensures Value() == old(Value()).(senderUsername := senderUsername)
    {
      this.senderUsername := senderUsername;
    }

    method SetReceiverUsername(receiverUsername: Option<string>)
      modifies this`receiverUsername
      ensures Value() == old(Value()).(receiverUsername := receiverUsername)
    {
      this.receiverUsername := receiverUsername;
    }

    method SetContent(content: Option<string>)
      modifies this`content
      ensures Value() == old(Value()).(content := content)
    {
      this.content := content;
    }

    method SetTimestamp(timestamp: Option<int>)
      modifies this`timestamp
      ensures Value() == old(Value()).(timestamp := timestamp)
    {
      this.timestamp := timestamp;
    }
  }
}
