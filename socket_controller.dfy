/** The backend's STOMP handler for "/app/send-message"
    (`ChatSocketController.handleIncomingMessage`): it stamps the message with
    the server time, gives a private message without a room the id of the
    pair's private room, saves it, and fans the saved copy out to the room
    topic, the receiver's private queue and the sender's private queue.
    The room lookup, the save and the messaging template are abstract: each
    is a function the caller supplies, and a lookup or save that throws is a
    `None` result, a send that throws a `false` from `accepts`. */
module SocketController {
  import opened Wrappers
  import opened WireMessage
  import opened MessageModel

  const TopicPrefix := "/topic/messages/"
  const PrivateQueue := "/queue/private"

  /** One call on the messaging template: `convertAndSend(destination, payload)`
      or `convertAndSendToUser(user, destination, payload)`. */
  datatype Send =
    | ToTopic(destination: string, payload: MessageRecord)
    | ToUser(user: Option<string>, destination: string, payload: MessageRecord)

  /** A Java string in a concatenation, where `null` prints as "null". */
  function JavaText(s: Option<string>): string {
    s.GetOr("null")
  }

  /** Whether the handler looks up the private room: the room id is null or
      empty and the receiver is neither. */
  predicate NeedsRoom(m: MessageRecord) {
    !Truthy(m.roomId) && Truthy(m.receiverUsername)
  }

  /** The sends planned for a saved message, in order. */
  function FanOut(saved: MessageRecord): (plan: seq<Send>)
    ensures |plan| == if Truthy(saved.receiverUsername) then 3 else 2
    ensures plan[0] == ToTopic(TopicPrefix + JavaText(saved.roomId), saved)
    ensures Truthy(saved.receiverUsername) ==> plan[1] == ToUser(saved.receiverUsername, PrivateQueue, saved)
    ensures plan[|plan| - 1] == ToUser(saved.senderUsername, PrivateQueue, saved)
    ensures forall i :: 0 <= i < |plan| ==> plan[i].payload == saved
  {
    [ToTopic(TopicPrefix + JavaText(saved.roomId), saved)]
    + (if Truthy(saved.receiverUsername) then [ToUser(saved.receiverUsername, PrivateQueue, saved)] else [])
    + [ToUser(saved.senderUsername, PrivateQueue, saved)]
  }

  /** The sends that take place when every send up to the first refused one
      goes through and the refused one throws. */
  function Performed(plan: seq<Send>, accepts: Send -> bool): (done: seq<Send>)
    ensures |done| <= |plan| && done == plan[..|done|]
    ensures forall i :: 0 <= i < |done| ==> accepts(done[i])
    ensures |done| < |plan| ==> !accepts(plan[|done|])
    decreases |plan|
  {
    if plan == [] || !accepts(plan[0]) then []
    else [plan[0]] + Performed(plan[1..], accepts)
  }

  /** With a template that never throws, the whole plan is sent. */
  lemma {:induction false} PerformedAll(plan: seq<Send>, accepts: Send -> bool)
    requires forall s :: accepts(s)
    ensures Performed(plan, accepts) == plan
    decreases |plan|
  {
    if plan != [] {
      PerformedAll(plan[1..], accepts);
    }
  }

  /** Once the first `k` sends go through, the rest proceeds from position `k`. */
  lemma {:induction false} PerformedPrefix(plan: seq<Send>, accepts: Send -> bool, k: nat)
    requires k <= |plan| && forall i :: 0 <= i < k ==> accepts(plan[i])
    ensures Performed(plan, accepts) == plan[..k] + Performed(plan[k..], accepts)
    decreases k
  {
    if k > 0 {
      var t := plan[1..];
      forall i | 0 <= i < k - 1 ensures accepts(t[i]) {
        assert t[i] == plan[i + 1];
      }
      PerformedPrefix(t, accepts, k - 1);
      PerformedCons(plan, accepts);
      ConsSlices(plan, k);
      ConsAssoc(plan[0], t[..k - 1], Performed(t[k - 1..], accepts));
    }
  }

  lemma PerformedCons(plan: seq<Send>, accepts: Send -> bool)
    requires plan != [] && accepts(plan[0])
    ensures Performed(plan, accepts) == [plan[0]] + Performed(plan[1..], accepts)
  {
  }

  lemma ConsSlices(plan: seq<Send>, k: nat)
    requires 0 < k <= |plan|
    ensures plan[1..][k - 1..] == plan[k..] && [plan[0]] + plan[1..][..k - 1] == plan[..k]
  {
    assert [plan[0]] + plan[1..][..k - 1] == plan[..k];
  }

  lemma ConsAssoc(h: Send, a: seq<Send>, b: seq<Send>)
    ensures [h] + (a + b) == ([h] + a) + b
  {
  }

  /** What the handler does, as a value: the sends and whether an exception
      was thrown (and swallowed). `stamped` is the message after its
      timestamp was set. */
  function Dispatch(stamped: MessageRecord,
                    createPrivateChat: (Option<string>, Option<string>) -> Option<Option<string>>,
                    saveMessage: MessageRecord -> Option<MessageRecord>,
                    accepts: Send -> bool): (r: (seq<Send>, bool))
  {
    var room := if NeedsRoom(stamped) then createPrivateChat(stamped.senderUsername, stamped.receiverUsername) else Some(stamped.roomId);
    if room.None? then ([], true)
    else
      var filled := stamped.(roomId := room.value);
      var saved := saveMessage(filled);
      if saved.None? then ([], true)
      else
        var done := Performed(FanOut(saved.value), accepts);
        (done, |done| < |FanOut(saved.value)|)
  }

  /** A private message whose lookup, save and sends all succeed produces
      three sends: topic, receiver, sender. */
  lemma PrivateMessageSendsThree(stamped: MessageRecord,
                                 createPrivateChat: (Option<string>, Option<string>) -> Option<Option<string>>,
                                 saveMessage: MessageRecord -> Option<MessageRecord>,
                                 accepts: Send -> bool)
    requires forall s :: accepts(s)
    requires NeedsRoom(stamped) ==> createPrivateChat(stamped.senderUsername, stamped.receiverUsername).Some?
    requires var room := if NeedsRoom(stamped) then createPrivateChat(stamped.senderUsername, stamped.receiverUsername).value
                         else stamped.roomId;
             && saveMessage(stamped.(roomId := room)).Some?
             && Truthy(saveMessage(stamped.(roomId := room)).value.receiverUsername)
    ensures var r := Dispatch(stamped, createPrivateChat, saveMessage, accepts);
            var room := if NeedsRoom(stamped) then createPrivateChat(stamped.senderUsername, stamped.receiverUsername).value
                        else stamped.roomId;
            var saved := saveMessage(stamped.(roomId := room)).value;
            && !r.1
            && r.0 == [ToTopic(TopicPrefix + JavaText(saved.roomId), saved),
                       ToUser(saved.receiverUsername, PrivateQueue, saved),
                       ToUser(saved.senderUsername, PrivateQueue, saved)]
  {
    var room := if NeedsRoom(stamped) then createPrivateChat(stamped.senderUsername, stamped.receiverUsername).value
                else stamped.roomId;
    var saved := saveMessage(stamped.(roomId := room)).value;
    PerformedAll(FanOut(saved), accepts);
  }

  /** A message without a receiver whose save and sends succeed produces two
      sends: topic, sender. */
  lemma GroupMessageSendsTwo(stamped: MessageRecord,
                             createPrivateChat: (Option<string>, Option<string>) -> Option<Option<string>>,
                             saveMessage: MessageRecord -> Option<MessageRecord>,
                             accepts: Send -> bool)
    requires forall s :: accepts(s)
    requires !NeedsRoom(stamped) && saveMessage(stamped).Some?
    requires !Truthy(saveMessage(stamped).value.receiverUsername)
    ensures var r := Dispatch(stamped, createPrivateChat, saveMessage, accepts);
            var saved := saveMessage(stamped).value;
            && !r.1
            && r.0 == [ToTopic(TopicPrefix + JavaText(saved.roomId), saved),
                       ToUser(saved.senderUsername, PrivateQueue, saved)]
  {
    assert stamped.(roomId := stamped.roomId) == stamped;
    PerformedAll(FanOut(saveMessage(stamped).value), accepts);
  }

  /** Every copy the handler sends is the saved record encoded, so none of
      them carries a client id. */
  lemma SendsCarryNoClientId(stamped: MessageRecord,
                             createPrivateChat: (Option<string>, Option<string>) -> Option<Option<string>>,
                             saveMessage: MessageRecord -> Option<MessageRecord>,
                             accepts: Send -> bool)
    ensures var r := Dispatch(stamped, createPrivateChat, saveMessage, accepts);
            forall i :: 0 <= i < |r.0| ==> Encode(r.0[i].payload).clientId.None?
  {
  }

  /** `handleIncomingMessage`, on the object the JSON reader produced. The
      sends are returned in order, with whether an exception cut them short;
      the exception itself is swallowed. */
  method HandleIncomingMessage(message: ChatMessage, now: int,
                               createPrivateChat: (Option<string>, Option<string>) -> Option<Option<string>>,
                               saveMessage: MessageRecord -> Option<MessageRecord>,
                               accepts: Send -> bool)
    returns (sends: seq<Send>, failed: bool)
    modifies message
    ensures var stamped := old(message.Value()).(timestamp := Some(now));
            && (sends, failed) == Dispatch(stamped, createPrivateChat, saveMessage, accepts)
            && message.Value() == if NeedsRoom(stamped) && createPrivateChat(stamped.senderUsername, stamped.receiverUsername).Some?
                                  then stamped.(roomId := createPrivateChat(stamped.senderUsername, stamped.receiverUsername).value)
                                  else stamped
  {
    message.SetTimestamp(Some(now));
    if (message.roomId.None? || message.roomId.value == "")
       && message.receiverUsername.Some? && message.receiverUsername.value != "" {
      var privateRoom := createPrivateChat(message.senderUsername, message.receiverUsername);
      if privateRoom.None? {
        return [], true;
      }
      message.SetRoomId(privateRoom.value);
    }
    var stored := saveMessage(message.Value());
    if stored.None? {
      return [], true;
    }
    sends, failed := Publish(stored.value, accepts);
  }

  /** Steps 3 and 4 of the handler: the topic broadcast, the receiver's copy
      when there is a receiver, the sender's copy, each only if the ones
      before it went through. */
  method Publish(saved: MessageRecord, accepts: Send -> bool) returns (sends: seq<Send>, failed: bool)
    ensures sends == Performed(FanOut(saved), accepts)
    ensures failed <==> |sends| < |FanOut(saved)|
  {
    ghost var plan := FanOut(saved);
    sends := [];
    var topic := ToTopic(TopicPrefix + JavaText(saved.roomId), saved);
    if !accepts(topic) {
      return sends, true;
    }
    sends := sends + [topic];
    if saved.receiverUsername.Some? && saved.receiverUsername.value != "" {
      var copy := ToUser(saved.receiverUsername, PrivateQueue, saved);
      if !accepts(copy) {
        PerformedPrefix(plan, accepts, 1);
        assert plan[1..][0] == copy;
        assert plan[..1] == sends;
        return sends, true;
      }
      sends := sends + [copy];
    }
    var own := ToUser(saved.senderUsername, PrivateQueue, saved);
    PerformedPrefix(plan, accepts, |sends|);
    assert plan[..|sends|] == sends;
    assert plan[|sends|..] == [own];
    if !accepts(own) {
      return sends, true;
    }
    sends := sends + [own];
    assert sends == plan;
    PerformedPrefix(plan, accepts, |plan|);
    assert plan[..|plan|] == plan && plan[|plan|..] == [];
    failed := false;
  }
}
