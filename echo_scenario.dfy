/** One message's round trip. A client sends a payload with a client id; the
    server reads it into its record, which has no client id, stamps it,
    saves it and sends the saved copy back twice to the sender: on the room
    topic and on the sender's private queue. Both echoes pass the client's
    duplicate filter, because they carry no client id. The one-to-one view
    folds the second echo into the first through its look-alike match; the
    group-or-private view lists the message twice. */
module EchoScenario {
  import opened Wrappers
  import opened WireMessage
  import opened MessageModel
  import opened SocketController
  import ChatSocket
  import PersonalChat
  import ChatRoomView

  /** The repository's save as the round trip assumes it: the record is
      stored unchanged under a new id. */
  function AssignId(newId: string): MessageRecord -> Option<MessageRecord> {
    (r: MessageRecord) => Some(r.(id := Some(newId)))
  }

  /** What the server makes of a payload that names its room. */
  function Saved(payload: Msg, now: int, newId: string): MessageRecord {
    Decode(payload).(timestamp := Some(now), id := Some(newId))
  }

  /** The echo as the client reads it. */
  function Echo(payload: Msg, now: int, newId: string): Msg {
    Encode(Saved(payload, now, newId))
  }

  /** The server sends the saved record to the room topic first and to the
      sender last, with the sender's copy on "/queue/private"; neither
      carries the payload's client id, and both pass the client's filter. */
  lemma ServerEchoesTwiceWithoutClientId(payload: Msg, now: int, newId: string, seen: set<string>,
                                         createPrivateChat: (Option<string>, Option<string>) -> Option<Option<string>>,
                                         accepts: Send -> bool)
    requires Truthy(payload.roomId) && Truthy(payload.content)
    requires forall s :: accepts(s)
    ensures var stamped := Decode(payload).(timestamp := Some(now));
            var (sends, failed) := Dispatch(stamped, createPrivateChat, AssignId(newId), accepts);
            var saved := Saved(payload, now, newId);
            var echo := Echo(payload, now, newId);
            && !failed && |sends| >= 2
            && sends[0] == ToTopic(TopicPrefix + payload.roomId.value, saved)
            && sends[|sends| - 1] == ToUser(payload.senderUsername, PrivateQueue, saved)
            && echo.clientId.None?
            && ChatSocket.EmitRun(seen, [Some(echo), Some(echo)]) == [echo, echo]
  {
    var stamped := Decode(payload).(timestamp := Some(now));
    assert stamped.(roomId := stamped.roomId) == stamped;
    var saved := Saved(payload, now, newId);
    assert AssignId(newId)(stamped) == Some(saved);
    PerformedAll(FanOut(saved), accepts);
    var echo := Echo(payload, now, newId);
    ChatSocket.EmitRunWithoutClientIds(seen, [echo, echo]);
    assert seq(2, i requires 0 <= i < 2 => Some([echo, echo][i])) == [Some(echo), Some(echo)];
  }

  /** In the one-to-one view, a message whose first echo finds no look-alike
      is listed once, and its second echo leaves the list's length alone. */
  lemma PersonalChatListsEchoOnce(payload: Msg, now: int, newId: string, list: seq<Msg>, me: string,
                                  now1: int, now2: int)
    requires PersonalChat.Accepts(payload.roomId, Echo(payload, now, newId))
    requires Truthy(payload.senderUsername)
    requires forall k :: 0 <= k < |list| ==> !PersonalChat.FallbackMatch(Echo(payload, now, newId), now, list[k])
    ensures var echo := Echo(payload, now, newId);
            var once := PersonalChat.Receive(list, payload.roomId, me, Some(echo), now1);
            var twice := PersonalChat.Receive(once, payload.roomId, me, Some(echo), now2);
            && once == list + [Projected(me, echo)]
            && |twice| == |list| + 1
  {
    var echo := Echo(payload, now, newId);
    assert PersonalChat.IncomingTime(echo, now1) == now;
    PersonalChat.ReceiveAppends(list, payload.roomId, me, echo, now1);
    PersonalChat.RedeliveryKeepsLength(list, payload.roomId, me, echo, now1, now2);
  }

  /** In the group-or-private view, in group mode on the message's room,
      both echoes are listed. */
  lemma ChatRoomListsEchoTwice(payload: Msg, now: int, newId: string, list: seq<Msg>,
                               other: Option<string>, me: string)
    ensures var echo := Echo(payload, now, newId);
            var once := ChatRoomView.Deliver(list, true, payload.roomId, other, me, Some(echo));
            var twice := ChatRoomView.Deliver(once, true, payload.roomId, other, me, Some(echo));
            && twice == list + [Projected(me, echo), Projected(me, echo)]
  {
    var echo := Echo(payload, now, newId);
    ChatRoomView.DeliverAppendsOrIgnores(list, true, payload.roomId, other, me, Some(echo));
    var once := ChatRoomView.Deliver(list, true, payload.roomId, other, me, Some(echo));
    ChatRoomView.DeliverAppendsOrIgnores(once, true, payload.roomId, other, me, Some(echo));
  }
}
