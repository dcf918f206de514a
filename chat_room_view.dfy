/** The group-or-private chat view (`ChatRoomComponent`): mode selection from
    the route, classification of inbound messages, the append-only list, the
    history loaders and the send call. */
module ChatRoomView {
  import opened Wrappers
  import opened Text
  import opened WireMessage
  import ChatSocket

  /** The mode `ngOnInit` settles on. */
  datatype Mode = GroupMode(roomId: string) | PrivateMode(receiver: string) | Undetermined

  /** The string that owns messages: `this.username?.toLowerCase() || ''`
      (lowercased, not trimmed). */
  function RoomMe(username: Option<string>): (me: string)
    ensures username.None? ==> me == ""
    ensures username.Some? ==> me == Lower(username.value)
  {
    if username.Some? then Lower(username.value) else ""
  }

  /** Mode selection: a non-empty third URL segment is a group room; else a
      `userParam` (route parameter, else query parameter) with a non-blank
      value is a private chat with that user, trimmed and lowercased. */
  function SelectMode(segments: seq<string>, userParam: Option<string>): (r: Mode)
    ensures |segments| >= 3 && segments[2] != "" ==> r == GroupMode(segments[2])
    ensures r.GroupMode? ==> |segments| >= 3 && r.roomId == segments[2] && r.roomId != ""
    ensures r.PrivateMode? <==> !(|segments| >= 3 && segments[2] != "") && userParam.Some? && !IsBlank(userParam.value)
    ensures r.PrivateMode? ==> r.receiver == Lower(Trim(userParam.value))
  {
    if |segments| >= 3 && segments[2] != "" then GroupMode(segments[2])
    else if userParam.Some? && Trim(userParam.value) != "" then PrivateMode(Lower(Trim(userParam.value)))
    else Undetermined
  }

  /** A private chat's receiver is the parameter in normal form: non-empty,
      lowercase, without surrounding spaces, and the trimmed parameter
      ignoring case. */
  lemma SelectModeReceiverNormalised(segments: seq<string>, userParam: Option<string>)
    ensures var r := SelectMode(segments, userParam);
            r.PrivateMode? ==> NormalisedFrom(r.receiver, Trim(userParam.value))
  {
    if SelectMode(segments, userParam).PrivateMode? {
      TrimNotBlank(userParam.value);
      LowerTrimmed(Trim(userParam.value));
    }
  }

  /** `isGroupMsg`: in group mode, a message of this room. Two missing room
      ids compare equal here, which JavaScript's `===` does only when both
      are `null` or both `undefined`. The difference never shows: group mode
      is entered only with a non-empty room id (chat-room.ts:69). */
  predicate IsGroupMsg(isGroup: bool, roomId: Option<string>, m: Msg) {
    isGroup && m.roomId == roomId
  }

  /** `isPrivateMsg`: outside group mode, a message between `me` and the
      other user, in either direction, compared trimmed and lowercased. */
  predicate IsPrivateMsg(isGroup: bool, other: Option<string>, me: string, m: Msg) {
    var sender := Lower(TrimmedSender(m));
    var receiver := Lower(TrimmedReceiver(m));
    var peer := Lower(other.GetOr(""));
    !isGroup && ((sender == peer && receiver == me) || (sender == me && receiver == peer))
  }

  lemma ModesExclusive(isGroup: bool, roomId: Option<string>, other: Option<string>, me: string, m: Msg)
    ensures !(IsGroupMsg(isGroup, roomId, m) && IsPrivateMsg(isGroup, other, me, m))
  {
  }

  /** The list after the inbound handler has seen `msg`. */
  function Deliver(list: seq<Msg>, isGroup: bool, roomId: Option<string>, other: Option<string>,
                   me: string, msg: Option<Msg>): seq<Msg>
  {
    if msg.Some? && (IsGroupMsg(isGroup, roomId, msg.value) || IsPrivateMsg(isGroup, other, me, msg.value))
    then list + [Projected(me, msg.value)]
    else list
  }

  /** There is no duplicate check: every accepted message is appended, even
      one already listed; anything else leaves the list unchanged. */
  lemma DeliverAppendsOrIgnores(list: seq<Msg>, isGroup: bool, roomId: Option<string>, other: Option<string>,
                                me: string, msg: Option<Msg>)
    ensures var accepted := msg.Some? && (IsGroupMsg(isGroup, roomId, msg.value) || IsPrivateMsg(isGroup, other, me, msg.value));
            var r := Deliver(list, isGroup, roomId, other, me, msg);
            && (accepted ==> |r| == |list| + 1 && r[..|list|] == list && r[|list|] == Projected(me, msg.value))
            && (!accepted ==> r == list)
  {
  }

  /** A stored username with trailing whitespace never matches a trimmed
      sender, so none of that user's messages is shown as their own. */
  lemma UntrimmedUsernameNeverOwn(username: string, m: Msg)
    requires username != [] && IsSpace(username[|username| - 1])
    ensures Projected(RoomMe(Some(username)), m).isOwn == Some(false)
  {
    LowerDiffersAtEnd(username, TrimmedSender(m));
  }

  class ChatRoomComponent {
    var roomId: Option<string>
    var receiverUsername: Option<string>
    var groupName: Option<string>
    var isGroup: bool
    var messages: seq<Msg>
    var username: Option<string>

    constructor ()
      ensures roomId.None? && receiverUsername.None? && groupName.None? && !isGroup
      ensures messages == [] && username.None?
    {
      roomId := None;
      receiverUsername := None;
      groupName := None;
      isGroup := false;
      messages := [];
      username := None;
    }

    /** The synchronous part of `ngOnInit`: the stored username, the URL
        segments and the `userParam` route and query parameters. Returns the
        mode chosen (the caller then loads history and, in group mode,
        subscribes to the room topic). Angular runs it once, on a freshly
        constructed component. */
    method Init(stored: Option<string>, segments: seq<string>, routeParam: Option<string>, queryParam: Option<string>)
      returns (mode: Mode)
      requires roomId.None? && receiverUsername.None? && !isGroup
      modifies this`username, this`roomId, this`isGroup, this`receiverUsername
      ensures username == stored
      ensures mode == SelectMode(segments, if routeParam.Some? then routeParam else queryParam)
      ensures roomId == (if |segments| >= 3 then Some(segments[2]) else None)
      ensures isGroup <==> mode.GroupMode?
      ensures mode.GroupMode? ==> roomId == Some(mode.roomId) && receiverUsername.None?
      ensures mode.PrivateMode? ==> receiverUsername == Some(mode.receiver)
      ensures mode.Undetermined? ==> receiverUsername.None?
    {
      username := stored;
      if |segments| >= 3 {
        roomId := Some(segments[2]);
      }
      var userParamRaw: Option<string> := None;
      if routeParam.Some? {
        userParamRaw := routeParam;
      } else if queryParam.Some? {
        userParamRaw := queryParam;
      }
      mode := SelectMode(segments, userParamRaw);
      if Truthy(roomId) {
        isGroup := true;
      } else if userParamRaw.Some? && Trim(userParamRaw.value) != "" {
        receiverUsername := Some(Lower(Trim(userParamRaw.value)));
        isGroup := false;
      }
    }

    /** The group-info response: `room?.name || 'Group Chat'`. */
    method OnGroupInfo(name: Option<string>)
      modifies this`groupName
      ensures Truthy(name) ==> groupName == name
      ensures !Truthy(name) ==> groupName == Some("Group Chat")
    {
      groupName := if Truthy(name) then name else Some("Group Chat");
    }

    /** The inbound handler, for one message from the socket service's stream. */
    method OnIncoming(msg: Option<Msg>)
      modifies this`messages
      ensures messages == Deliver(old(messages), old(isGroup), old(roomId), old(receiverUsername), old(RoomMe(username)), msg)
    {
      if msg.None? {
        return;
      }
      var m := msg.value;
      var me := RoomMe(username);
      var isGroupMsg := IsGroupMsg(isGroup, roomId, m);
      var isPrivateMsg := IsPrivateMsg(isGroup, receiverUsername, me, m);
      if isGroupMsg || isPrivateMsg {
        messages := messages + [WithDisplay(m, Lower(TrimmedSender(m)) == me)];
      }
    }

    /** `loadGroupMessages`, with `fetched` the history response. */
    method LoadGroupMessages(fetched: Option<seq<Msg>>)
      modifies this`messages
      ensures messages == ProjectAll(old(RoomMe(username)), fetched.GetOr([]))
    {
      messages := ProjectAll(RoomMe(username), fetched.GetOr([]));
    }

    /** `loadPrivateChat`, with the response's room id and messages. */
    method LoadPrivateChat(resRoomId: Option<string>, resMessages: Option<seq<Msg>>)
      modifies this`roomId, this`messages
      ensures roomId == resRoomId
      ensures messages == ProjectAll(old(RoomMe(username)), resMessages.GetOr([]))
    {
      roomId := resRoomId;
      messages := ProjectAll(RoomMe(username), resMessages.GetOr([]));
    }

    /** `sendMessage` with `form` the input's value. A group message goes out
        without a receiver, a private one with `receiverUsername`; neither
        carries a client id, so the socket service draws `freshId`. */
    method SendMessage(ws: ChatSocket.WsService, form: Option<string>, freshId: string,
                       sender: Option<string>, now: int) returns (sent: Option<Msg>)
      requires ws.Valid()
      modifies ws`log
      ensures ws.Valid()
      ensures form.None? || Trim(form.value) == "" || !Truthy(roomId) ==> sent.None? && ws.log == old(ws.log)
      ensures form.Some? && Trim(form.value) != "" && Truthy(roomId) ==>
                if ws.stompClient.Some? && ws.connected then
                  && sent == Some(ChatSocket.OutgoingPayload(roomId.value, Trim(form.value),
                                                             if isGroup then None else receiverUsername,
                                                             None, freshId, sender, now))
                  && (isGroup ==> sent.value.receiverUsername.None?)
                  && sent.value.clientId == Some(freshId)
                  && ws.log == old(ws.log) + [ChatSocket.Transmit(ws.stompClient.value, ChatSocket.SendDestination, sent.value)]
                else sent.None? && ws.log == old(ws.log)
    {
      if form.None? {
        return None;
      }
      var content := Trim(form.value);
      if content == "" || !Truthy(roomId) {
        return None;
      }
      if isGroup {
        sent := ws.SendMessage(roomId.value, content, None, None, freshId, sender, now);
      } else {
        sent := ws.SendMessage(roomId.value, content, receiverUsername, None, freshId, sender, now);
      }
    }
  }
}
