/** The chat message as a JSON object on the client: the fields the socket
    service and the two chat views read or write. A field that is absent,
    `null` or `undefined` is `None`; timestamps are milliseconds since the
    epoch, already parsed. Fields the views never look at are not tracked. */
module WireMessage {
  import opened Wrappers
  import opened Text

  datatype Msg = Msg(
    id: Option<string>,
    roomId: Option<string>,
    senderUsername: Option<string>,
    sender: Option<string>,            // legacy alias the views fall back to
    receiverUsername: Option<string>,
    receiver: Option<string>,          // legacy alias the views fall back to
    content: Option<string>,
    clientId: Option<string>,          // correlation id attached by the sending client
    timestamp: Option<int>,
    createdAt: Option<int>,
    senderDisplayName: Option<string>, // added by the views
    isOwn: Option<bool>)               // added by the views

  /** The object with none of the tracked fields present. */
  const NoFields: Msg := Msg(None, None, None, None, None, None, None, None, None, None, None, None)

  /** JavaScript truthiness of an optional string: present and non-empty. */
  predicate Truthy(o: Option<string>) {
    o.Some? && o.value != ""
  }

  /** `a || b` on optional strings. */
  function Or(a: Option<string>, b: Option<string>): (r: Option<string>)
    ensures Truthy(a) ==> r == a
    ensures !Truthy(a) ==> r == b
  {
    if Truthy(a) then a else b
  }

  /** `a || b || ''`. */
  function OrEmpty(a: Option<string>, b: Option<string>): (r: string)
    ensures Truthy(a) ==> r == a.value
    ensures !Truthy(a) && Truthy(b) ==> r == b.value
    ensures !Truthy(a) && !Truthy(b) ==> r == ""
  {
    if Truthy(a) then a.value else if Truthy(b) then b.value else ""
  }

  /** The sender name both views compare: `(senderUsername || sender || '').trim()`. */
  function TrimmedSender(m: Msg): string {
    Trim(OrEmpty(m.senderUsername, m.sender))
  }

  /** `(receiverUsername || receiver || '').trim()`. */
  function TrimmedReceiver(m: Msg): string {
    Trim(OrEmpty(m.receiverUsername, m.receiver))
  }

  /** The spread `{ ...m, senderDisplayName: own ? 'You' : m.senderUsername || m.sender, isOwn: own }`. */
  function WithDisplay(m: Msg, own: bool): (r: Msg)
    ensures r.isOwn == Some(own)
    ensures own ==> r.senderDisplayName == Some("You")
    ensures !own ==> r.senderDisplayName == Or(m.senderUsername, m.sender)
    ensures r.(senderDisplayName := m.senderDisplayName, isOwn := m.isOwn) == m
  {
    m.(senderDisplayName := if own then Some("You") else Or(m.senderUsername, m.sender), isOwn := Some(own))
  }

  /** The projection both views apply to a message before showing it: it is
      the user's own exactly when the lowercased trimmed sender equals `me`. */
  function Projected(me: string, m: Msg): (r: Msg)
    ensures r.isOwn == Some(Lower(TrimmedSender(m)) == me)
    ensures r.isOwn == Some(true) ==> r.senderDisplayName == Some("You")
    ensures r.isOwn == Some(false) ==> r.senderDisplayName == Or(m.senderUsername, m.sender)
    ensures r.(senderDisplayName := m.senderDisplayName, isOwn := m.isOwn) == m
  {
    WithDisplay(m, Lower(TrimmedSender(m)) == me)
  }

  /** `msgs.map(...)` with the projection: one entry per message, in order. */
  function ProjectAll(me: string, msgs: seq<Msg>): (r: seq<Msg>)
    ensures |r| == |msgs|
    ensures forall i :: 0 <= i < |msgs| ==> r[i] == Projected(me, msgs[i])
  {
    seq(|msgs|, i requires 0 <= i < |msgs| => Projected(me, msgs[i]))
  }
}
