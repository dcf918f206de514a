/** The one-to-one chat view (`PersonalChatComponent`): how an inbound
    message is merged into the shown list (dropped, replacing an earlier
    entry, or appended), how history is loaded, and the send guard. */
module PersonalChat {
  import opened Wrappers
  import opened Text
  import opened Seqs
  import opened WireMessage
  import ChatSocket

  /** The fallback match window, in milliseconds. */
  const MatchWindow: int := 5000

  /** `this.username.trim().toLowerCase()`. */
  function Me(username: string): string {
    Lower(Trim(username))
  }

  /** The checks the handler makes before it touches the list: a room id
      equal to this view's, a non-blank sender and some content. */
  predicate Accepts(roomId: Option<string>, m: Msg) {
    Truthy(m.roomId) && m.roomId == roomId && TrimmedSender(m) != "" && Truthy(m.content)
  }

  /** `msg.timestamp ? time(msg.timestamp) : Date.now()`. */
  function IncomingTime(m: Msg, now: int): int {
    if m.timestamp.Some? then m.timestamp.value else now
  }

  /** `new Date(m.timestamp || m.createdAt || 0).getTime()` for a listed entry. */
  function EntryTime(e: Msg): int {
    if e.timestamp.Some? then e.timestamp.value else if e.createdAt.Some? then e.createdAt.value else 0
  }

  function Abs(x: int): nat {
    if x < 0 then -x else x
  }

  /** An entry carrying the incoming client id. */
  predicate IdMatch(cid: string, e: Msg) {
    Truthy(e.clientId) && e.clientId.value == cid
  }

  function IdMatcher(cid: string): Msg -> bool {
    e => IdMatch(cid, e)
  }

  /** An entry without a client id that looks like the same message: same
      sender (trimmed, lowercased), same content, timestamps less than five
      seconds apart. */
  predicate FallbackMatch(m: Msg, t: int, e: Msg) {
    && !Truthy(e.clientId)
    && Truthy(e.senderUsername)
    && Lower(Trim(e.senderUsername.value)) == Lower(TrimmedSender(m))
    && e.content.GetOr("") == m.content.GetOr("")
    && Abs(EntryTime(e) - t) < MatchWindow
  }

  function FallbackMatcher(m: Msg, t: int): Msg -> bool {
    e => FallbackMatch(m, t, e)
  }

  /** The merge step for an accepted message `m` shown as `shown` and
      timed `t`: replace the entry with its client id, else the first
      look-alike entry, else append. */
  function Merge(list: seq<Msg>, m: Msg, shown: Msg, t: int): seq<Msg> {
    var byId := if Truthy(m.clientId) then FindIndex(list, IdMatcher(m.clientId.value)) else None;
    if byId.Some? then list[byId.value := shown]
    else
      var fallback := FindIndex(list, FallbackMatcher(m, t));
      if fallback.Some? then list[fallback.value := shown] else list + [shown]
  }

  /** The list after the inbound handler has seen `msg` at clock `now`. */
  function Receive(list: seq<Msg>, roomId: Option<string>, me: string, msg: Option<Msg>, now: int): seq<Msg> {
    if msg.None? || !Accepts(roomId, msg.value) then list
    else Merge(list, msg.value, Projected(me, msg.value), IncomingTime(msg.value, now))
  }

  /** Null, foreign-room, senderless and empty messages leave the list as it is. */
  lemma ReceiveIgnores(list: seq<Msg>, roomId: Option<string>, me: string, msg: Option<Msg>, now: int)
    requires msg.None? || !Truthy(msg.value.roomId) || msg.value.roomId != roomId
             || TrimmedSender(msg.value) == "" || !Truthy(msg.value.content)
    ensures Receive(list, roomId, me, msg, now) == list
  {
  }

  /** A message whose client id is already listed replaces the first entry
      with that id, in place. */
  lemma ReceiveReplacesById(list: seq<Msg>, roomId: Option<string>, me: string, m: Msg, now: int, i: nat)
    requires Accepts(roomId, m) && Truthy(m.clientId)
    requires i < |list| && IdMatch(m.clientId.value, list[i])
    requires forall k :: 0 <= k < i ==> !IdMatch(m.clientId.value, list[k])
    ensures Receive(list, roomId, me, Some(m), now) == list[i := Projected(me, m)]
  {
    FindIndexIs(list, IdMatcher(m.clientId.value), i);
  }

  /** Without a client-id match, the first look-alike entry is replaced in place. */
  lemma ReceiveReplacesLookAlike(list: seq<Msg>, roomId: Option<string>, me: string, m: Msg, now: int, i: nat)
    requires Accepts(roomId, m)
    requires Truthy(m.clientId) ==> forall k :: 0 <= k < |list| ==> !IdMatch(m.clientId.value, list[k])
    requires i < |list| && FallbackMatch(m, IncomingTime(m, now), list[i])
    requires forall k :: 0 <= k < i ==> !FallbackMatch(m, IncomingTime(m, now), list[k])
    ensures Receive(list, roomId, me, Some(m), now) == list[i := Projected(me, m)]
  {
    ReceiveIsMerge(list, roomId, me, m, now);
    MergeReplacesLookAlike(list, m, Projected(me, m), IncomingTime(m, now), i);
  }

  /** An accepted message goes through the merge step. */
  lemma ReceiveIsMerge(list: seq<Msg>, roomId: Option<string>, me: string, m: Msg, now: int)
    requires Accepts(roomId, m)
    ensures Receive(list, roomId, me, Some(m), now) == Merge(list, m, Projected(me, m), IncomingTime(m, now))
  {
  }

  lemma MergeReplacesLookAlike(list: seq<Msg>, m: Msg, shown: Msg, t: int, i: nat)
    requires Truthy(m.clientId) ==> forall k :: 0 <= k < |list| ==> !IdMatch(m.clientId.value, list[k])
    requires i < |list| && FallbackMatch(m, t, list[i])
    requires forall k :: 0 <= k < i ==> !FallbackMatch(m, t, list[k])
    ensures Merge(list, m, shown, t) == list[i := shown]
  {
    if Truthy(m.clientId) {
      assert FindIndex(list, IdMatcher(m.clientId.value)).None? by {
        forall k | 0 <= k < |list| ensures !IdMatcher(m.clientId.value)(list[k]) {
          assert !IdMatch(m.clientId.value, list[k]);
        }
      }
    }
    FindIndexIs(list, FallbackMatcher(m, t), i);
  }

  /** A message matching nothing is appended, after the untouched earlier entries. */
  lemma ReceiveAppends(list: seq<Msg>, roomId: Option<string>, me: string, m: Msg, now: int)
    requires Accepts(roomId, m)
    requires Truthy(m.clientId) ==> forall k :: 0 <= k < |list| ==> !IdMatch(m.clientId.value, list[k])
    requires forall k :: 0 <= k < |list| ==> !FallbackMatch(m, IncomingTime(m, now), list[k])
    ensures Receive(list, roomId, me, Some(m), now) == list + [Projected(me, m)]
  {
    if Truthy(m.clientId) {
      assert FindIndex(list, IdMatcher(m.clientId.value)).None? by {
        forall k | 0 <= k < |list| ensures !IdMatcher(m.clientId.value)(list[k]) {
          assert !IdMatch(m.clientId.value, list[k]);
        }
      }
    }
    assert FindIndex(list, FallbackMatcher(m, IncomingTime(m, now))).None? by {
      forall k | 0 <= k < |list| ensures !FallbackMatcher(m, IncomingTime(m, now))(list[k]) {
        assert !FallbackMatch(m, IncomingTime(m, now), list[k]);
      }
    }
  }

  /** The merge puts `shown` at one position, leaves every other entry as it
      was and grows the list by at most one. */
  lemma MergePlaces(list: seq<Msg>, m: Msg, shown: Msg, t: int)
    ensures var r := Merge(list, m, shown, t);
      && |list| <= |r| <= |list| + 1
      && exists k :: 0 <= k < |r| && r[k] == shown
                    && (k < |list| ==> |r| == |list|)
                    && (forall j :: 0 <= j < |list| && j != k ==> r[j] == list[j])
  {
    var byId := if Truthy(m.clientId) then FindIndex(list, IdMatcher(m.clientId.value)) else None;
    var fallback := FindIndex(list, FallbackMatcher(m, t));
    if byId.Some? {
      PutPlaces(list, byId.value, shown);
    } else if fallback.Some? {
      PutPlaces(list, fallback.value, shown);
    } else {
      PutPlaces(list, |list|, shown);
    }
  }

  /** Replacing the entry at `k`, or appending when `k` is the length. */
  function Put(list: seq<Msg>, k: nat, shown: Msg): seq<Msg>
    requires k <= |list|
  {
    if k < |list| then list[k := shown] else list + [shown]
  }

  lemma PutPlaces(list: seq<Msg>, k: nat, shown: Msg)
    requires k <= |list|
    ensures var r := Put(list, k, shown);
      && |list| <= |r| <= |list| + 1
      && 0 <= k < |r| && r[k] == shown
      && (k < |list| ==> |r| == |list|)
      && (forall j :: 0 <= j < |list| && j != k ==> r[j] == list[j])
  {
  }

  /** Whatever branch is taken, an accepted message ends up, projected, at
      one position; every other entry is untouched and the list grows by at
      most one. */
  lemma ReceivePlacesProjection(list: seq<Msg>, roomId: Option<string>, me: string, m: Msg, now: int)
    requires Accepts(roomId, m)
    ensures var r := Receive(list, roomId, me, Some(m), now);
      && |list| <= |r| <= |list| + 1
      && exists k :: 0 <= k < |r| && r[k] == Projected(me, m)
                    && (k < |list| ==> |r| == |list|)
                    && (forall j :: 0 <= j < |list| && j != k ==> r[j] == list[j])
  {
    ReceiveIsMerge(list, roomId, me, m, now);
    MergePlaces(list, m, Projected(me, m), IncomingTime(m, now));
  }

  /** The same message without a client id, delivered twice in a row, is
      listed once: the second copy replaces the first. */
  lemma RedeliveryKeepsLength(list: seq<Msg>, roomId: Option<string>, me: string, m: Msg, now1: int, now2: int)
    requires !Truthy(m.clientId) && Truthy(m.senderUsername) && m.timestamp.Some?
    ensures var once := Receive(list, roomId, me, Some(m), now1);
            |Receive(once, roomId, me, Some(m), now2)| == |once|
  {
    if Accepts(roomId, m) {
      var once := Receive(list, roomId, me, Some(m), now1);
      ReceivePlacesProjection(list, roomId, me, m, now1);
      ReceiveIsMerge(once, roomId, me, m, now2);
      var k :| 0 <= k < |once| && once[k] == Projected(me, m);
      assert FallbackMatch(m, IncomingTime(m, now2), once[k]);
      assert FallbackMatcher(m, IncomingTime(m, now2))(once[k]);
    }
  }

  /** Both conditions of `RedeliveryKeepsLength` are needed. A message
      without a timestamp is stamped with the clock on arrival, while its
      listed copy counts as time 0, so a second delivery five seconds or
      more after the epoch is appended again. A message that names its
      sender only through the legacy `sender` field is never a fallback
      candidate, so it is appended again too. */
  lemma RedeliveryAppendsAgain(roomId: Option<string>, me: string, m: Msg, now1: int, now2: int)
    requires Accepts(roomId, m) && !Truthy(m.clientId)
    requires !Truthy(m.senderUsername) || (m.timestamp.None? && m.createdAt.None? && now2 >= MatchWindow)
    ensures var once := Receive([], roomId, me, Some(m), now1);
            Receive(once, roomId, me, Some(m), now2) == [Projected(me, m), Projected(me, m)]
  {
    var shown := Projected(me, m);
    AppendsWithoutLookAlike([], roomId, me, m, now1);
    assert [] + [shown] == [shown];
    ProjectedNoLookAlike(me, m, now2);
    assert FindIndex([shown], FallbackMatcher(m, IncomingTime(m, now2))) == None by {
      assert !FallbackMatcher(m, IncomingTime(m, now2))(shown);
    }
    AppendsWithoutLookAlike([shown], roomId, me, m, now2);
    assert [shown] + [shown] == [shown, shown];
  }

  /** A message without a client id and without a look-alike entry is appended. */
  lemma AppendsWithoutLookAlike(list: seq<Msg>, roomId: Option<string>, me: string, m: Msg, now: int)
    requires Accepts(roomId, m) && !Truthy(m.clientId)
    requires FindIndex(list, FallbackMatcher(m, IncomingTime(m, now))) == None
    ensures Receive(list, roomId, me, Some(m), now) == list + [Projected(me, m)]
  {
  }

  /** The listed copy of such a message is not a look-alike of it. */
  lemma ProjectedNoLookAlike(me: string, m: Msg, now: int)
    requires !Truthy(m.clientId)
    requires !Truthy(m.senderUsername) || (m.timestamp.None? && m.createdAt.None? && now >= MatchWindow)
    ensures !FallbackMatch(m, IncomingTime(m, now), Projected(me, m))
  {
    var e := Projected(me, m);
    assert e.senderUsername == m.senderUsername && e.timestamp == m.timestamp && e.createdAt == m.createdAt;
    if Truthy(m.senderUsername) {
      assert EntryTime(e) == 0 && IncomingTime(m, now) == now;
    }
  }

  /** The sort key of history entries: `new Date(m.timestamp || 0)`. */
  function TimeKey(m: Msg): int {
    if m.timestamp.Some? then m.timestamp.value else 0
  }

  predicate SortedByTime(s: seq<Msg>) {
    forall i, j :: 0 <= i < j < |s| ==> TimeKey(s[i]) <= TimeKey(s[j])
  }

  /** Places `x` before the first entry that is not earlier than it. */
  function InsertByTime(x: Msg, s: seq<Msg>): (r: seq<Msg>)
    ensures multiset(r) == multiset(s) + multiset{x}
    ensures |r| == |s| + 1
  {
    if s == [] || TimeKey(x) <= TimeKey(s[0]) then [x] + s
    else
      assert s == [s[0]] + s[1..];
      [s[0]] + InsertByTime(x, s[1..])
  }

  /** `Array.prototype.sort` with the comparator `t1 - t2`, which is stable. */
  function SortByTime(s: seq<Msg>): (r: seq<Msg>)
    ensures multiset(r) == multiset(s)
    ensures |r| == |s|
  {
    if s == [] then []
    else
      assert s == [s[0]] + s[1..];
      InsertByTime(s[0], SortByTime(s[1..]))
  }

  /** Every entry of `s` has a time key of at least `b`. */
  predicate KeysFrom(b: int, s: seq<Msg>) {
    forall i :: 0 <= i < |s| ==> b <= TimeKey(s[i])
  }

  /** The tail of a sorted list is sorted and bounded below by the head. */
  lemma SortedTail(s: seq<Msg>)
    requires s != [] && SortedByTime(s)
    ensures SortedByTime(s[1..]) && KeysFrom(TimeKey(s[0]), s[1..])
  {
    var t := s[1..];
    forall i, j | 0 <= i < j < |t| ensures TimeKey(t[i]) <= TimeKey(t[j]) {
      assert t[i] == s[i + 1] && t[j] == s[j + 1];
    }
    forall i | 0 <= i < |t| ensures TimeKey(s[0]) <= TimeKey(t[i]) {
      assert t[i] == s[i + 1];
    }
  }

  /** A sorted list behind an entry no later than any of it is sorted. */
  lemma SortedCons(h: Msg, u: seq<Msg>)
    requires SortedByTime(u) && KeysFrom(TimeKey(h), u)
    ensures SortedByTime([h] + u)
  {
    var r := [h] + u;
    forall i, j | 0 <= i < j < |r| ensures TimeKey(r[i]) <= TimeKey(r[j]) {
      assert r[j] == u[j - 1];
      if i > 0 {
        assert r[i] == u[i - 1];
      }
    }
  }

  /** Inserting keeps a lower bound that the new entry meets. */
  lemma InsertByTimeKeysFrom(b: int, x: Msg, s: seq<Msg>)
    requires KeysFrom(b, s) && b <= TimeKey(x)
    ensures KeysFrom(b, InsertByTime(x, s))
  {
    var u := InsertByTime(x, s);
    forall i | 0 <= i < |u| ensures b <= TimeKey(u[i]) {
      var y := u[i];
      assert y in multiset(u);
      assert y in multiset(s) + multiset{x};
      if y != x {
        assert y in s;
        var j :| 0 <= j < |s| && s[j] == y;
      }
    }
  }

  lemma {:induction false} InsertByTimeSorted(x: Msg, s: seq<Msg>)
    requires SortedByTime(s)
    ensures SortedByTime(InsertByTime(x, s))
  {
    if s == [] {
      SortedCons(x, s);
    } else if TimeKey(x) > TimeKey(s[0]) {
      var t := s[1..];
      SortedTail(s);
      InsertByTimeSorted(x, t);
      InsertByTimeKeysFrom(TimeKey(s[0]), x, t);
      SortedCons(s[0], InsertByTime(x, t));
    } else {
      SortedTail(s);
      assert KeysFrom(TimeKey(x), s) by {
        forall i | 0 <= i < |s| ensures TimeKey(x) <= TimeKey(s[i]) {
          if i > 0 {
            assert s[i] == s[1..][i - 1];
          }
        }
      }
      SortedCons(x, s);
    }
  }

  /** History is sorted by time, missing timestamps counting as 0. */
  lemma {:induction false} SortByTimeSorted(s: seq<Msg>)
    ensures SortedByTime(SortByTime(s))
  {
    if s != [] {
      SortByTimeSorted(s[1..]);
      InsertByTimeSorted(s[0], SortByTime(s[1..]));
    }
  }

  /** The entries with time key `k`, in list order. */
  function WithKey(s: seq<Msg>, k: int): (r: seq<Msg>)
    ensures |r| <= |s|
  {
    if s == [] then []
    else (if TimeKey(s[0]) == k then [s[0]] else []) + WithKey(s[1..], k)
  }

  lemma WithKeyCons(h: Msg, u: seq<Msg>, k: int)
    ensures WithKey([h] + u, k) == (if TimeKey(h) == k then [h] else []) + WithKey(u, k)
  {
    assert ([h] + u)[1..] == u;
  }

  /** Inserting `x` puts it before every entry with its key: the entries it
      passes have smaller keys. */
  lemma {:induction false} InsertByTimeWithKey(x: Msg, s: seq<Msg>, k: int)
    ensures WithKey(InsertByTime(x, s), k) == (if TimeKey(x) == k then [x] else []) + WithKey(s, k)
  {
    var xs := if TimeKey(x) == k then [x] else [];
    if s != [] && TimeKey(x) > TimeKey(s[0]) {
      var t := s[1..];
      var u := InsertByTime(x, t);
      var hs := if TimeKey(s[0]) == k then [s[0]] else [];
      assert s == [s[0]] + t;
      assert InsertByTime(x, s) == [s[0]] + u;
      calc {
        WithKey(InsertByTime(x, s), k);
        == { WithKeyCons(s[0], u, k); }
        hs + WithKey(u, k);
        == { InsertByTimeWithKey(x, t, k); }
        hs + (xs + WithKey(t, k));
        == { SwapEmpty(hs, xs, WithKey(t, k)); }
        xs + (hs + WithKey(t, k));
        == { WithKeyCons(s[0], t, k); }
        xs + WithKey(s, k);
      }
    } else {
      WithKeyCons(x, s, k);
    }
  }

  /** Of two lists one of which is empty, either may go first. */
  lemma SwapEmpty(a: seq<Msg>, b: seq<Msg>, w: seq<Msg>)
    requires a == [] || b == []
    ensures a + (b + w) == b + (a + w)
  {
    if a == [] {
      assert a + (b + w) == b + w == b + (a + w);
    } else {
      assert a + (b + w) == a + w == b + (a + w);
    }
  }

  /** The sort is stable: entries with equal keys keep their relative order. */
  lemma {:induction false} SortByTimeStable(s: seq<Msg>, k: int)
    ensures WithKey(SortByTime(s), k) == WithKey(s, k)
  {
    if s != [] {
      SortByTimeStable(s[1..], k);
      InsertByTimeWithKey(s[0], SortByTime(s[1..]), k);
    }
  }

  /** `c_${Date.now()}_${Math.floor(Math.random() * 10000)}`. */
  function ClientIdFor(now: nat, draw: nat): (cid: string)
    ensures |cid| >= 5 && cid[..2] == "c_"
  {
    "c_" + DecimalString(now) + "_" + DecimalString(draw)
  }

  function IsUnderscore(c: char): bool {
    c == '_'
  }

  /** A client id determines the clock reading and the draw it was made from. */
  lemma ClientIdForInjective(now1: nat, draw1: nat, now2: nat, draw2: nat)
    requires ClientIdFor(now1, draw1) == ClientIdFor(now2, draw2)
    ensures now1 == now2 && draw1 == draw2
  {
    var d1, d2 := DecimalString(now1), DecimalString(now2);
    var e1, e2 := DecimalString(draw1), DecimalString(draw2);
    PrefixedEqual(d1, e1, d2, e2);
    DigitsThenUnderscore(d1, e1, d2, e2);
    ParseDecimalString(now1);
    ParseDecimalString(now2);
    ParseDecimalString(draw1);
    ParseDecimalString(draw2);
  }

  lemma PrefixedEqual(d1: string, e1: string, d2: string, e2: string)
    requires "c_" + d1 + "_" + e1 == "c_" + d2 + "_" + e2
    ensures d1 + "_" + e1 == d2 + "_" + e2
  {
    assert "c_" + d1 + "_" + e1 == "c_" + (d1 + "_" + e1);
    assert "c_" + d2 + "_" + e2 == "c_" + (d2 + "_" + e2);
    assert d1 + "_" + e1 == ("c_" + (d1 + "_" + e1))[2..];
    assert d2 + "_" + e2 == ("c_" + (d2 + "_" + e2))[2..];
  }

  /** The first '_' after a run of digits ends that run. */
  lemma DigitsThenUnderscore(d1: string, e1: string, d2: string, e2: string)
    requires forall i :: 0 <= i < |d1| ==> '0' <= d1[i] <= '9'
    requires forall i :: 0 <= i < |d2| ==> '0' <= d2[i] <= '9'
    requires d1 + "_" + e1 == d2 + "_" + e2
    ensures d1 == d2 && e1 == e2
  {
    var tail := d1 + "_" + e1;
    forall k | 0 <= k < |d1| ensures !IsUnderscore(tail[k]) {
      assert tail[k] == d1[k];
    }
    forall k | 0 <= k < |d2| ensures !IsUnderscore(tail[k]) {
      assert tail[k] == d2[k];
    }
    assert IsUnderscore(tail[|d1|]);
    assert tail == d2 + "_" + e2;
    assert IsUnderscore(tail[|d2|]);
    FindIndexIs(tail, IsUnderscore, |d1|);
    FindIndexIs(tail, IsUnderscore, |d2|);
    assert |d1| == |d2|;
    assert d1 == tail[..|d1|] == d2;
    assert e1 == tail[|d1| + 1..] == e2;
  }

  class PersonalChatComponent {
    var username: string
    var receiverUsername: Option<string>
    var roomId: Option<string>
    var messages: seq<Msg>

    constructor ()
      ensures username == "" && receiverUsername.None? && roomId.None? && messages == []
    {
      username := "";
      receiverUsername := None;
      roomId := None;
      messages := [];
    }

    /** The synchronous start of `ngOnInit`: the stored username and the
        `username` route parameter. Returns whether it gets past its
        synchronous checks to the awaited `ws.connect()`; whether that
        connection then succeeds is not part of this method. */
    method Open(stored: Option<string>, routeParam: Option<string>) returns (proceed: bool)
      modifies this`username, this`receiverUsername
      ensures username == OrEmpty(stored, None)
      ensures proceed <==> Truthy(routeParam)
      ensures proceed ==> receiverUsername == Some(Trim(routeParam.value))
      ensures !proceed ==> receiverUsername == routeParam
    {
      username := OrEmpty(stored, None);
      receiverUsername := routeParam;
      if !Truthy(receiverUsername) {
        return false;
      }
      receiverUsername := Some(Trim(receiverUsername.value));
      proceed := true;
    }

    /** The private-room response: `room.id || room._id || room.roomId`.
        Returns whether a usable room id was found (then history is loaded,
        the room topic subscribed and the inbound handler installed). */
    method OnPrivateRoom(id: Option<string>, altId: Option<string>, roomIdField: Option<string>) returns (ok: bool)
      modifies this`roomId
      ensures Truthy(id) ==> roomId == id
      ensures !Truthy(id) && Truthy(altId) ==> roomId == altId
      ensures !Truthy(id) && !Truthy(altId) ==> roomId == roomIdField
      ensures ok <==> Truthy(roomId)
    {
      roomId := Or(Or(id, altId), roomIdField);
      ok := Truthy(roomId);
    }

    /** The inbound handler, for one message from the socket service's stream. */
    method OnIncoming(msg: Option<Msg>, now: int)
      modifies this`messages
      ensures messages == Receive(old(messages), old(roomId), old(Me(username)), msg, now)
    {
      if msg.None? || !Accepts(roomId, msg.value) {
        return;
      }
      var m := msg.value;
      var senderUsername := TrimmedSender(m);
      var isMine := Lower(senderUsername) == Me(username);
      MergeIncoming(m, WithDisplay(m, isMine), IncomingTime(m, now));
    }

    /** The replace-or-append part of the handler. */
    method MergeIncoming(m: Msg, shown: Msg, t: int)
      modifies this`messages
      ensures messages == Merge(old(messages), m, shown, t)
    {
      if Truthy(m.clientId) {
        var idx := FindIndex(messages, IdMatcher(m.clientId.value));
        if idx.Some? {
          messages := messages[idx.value := shown];
          return;
        }
      }
      var fallbackIdx := FindIndex(messages, FallbackMatcher(m, t));
      if fallbackIdx.Some? {
        messages := messages[fallbackIdx.value := shown];
        return;
      }
      messages := messages + [shown];
    }

    /** `loadMessagesFromDB`, with `fetched` the response of the history request. */
    method LoadMessagesFromDB(fetched: Option<seq<Msg>>)
      modifies this`messages
      ensures old(!Truthy(roomId)) ==> messages == old(messages)
      ensures old(Truthy(roomId)) ==> messages == SortByTime(ProjectAll(old(Me(username)), fetched.GetOr([])))
    {
      if !Truthy(roomId) {
        return;
      }
      var me := Me(username);
      messages := SortByTime(ProjectAll(me, fetched.GetOr([])));
    }

    /** `sendMessage` with `form` the input's value; `now` and `draw` are the
        clock and the random draw behind the client id, `freshId` and `sender`
        what the socket service would use for its own id and the sender. */
    method SendMessage(ws: ChatSocket.WsService, form: Option<string>, now: nat, draw: nat,
                       freshId: string, sender: Option<string>) returns (sent: Option<Msg>)
      requires ws.Valid() && draw < 10000
      modifies ws`log
      ensures ws.Valid()
      ensures form.None? || Trim(form.value) == "" || !Truthy(roomId) || !Truthy(receiverUsername) ==>
                sent.None? && ws.log == old(ws.log)
      ensures form.Some? && Trim(form.value) != "" && Truthy(roomId) && Truthy(receiverUsername) ==>
                if ws.stompClient.Some? && ws.connected then
                  && sent == Some(ChatSocket.OutgoingPayload(roomId.value, Trim(form.value), Some(Trim(receiverUsername.value)),
                                                             Some(ClientIdFor(now, draw)), freshId, sender, now))
                  && sent.value.clientId == Some(ClientIdFor(now, draw))
                  && ws.log == old(ws.log) + [ChatSocket.Transmit(ws.stompClient.value, ChatSocket.SendDestination, sent.value)]
                else sent.None? && ws.log == old(ws.log)
    {
      if form.None? {
        return None;
      }
      var content := Trim(form.value);
      if content == "" || !Truthy(roomId) || !Truthy(receiverUsername) {
        return None;
      }
      var clientId := ClientIdFor(now, draw);
      sent := ws.SendMessage(roomId.value, content, Some(Trim(receiverUsername.value)), Some(clientId), freshId, sender, now);
    }
  }
}
