/** The backend's chat-room record (`ChatRoom`) and the `java.util` lists it
    holds. A list is an object of its own, so two rooms, or a room and its
    caller, can share one; a `null` list is a `null` reference. */
module RoomModel {
  import opened Wrappers
  import opened Seqs

  /** A `List<String>` (an `ArrayList`). */
  class StringList {
    var elems: seq<string>

    /** `new ArrayList<>()`. */
    constructor Empty()
      ensures elems == []
    {
      elems := [];
    }

    /** `new ArrayList<>(other)` for a list that exists: a fresh list with
        the same elements (`CopyList` has the `null` case). */
    constructor Copy(other: StringList)
      ensures elems == old(other.elems)
    {
      elems := other.elems;
    }

    /** `new ArrayList<>(set)` for a `HashSet`: every element once, in the
        set's iteration order, which the model leaves open. */
    constructor FromSet(s: set<string>)
      ensures NoDuplicates(elems) && |elems| == |s| && forall x :: x in elems <==> x in s
    {
      elems := [];
      new;
      elems := Enumerate(s);
    }

    predicate Contains(x: string)
      reads this
    {
      x in elems
    }

    method Add(x: string)
      modifies this
      ensures elems == old(elems) + [x]
    {
      elems := elems + [x];
    }

    method AddAll(xs: seq<string>)
      modifies this
      ensures elems == old(elems) + xs
    {
      elems := elems + xs;
    }

    /** `remove(Object)`: drops the first occurrence and says whether there was one. */
    method Remove(x: string) returns (removed: bool)
      modifies this
      ensures removed <==> x in old(elems)
      ensures elems == RemoveFirst(old(elems), x)
    {
      removed := x in elems;
      elems := RemoveFirst(elems, x);
    }
  }

  /** `new ArrayList<>(other)` where `other` may be `null`: a `null` list
      makes the copy throw a `NullPointerException`. */
  method CopyList(other: StringList?) returns (r: Result<StringList, string>)
    ensures other == null <==> r.Err?
    ensures r.Err? ==> r.error == "NullPointerException"
    ensures r.Ok? ==> fresh(r.value) && r.value.elems == other.elems
  {
    if other == null {
      return Err("NullPointerException");
    }
    var copy := new StringList.Copy(other);
    r := Ok(copy);
  }

  /** Iterating a `HashSet`: each element exactly once, in an order the
      model does not fix. */
  method Enumerate(s: set<string>) returns (order: seq<string>)
    ensures NoDuplicates(order)
    ensures |order| == |s|
    ensures forall x :: x in order <==> x in s
  {
    order := [];
    var rest := s;
    while rest != {}
      invariant NoDuplicates(order)
      invariant forall x :: x in order <==> x in s && x !in rest
      invariant rest <= s
      invariant |order| + |rest| == |s|
      decreases |rest|
    {
      var x :| x in rest;
      NoDuplicatesSnoc(order, x);
      order := order + [x];
      rest := rest - {x};
    }
  }

  class ChatRoom {
    var id: Option<string>
    var name: Option<string>
    var isPrivate: bool
    var isGroup: bool
    var admins: StringList?
    var members: StringList?
    /** The unique key of a private chat, such as "alice-bob". */
    var pairKey: Option<string>

    /** `new ChatRoom()`: no id or name, not private, not a group, and two
        empty lists of its own. */
    constructor Default()
      ensures id.None? && name.None? && !isPrivate && !isGroup && pairKey.None?
      ensures admins != null && members != null && admins != members
      ensures fresh(admins) && fresh(members)
      ensures admins.elems == [] && members.elems == []
    {
      id := None;
      name := None;
      isPrivate := false;
      isGroup := false;
      pairKey := None;
      admins := new StringList.Empty();
      members := new StringList.Empty();
    }

    /** `new ChatRoom(name, isPrivate, isGroup, adminUsername, members)`: the
        admin list holds the admin if one is given; the member list is a copy
        of the argument, so the caller's later changes do not reach the room.
        The argument list exists here; `Make` has the `null` case. */
    constructor (name: Option<string>, isPrivate: bool, isGroup: bool, adminUsername: Option<string>, members: StringList)
      ensures this.name == name && this.isPrivate == isPrivate && this.isGroup == isGroup
      ensures id.None? && pairKey.None?
      ensures this.admins != null && this.members != null && this.admins != this.members
      ensures fresh(this.admins) && fresh(this.members)
      ensures this.admins.elems == (if adminUsername.Some? then [adminUsername.value] else [])
      ensures this.members.elems == members.elems
    {
      this.id := None;
      this.name := name;
      this.isPrivate := isPrivate;
      this.isGroup := isGroup;
      this.pairKey := None;
      var a := new StringList.Empty();
      if adminUsername.Some? {
        a.Add(adminUsername.value);
      }
      this.admins := a;
      this.members := new StringList.Copy(members);
    }

    /** The five-argument constructor called with a member list that may be
        `null`: copying a `null` list throws a `NullPointerException`, so
        no room comes out. */
    static method Make(name: Option<string>, isPrivate: bool, isGroup: bool, adminUsername: Option<string>,
                       members: StringList?)
      returns (r: Result<ChatRoom, string>)
      ensures members == null <==> r.Err?
      ensures r.Err? ==> r.error == "NullPointerException"
      ensures r.Ok? ==>
                var room := r.value;
                && fresh(room) && fresh(room.admins) && fresh(room.members)
                && room.name == name && room.isPrivate == isPrivate && room.isGroup == isGroup
                && room.id.None? && room.pairKey.None?
                && room.admins != null && room.members != null && room.admins != room.members
                && room.admins.elems == (if adminUsername.Some? then [adminUsername.value] else [])
                && room.members.elems == members.elems
    {
      if members == null {
        return Err("NullPointerException");
      }
      var room := new ChatRoom(name, isPrivate, isGroup, adminUsername, members);
      r := Ok(room);
    }

    method SetId(id: Option<string>)
      modifies this`id
      ensures this.id == id
    {
      this.id := id;
    }

    method SetName(name: Option<string>)
      modifies this`name
      ensures this.name == name
    {
      this.name := name;
    }

    method SetPrivate(aPrivate: bool)
      modifies this`isPrivate
      ensures isPrivate == aPrivate
    {
      isPrivate := aPrivate;
    }

    method SetGroup(group: bool)
      modifies this`isGroup
      ensures isGroup == group
    {
      isGroup := group;
    }

    /** Stores the list itself, not a copy. */
    method SetAdmins(admins: StringList?)
      modifies this`admins
      ensures this.admins == admins
    {
      this.admins := admins;
    }

    /** Stores the list itself, not a copy. */
    method SetMembers(members: StringList?)
      modifies this`members
      ensures this.members == members
    {
      this.members := members;
    }

    method SetPairKey(pairKey: Option<string>)
      modifies this`pairKey
      ensures this.pairKey == pairKey
    {
      this.pairKey := pairKey;
    }

    /** `isAdmin`: false when there is no admin list. */
    predicate IsAdmin(username: string): (r: bool)
      reads this, admins
      ensures r <==> admins != null && username in admins.elems
    {
      admins != null && admins.Contains(username)
    }

    /** `isMember`: false when there is no member list. */
    predicate IsMember(username: string): (r: bool)
      reads this, members
      ensures r <==> members != null && username in members.elems
    {
      members != null && members.Contains(username)
    }
  }
}
