/** Group membership on the backend (`ChatService`): creating a group and
    adding, removing and promoting members, with the checks that throw.
    The repositories are abstract: the room `findById` loaded is a parameter
    (`null` when there is none), the user directory is a value, and what the
    service saves and broadcasts is returned. */
module GroupService {
  import opened Wrappers
  import opened Text
  import opened Seqs
  import opened RoomModel

  /** A thrown exception: a `RuntimeException` with its message, or a
      `NullPointerException` from a missing list. */
  datatype ServiceError = Runtime(message: string) | NullPointer

  /** The user repository, as far as these operations look at it. */
  datatype Directory = Directory(usernameByEmail: map<string, string>, usernames: set<string>)

  /** A `convertAndSendToUser(user, destination, text)` call. */
  datatype Notice = Notice(user: string, destination: string, text: string)

  const UpdatesDestination := "/topic/updates"

  /** `"..." + name` in Java, where a `null` name prints as "null". */
  function NameText(name: Option<string>): string {
    name.GetOr("null")
  }

  /** `broadcastGroupUpdate`: one notice to each member, in list order. */
  function GroupUpdateNotices(members: seq<string>, name: Option<string>): (ns: seq<Notice>)
    ensures |ns| == |members|
    ensures forall i :: 0 <= i < |members| ==>
              ns[i] == Notice(members[i], UpdatesDestination, "Group updated: " + NameText(name))
  {
    seq(|members|, i requires 0 <= i < |members| => Notice(members[i], UpdatesDestination, "Group updated: " + NameText(name)))
  }

  /** `fetchUsernameByEmailOrNull`. */
  function UsernameByEmail(dir: Directory, email: string): Option<string> {
    if email in dir.usernameByEmail then Some(dir.usernameByEmail[email]) else None
  }

  /** What one member input stands for: nothing for a null or blank input, the
      looked-up username (or nothing) for an input with '@', else the input. */
  function Resolve(dir: Directory, input: Option<string>): (r: Option<string>)
    ensures r.Some? ==> input.Some? && !IsJavaBlank(input.value)
    ensures input.Some? && !IsJavaBlank(input.value) && !Contains(input.value, "@") ==> r == input
    ensures input.Some? && Contains(input.value, "@") ==>
              r == (if IsJavaBlank(input.value) then None else UsernameByEmail(dir, input.value))
  {
    if input.None? || IsJavaBlank(input.value) then None
    else if Contains(input.value, "@") then UsernameByEmail(dir, input.value)
    else Some(input.value)
  }

  /** The creator: looked up by email, then by username. */
  function FindCreator(dir: Directory, identifier: Option<string>): (r: Result<string, ServiceError>)
    ensures identifier.None? || IsJavaBlank(identifier.value) ==> r == Err(Runtime("Creator username/email is required."))
    ensures r.Ok? ==> identifier.Some? && !IsJavaBlank(identifier.value)
                      && (identifier.value in dir.usernameByEmail ==> r.value == dir.usernameByEmail[identifier.value])
                      && (identifier.value !in dir.usernameByEmail ==> r.value == identifier.value && r.value in dir.usernames)
    ensures (identifier.Some? && !IsJavaBlank(identifier.value) && identifier.value !in dir.usernameByEmail
             && identifier.value !in dir.usernames) ==> r == Err(Runtime("Creator not found: " + identifier.value))
  {
    if identifier.None? || IsJavaBlank(identifier.value) then Err(Runtime("Creator username/email is required."))
    else if identifier.value in dir.usernameByEmail then Ok(dir.usernameByEmail[identifier.value])
    else if identifier.value in dir.usernames then Ok(identifier.value)
    else Err(Runtime("Creator not found: " + identifier.value))
  }

  /** The separators U+001C to U+001F count as blank, as `isBlank` has it:
      such a creator is refused before any lookup, and such an input is
      skipped. */
  lemma SeparatorIsBlank(dir: Directory)
    ensures FindCreator(dir, Some(['\U{001C}'])) == Err(Runtime("Creator username/email is required."))
    ensures Resolve(dir, Some(['\U{001F}'])) == None
  {
  }

  /** The member set `createGroup` builds from the inputs seen so far. */
  function CreatedMembers(dir: Directory, creator: string, inputs: seq<Option<string>>): set<string>
    decreases |inputs|
  {
    if inputs == [] then {creator}
    else
      var u := Resolve(dir, inputs[|inputs| - 1]);
      CreatedMembers(dir, creator, inputs[..|inputs| - 1])
        + (if u.Some? && !EqualsIgnoreCase(u.value, creator) then {u.value} else {})
  }

  /** The creator and every resolved input that is not the creator ignoring
      case, and nothing else. */
  lemma {:induction false} CreatedMembersAre(dir: Directory, creator: string, inputs: seq<Option<string>>, x: string)
    ensures x in CreatedMembers(dir, creator, inputs) <==>
              x == creator || exists i :: 0 <= i < |inputs| && Resolve(dir, inputs[i]) == Some(x) && !EqualsIgnoreCase(x, creator)
    decreases |inputs|
  {
    if inputs != [] {
      var init := inputs[..|inputs| - 1];
      CreatedMembersAre(dir, creator, init, x);
      if exists i :: 0 <= i < |inputs| && Resolve(dir, inputs[i]) == Some(x) && !EqualsIgnoreCase(x, creator) {
        var i :| 0 <= i < |inputs| && Resolve(dir, inputs[i]) == Some(x) && !EqualsIgnoreCase(x, creator);
        if i < |init| {
          assert init[i] == inputs[i];
        }
      }
      if exists i :: 0 <= i < |init| && Resolve(dir, init[i]) == Some(x) && !EqualsIgnoreCase(x, creator) {
        var i :| 0 <= i < |init| && Resolve(dir, init[i]) == Some(x) && !EqualsIgnoreCase(x, creator);
        assert inputs[i] == init[i];
      }
    }
  }

  /** The new-member set `addMembers` builds from the inputs seen so far. */
  function AddedMembers(dir: Directory, current: seq<string>, inputs: seq<Option<string>>): set<string>
    decreases |inputs|
  {
    if inputs == [] then {}
    else
      var u := Resolve(dir, inputs[|inputs| - 1]);
      AddedMembers(dir, current, inputs[..|inputs| - 1])
        + (if u.Some? && u.value !in current then {u.value} else {})
  }

  /** Exactly the resolved inputs that are not members yet. */
  lemma {:induction false} AddedMembersAre(dir: Directory, current: seq<string>, inputs: seq<Option<string>>, x: string)
    ensures x in AddedMembers(dir, current, inputs) <==>
              x !in current && exists i :: 0 <= i < |inputs| && Resolve(dir, inputs[i]) == Some(x)
    decreases |inputs|
  {
    if inputs != [] {
      var init := inputs[..|inputs| - 1];
      AddedMembersAre(dir, current, init, x);
      if exists i :: 0 <= i < |inputs| && Resolve(dir, inputs[i]) == Some(x) {
        var i :| 0 <= i < |inputs| && Resolve(dir, inputs[i]) == Some(x);
        if i < |init| {
          assert init[i] == inputs[i];
        }
      }
      if exists i :: 0 <= i < |init| && Resolve(dir, init[i]) == Some(x) {
        var i :| 0 <= i < |init| && Resolve(dir, init[i]) == Some(x);
        assert inputs[i] == init[i];
      }
    }
  }

  /** The membership invariant: both lists present and distinct objects,
      neither holds a name twice, and every admin is a member. */
  predicate GroupInvariant(room: ChatRoom)
    reads room, room.admins, room.members
  {
    && room.admins != null && room.members != null && room.admins != room.members
    && NoDuplicates(room.admins.elems) && NoDuplicates(room.members.elems)
    && forall a :: a in room.admins.elems ==> a in room.members.elems
  }

  /** The loop of `createGroup` over the member inputs: the creator, plus
      every input that resolves to a username other than the creator's. */
  method CollectCreatedMembers(dir: Directory, creatorUsername: string, inputs: seq<Option<string>>)
    returns (members: set<string>)
    ensures members == CreatedMembers(dir, creatorUsername, inputs)
  {
    members := {creatorUsername};
    var i := 0;
    while i < |inputs|
      invariant 0 <= i <= |inputs|
      invariant members == CreatedMembers(dir, creatorUsername, inputs[..i])
    {
      assert inputs[..i + 1][..i] == inputs[..i];
      var input := inputs[i];
      if input.None? || IsJavaBlank(input.value) {
        i := i + 1;
        continue;
      }
      var username := if Contains(input.value, "@") then UsernameByEmail(dir, input.value) else Some(input.value);
      assert Resolve(dir, input) == username;
      if username.Some? && !EqualsIgnoreCase(username.value, creatorUsername) {
        members := members + {username.value};
      }
      i := i + 1;
    }
    assert inputs[..i] == inputs;
  }

  /** `createGroup`. `newId` is the id the repository assigns on save. */
  method CreateGroup(dir: Directory, groupName: Option<string>, creatorIdentifier: Option<string>,
                     memberInputs: Option<seq<Option<string>>>, newId: string)
    returns (r: Result<ChatRoom, ServiceError>, notices: seq<Notice>)
    ensures r.Err? <==> FindCreator(dir, creatorIdentifier).Err?
    ensures r.Err? ==> r.error == FindCreator(dir, creatorIdentifier).error && notices == []
    ensures r.Ok? ==>
              var room := r.value;
              var creator := FindCreator(dir, creatorIdentifier).value;
              && fresh(room) && fresh(room.admins) && fresh(room.members)
              && GroupInvariant(room)
              && room.id == Some(newId) && room.name == groupName && !room.isGroup && !room.isPrivate
              && room.admins.elems == [creator]
              && (forall x :: x in room.members.elems <==> x in CreatedMembers(dir, creator, memberInputs.GetOr([])))
              && notices == GroupUpdateNotices(room.members.elems, groupName)
  {
    var found := FindCreator(dir, creatorIdentifier);
    if found.Err? {
      return Err(found.error), [];
    }
    var creatorUsername := found.value;
    var members: set<string> := {creatorUsername};
    if memberInputs.Some? && |memberInputs.value| > 0 {
      members := CollectCreatedMembers(dir, creatorUsername, memberInputs.value);
    }
    CreatedMembersAre(dir, creatorUsername, memberInputs.GetOr([]), creatorUsername);
    var room := BuildGroup(groupName, creatorUsername, members, newId);
    notices := GroupUpdateNotices(room.members.elems, room.name);
    r := Ok(room);
  }

  /** The room `createGroup` saves: the name, the creator as the only admin,
      the member set as the member list, and the id the save assigns. */
  method BuildGroup(groupName: Option<string>, creatorUsername: string, members: set<string>, newId: string)
    returns (room: ChatRoom)
    requires creatorUsername in members
    ensures fresh(room) && fresh(room.admins) && fresh(room.members)
    ensures GroupInvariant(room)
    ensures room.id == Some(newId) && room.name == groupName && !room.isGroup && !room.isPrivate
    ensures room.admins.elems == [creatorUsername]
    ensures forall x :: x in room.members.elems <==> x in members
  {
    var admins: set<string> := {creatorUsername};
    room := new ChatRoom.Default();
    room.SetName(groupName);
    var adminList := new StringList.FromSet(admins);
    room.SetAdmins(adminList);
    var memberList := new StringList.FromSet(members);
    room.SetMembers(memberList);
    room.SetId(Some(newId));
    SingletonEnumeration(adminList.elems, creatorUsername);
  }

  /** No input `addMembers` keeps is a member already. */
  lemma AddedMembersFresh(dir: Directory, current: seq<string>, inputs: seq<Option<string>>)
    ensures forall x :: x in AddedMembers(dir, current, inputs) ==> x !in current
  {
    forall x | x in AddedMembers(dir, current, inputs) ensures x !in current {
      AddedMembersAre(dir, current, inputs, x);
    }
  }

  /** The loop of `addMembers` over a non-empty input list: the new usernames,
      or the exception a `null` member list raises at the first input that
      resolves. */
  method CollectNewMembers(dir: Directory, members: StringList?, xs: seq<Option<string>>)
    returns (r: Result<set<string>, ServiceError>)
    ensures members != null ==> r == Ok(AddedMembers(dir, members.elems, xs))
    ensures members == null ==>
              && ((exists i :: 0 <= i < |xs| && Resolve(dir, xs[i]).Some?) <==> r == Err(NullPointer))
              && (r.Ok? ==> r.value == {})
  {
    var newMembers: set<string> := {};
    var i := 0;
    while i < |xs|
      invariant 0 <= i <= |xs|
      invariant members != null ==> newMembers == AddedMembers(dir, members.elems, xs[..i])
      invariant members == null ==> newMembers == {} && forall k :: 0 <= k < i ==> Resolve(dir, xs[k]).None?
    {
      assert xs[..i + 1][..i] == xs[..i];
      var input := xs[i];
      if input.None? || IsJavaBlank(input.value) {
        i := i + 1;
        continue;
      }
      var username := if Contains(input.value, "@") then UsernameByEmail(dir, input.value) else Some(input.value);
      if username.Some? {
        if members == null {
          return Err(NullPointer);
        }
        if !members.Contains(username.value) {
          newMembers := newMembers + {username.value};
        }
      }
      i := i + 1;
    }
    assert xs[..i] == xs;
    r := Ok(newMembers);
  }

  /** `getMembers().addAll(newMembers)` for a `HashSet`: the new names go to
      the end, each once, in the set's iteration order. */
  method AppendMembers(list: StringList, added: set<string>)
    modifies list
    ensures |old(list.elems)| <= |list.elems| && list.elems[..|old(list.elems)|] == old(list.elems)
    ensures NoDuplicates(list.elems[|old(list.elems)|..])
    ensures forall x :: x in list.elems[|old(list.elems)|..] <==> x in added
    ensures NoDuplicates(old(list.elems)) && (forall x :: x in added ==> x !in old(list.elems)) ==>
              NoDuplicates(list.elems)
  {
    var before := list.elems;
    var order := Enumerate(added);
    if NoDuplicates(before) && forall x :: x in added ==> x !in before {
      NoDuplicatesAppend(before, order);
    }
    list.AddAll(order);
    assert list.elems[|before|..] == order;
  }

  /** `addMembers`. `group` is what `findById(groupId)` loaded, `null` when
      there is none. The members already present are looked up in the list
      as it was before the call; a resolved input meeting a `null` member
      list throws. Nothing is saved or broadcast when nothing new remains. */
  method AddMembers(dir: Directory, group: ChatRoom?, groupId: string, inputs: Option<seq<Option<string>>>)
    returns (r: Result<ChatRoom, ServiceError>, saved: bool, notices: seq<Notice>)
    modifies if group != null && group.members != null then {group.members} else {}
    ensures group == null ==> r == Err(Runtime("Group not found: " + groupId)) && !saved && notices == []
    ensures group != null && (inputs.None? || inputs.value == []) ==>
              r == Err(Runtime("No members provided")) && !saved && notices == []
    ensures group != null && inputs.Some? && inputs.value != [] && group.members == null ==>
              && ((exists i :: 0 <= i < |inputs.value| && Resolve(dir, inputs.value[i]).Some?) <==> r == Err(NullPointer))
              && (r.Ok? ==> r.value == group) && !saved && notices == []
    ensures group != null && inputs.Some? && inputs.value != [] && group.members != null ==>
              var before := old(group.members.elems);
              var added := AddedMembers(dir, before, inputs.value);
              var after := group.members.elems;
              && r == Ok(group) && (saved <==> added != {})
              && |before| <= |after| && after[..|before|] == before
              && NoDuplicates(after[|before|..])
              && (forall x :: x in after[|before|..] <==> x in added)
              && notices == (if saved then GroupUpdateNotices(after, group.name) else [])
    ensures group != null && group.members != null && r.Err? ==> group.members.elems == old(group.members.elems)
    ensures group != null && group.admins != null && group.admins != group.members ==>
              group.admins.elems == old(group.admins.elems)
    ensures group != null && old(GroupInvariant(group)) ==> GroupInvariant(group)
  {
    if group == null {
      return Err(Runtime("Group not found: " + groupId)), false, [];
    }
    if inputs.None? || |inputs.value| == 0 {
      return Err(Runtime("No members provided")), false, [];
    }
    var collected := CollectNewMembers(dir, group.members, inputs.value);
    if collected.Err? {
      return Err(collected.error), false, [];
    }
    var newMembers := collected.value;
    if newMembers == {} {
      return Ok(group), false, [];
    }
    AddedMembersFresh(dir, group.members.elems, inputs.value);
    AppendMembers(group.members, newMembers);
    notices := GroupUpdateNotices(group.members.elems, group.name);
    return Ok(group), true, notices;
  }

  /** `removeMember`: only an admin may remove, and only a member; the target
      then leaves the member list and the admin list, the remaining members
      are told, and so is the target. */
  method RemoveMember(group: ChatRoom?, groupId: string, adminUsername: string, memberToRemove: string)
    returns (r: Result<ChatRoom, ServiceError>, notices: seq<Notice>)
    modifies if group != null then {group.members, group.admins} else {}
    ensures group == null ==> r == Err(Runtime("Group not found: " + groupId)) && notices == []
    ensures group != null ==>
              if group.admins == null then r == Err(NullPointer)
              else if adminUsername !in old(group.admins.elems) then r == Err(Runtime("Only admins can remove members."))
              else if group.members == null then r == Err(NullPointer)
              else if memberToRemove !in old(group.members.elems) then r == Err(Runtime("User is not a member of this group."))
              else r == Ok(group)
    ensures r.Err? ==> notices == [] && (group != null && group.members != null ==> group.members.elems == old(group.members.elems))
                                     && (group != null && group.admins != null ==> group.admins.elems == old(group.admins.elems))
    ensures r.Ok? && group.admins != group.members ==>
              && group.members.elems == RemoveFirst(old(group.members.elems), memberToRemove)
              && group.admins.elems == RemoveFirst(old(group.admins.elems), memberToRemove)
    ensures r.Ok? && group.admins == group.members ==>
              group.members.elems == RemoveFirst(RemoveFirst(old(group.members.elems), memberToRemove), memberToRemove)
    ensures r.Ok? ==>
              notices == GroupUpdateNotices(group.members.elems, group.name)
                         + [Notice(memberToRemove, UpdatesDestination, "You were removed from group " + NameText(group.name))]
    ensures r.Ok? && old(GroupInvariant(group)) ==>
              && GroupInvariant(group)
              && memberToRemove !in group.members.elems && memberToRemove !in group.admins.elems
    ensures r.Err? && group != null && old(GroupInvariant(group)) ==> GroupInvariant(group)
  {
    if group == null {
      return Err(Runtime("Group not found: " + groupId)), [];
    }
    var failure := CheckRemoval(group, adminUsername, memberToRemove);
    if failure.Some? {
      return Err(failure.value), [];
    }
    notices := RemoveAndNotify(group, memberToRemove);
    r := Ok(group);
  }

  /** The checks `removeMember` makes before it changes anything: the error
      it raises, or none. */
  method CheckRemoval(group: ChatRoom, adminUsername: string, memberToRemove: string) returns (failure: Option<ServiceError>)
    ensures if group.admins == null then failure == Some(NullPointer)
            else if adminUsername !in group.admins.elems then failure == Some(Runtime("Only admins can remove members."))
            else if group.members == null then failure == Some(NullPointer)
            else if memberToRemove !in group.members.elems then failure == Some(Runtime("User is not a member of this group."))
            else failure == None
  {
    if group.admins == null {
      return Some(NullPointer);
    }
    if !group.admins.Contains(adminUsername) {
      return Some(Runtime("Only admins can remove members."));
    }
    if group.members == null {
      return Some(NullPointer);
    }
    if !group.members.Contains(memberToRemove) {
      return Some(Runtime("User is not a member of this group."));
    }
    failure := None;
  }

  /** The part of `removeMember` after its checks: both removals, then the
      update to the remaining members and the notice to the removed one. */
  method RemoveAndNotify(group: ChatRoom, memberToRemove: string) returns (notices: seq<Notice>)
    requires group.admins != null && group.members != null
    modifies group.members, group.admins
    ensures group.admins != group.members ==>
              && group.members.elems == RemoveFirst(old(group.members.elems), memberToRemove)
              && group.admins.elems == RemoveFirst(old(group.admins.elems), memberToRemove)
    ensures group.admins == group.members ==>
              group.members.elems == RemoveFirst(RemoveFirst(old(group.members.elems), memberToRemove), memberToRemove)
    ensures notices == GroupUpdateNotices(group.members.elems, group.name)
                       + [Notice(memberToRemove, UpdatesDestination, "You were removed from group " + NameText(group.name))]
    ensures old(GroupInvariant(group)) ==>
              && GroupInvariant(group)
              && memberToRemove !in group.members.elems && memberToRemove !in group.admins.elems
  {
    RemoveFromBoth(group.members, group.admins, memberToRemove);
    notices := GroupUpdateNotices(group.members.elems, group.name)
               + [Notice(memberToRemove, UpdatesDestination, "You were removed from group " + NameText(group.name))];
  }

  /** Removing a name from both lists of a room that keeps the invariant
      leaves it in neither and keeps the invariant. */
  lemma RemovalKeepsInvariant(members: seq<string>, admins: seq<string>, x: string)
    requires NoDuplicates(members) && NoDuplicates(admins)
    requires forall a :: a in admins ==> a in members
    ensures var m, a := RemoveFirst(members, x), RemoveFirst(admins, x);
            && NoDuplicates(m) && NoDuplicates(a) && x !in m && x !in a
            && forall y :: y in a ==> y in m
  {
    RemoveFirstNoDuplicates(members, x);
    RemoveFirstNoDuplicates(admins, x);
  }

  /** `getMembers().remove(x)` then `getAdmins().remove(x)`. When the two
      are one list, it loses two occurrences. Two distinct lists that keep
      the membership invariant still keep it, and hold `x` no more. */
  method RemoveFromBoth(members: StringList, admins: StringList, x: string)
    modifies members, admins
    ensures members != admins ==>
              members.elems == RemoveFirst(old(members.elems), x) && admins.elems == RemoveFirst(old(admins.elems), x)
    ensures members == admins ==> members.elems == RemoveFirst(RemoveFirst(old(members.elems), x), x)
    ensures members != admins && NoDuplicates(old(members.elems)) && NoDuplicates(old(admins.elems))
            && (forall a :: a in old(admins.elems) ==> a in old(members.elems)) ==>
              && NoDuplicates(members.elems) && NoDuplicates(admins.elems)
              && x !in members.elems && x !in admins.elems
              && forall a :: a in admins.elems ==> a in members.elems
  {
    ghost var members0 := members.elems;
    ghost var admins0 := admins.elems;
    var _ := members.Remove(x);
    var _ := admins.Remove(x);
    if members != admins && NoDuplicates(members0) && NoDuplicates(admins0) && forall a :: a in admins0 ==> a in members0 {
      RemovalKeepsInvariant(members0, admins0, x);
    }
  }

  /** `assignAdmin`: only an admin may promote, and only a member; a member
      who is an admin already is not added again. The group is saved and
      its members told in every successful case. */
  method AssignAdmin(group: ChatRoom?, groupId: string, adminUsername: string, newAdminUsername: string)
    returns (r: Result<ChatRoom, ServiceError>, notices: seq<Notice>)
    modifies if group != null then {group.admins} else {}
    ensures group == null ==> r == Err(Runtime("Group not found: " + groupId)) && notices == []
    ensures group != null ==>
              if group.admins == null then r == Err(NullPointer)
              else if adminUsername !in old(group.admins.elems) then r == Err(Runtime("Only admins can promote members."))
              else if group.members == null then r == Err(NullPointer)
              else if newAdminUsername !in old(group.members.elems) then r == Err(Runtime("New admin must be a member of the group."))
              else r == Ok(group)
    ensures r.Err? ==> notices == [] && (group != null && group.admins != null ==> group.admins.elems == old(group.admins.elems))
    ensures r.Ok? ==>
              group.admins.elems == if newAdminUsername in old(group.admins.elems) then old(group.admins.elems)
                                    else old(group.admins.elems) + [newAdminUsername]
    ensures r.Ok? ==> notices == GroupUpdateNotices(group.members.elems, group.name)
    ensures group != null && group.members != null && group.members != group.admins ==>
              group.members.elems == old(group.members.elems)
    ensures group != null && old(GroupInvariant(group)) ==> GroupInvariant(group)
  {
    if group == null {
      return Err(Runtime("Group not found: " + groupId)), [];
    }
    if group.admins == null {
      return Err(NullPointer), [];
    }
    if !group.admins.Contains(adminUsername) {
      return Err(Runtime("Only admins can promote members.")), [];
    }
    if group.members == null {
      return Err(NullPointer), [];
    }
    if !group.members.Contains(newAdminUsername) {
      return Err(Runtime("New admin must be a member of the group.")), [];
    }
    if !group.admins.Contains(newAdminUsername) {
      if NoDuplicates(group.admins.elems) {
        NoDuplicatesSnoc(group.admins.elems, newAdminUsername);
      }
      group.admins.Add(newAdminUsername);
    }
    notices := GroupUpdateNotices(group.members.elems, group.name);
    r := Ok(group);
  }
}
