/** The user search endpoint (`UserController.searchUsers`): every user whose
    username, lowercased, contains the lowercased query, in repository order.
    A user without a username makes the filter throw. Lowercasing is ASCII. */
module UserSearch {
  import opened Wrappers
  import opened Text
  import opened Accounts

  /** The filter's test for one username. */
  predicate Matches(username: string, query: string) {
    Contains(Lower(username), Lower(query))
  }

  /** Whether `sub` is `s` with some elements left out, order kept. */
  predicate IsSubsequence<T(==)>(sub: seq<T>, s: seq<T>)
    decreases |s|
  {
    if s == [] then sub == []
    else (sub != [] && sub[0] == s[0] && IsSubsequence(sub[1..], s[1..])) || IsSubsequence(sub, s[1..])
  }

  /** The filter over users that all have a username. */
  function Filtered(users: seq<UserRecord>, query: string): (r: seq<UserRecord>)
    requires forall i :: 0 <= i < |users| ==> users[i].username.Some?
    ensures forall i :: 0 <= i < |r| ==> r[i] in users && Matches(r[i].username.value, query)
    ensures forall u :: u in users && Matches(u.username.value, query) ==> u in r
    decreases |users|
  {
    if users == [] then []
    else
      var rest := Filtered(users[1..], query);
      if Matches(users[0].username.value, query) then [users[0]] + rest else rest
  }

  /** `searchUsers`: the users found, or the exception a missing username raises. */
  function Search(users: seq<UserRecord>, query: string): (r: Result<seq<UserRecord>, string>)
    ensures r.Err? <==> exists i :: 0 <= i < |users| && users[i].username.None?
    ensures r.Ok? ==> r.value == Filtered(users, query)
  {
    if exists i :: 0 <= i < |users| && users[i].username.None? then Err("NullPointerException")
    else Ok(Filtered(users, query))
  }

  /** The result keeps the repository's order. */
  lemma {:induction false} FilteredIsSubsequence(users: seq<UserRecord>, query: string)
    requires forall i :: 0 <= i < |users| ==> users[i].username.Some?
    ensures IsSubsequence(Filtered(users, query), users)
    decreases |users|
  {
    if users != [] {
      FilteredIsSubsequence(users[1..], query);
      var rest := Filtered(users[1..], query);
      if Matches(users[0].username.value, query) {
        assert ([users[0]] + rest)[1..] == rest;
      }
    }
  }

  /** The empty query finds every user. */
  lemma {:induction false} EmptyQueryFindsAll(users: seq<UserRecord>)
    requires forall i :: 0 <= i < |users| ==> users[i].username.Some?
    ensures Filtered(users, "") == users
    decreases |users|
  {
    if users != [] {
      assert OccursAt(Lower(users[0].username.value), 0, Lower(""));
      EmptyQueryFindsAll(users[1..]);
    }
  }

  /** A query and its upper-cased form find the same users. */
  lemma CaseInsensitive(users: seq<UserRecord>, query: string)
    ensures Search(users, Upper(query)) == Search(users, query)
  {
    LowerOfUpper(query);
    if forall i :: 0 <= i < |users| ==> users[i].username.Some? {
      FilteredSameTest(users, Upper(query), query);
    }
  }

  /** Queries with the same lowercase form find the same users. */
  lemma {:induction false} FilteredSameTest(users: seq<UserRecord>, q1: string, q2: string)
    requires forall i :: 0 <= i < |users| ==> users[i].username.Some?
    requires Lower(q1) == Lower(q2)
    ensures Filtered(users, q1) == Filtered(users, q2)
    decreases |users|
  {
    if users != [] {
      FilteredSameTest(users[1..], q1, q2);
    }
  }
}
