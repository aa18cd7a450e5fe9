/** The "Edit user list" screen: a local copy of a user list, filtered by a search box,
    from which a user can be deleted by swiping. */
module EditUserList {
  import opened Seqs
  import opened Users

  datatype Screen = Screen(query: string, localUserList: seq<User>)

  /** The screen opens with an empty query and a local copy of the list it was given. */
  function Open(userList: seq<User>): (s: Screen)
    ensures s.localUserList == userList && s.query == ""
    ensures FilteredUserList(s) == userList
  {
    FilterEmptyQuery(userList);
    Screen("", userList)
  }

  /** The users shown: those of the local list whose username contains the query, ignoring
      ASCII case, in list order. */
  function FilteredUserList(s: Screen): (r: seq<User>)
    ensures IsSubsequence(r, s.localUserList)
    ensures forall i :: 0 <= i < |r| ==> r[i] in s.localUserList && UsernameMatches(r[i], s.query)
    ensures forall i :: 0 <= i < |s.localUserList| && UsernameMatches(s.localUserList[i], s.query) ==>
              s.localUserList[i] in r
    ensures forall u :: multiset(r)[u] == if UsernameMatches(u, s.query) then multiset(s.localUserList)[u] else 0
  {
    FilterByUsername(s.localUserList, s.query)
  }

  function SetQuery(s: Screen, text: string): (r: Screen)
    ensures r.query == text && r.localUserList == s.localUserList
  {
    s.(query := text)
  }

  /** The outcome of `POST /deleteuserfromlist`. */
  datatype DeleteOutcome =
    | Answered(ok: bool)  // a response arrived; `ok` is `response.ok`
    | Threw               // `fetch` itself rejected

  /** `deleteUserFromList(pk)`: only an ok response removes the user locally; a non-ok
      response or a thrown error is logged and leaves the list as it was. */
  function DeleteUserFromList(s: Screen, pk: int, outcome: DeleteOutcome): (r: Screen)
    ensures r.query == s.query
    ensures outcome == Answered(true) ==>
              && !HasPk(r.localUserList, pk)
              && IsSubsequence(r.localUserList, s.localUserList)
              && forall u :: multiset(r.localUserList)[u] == if u.pk == pk then 0 else multiset(s.localUserList)[u]
    ensures outcome != Answered(true) ==> r == s
  {
    match outcome
    case Answered(ok) =>
      if ok then s.(localUserList := RemovePk(s.localUserList, pk)) else s
    case Threw => s
  }

  /** After a successful delete the shown list is the previously shown list without that user:
      deleting and filtering commute. */
  lemma DeleteThenFilter(s: Screen, pk: int)
    ensures FilteredUserList(DeleteUserFromList(s, pk, Answered(true))) == RemovePk(FilteredUserList(s), pk)
  {
    FilterAfterRemove(s.localUserList, s.query, pk);
  }
}
