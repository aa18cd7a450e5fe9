/** The "Add user to list" screen: a set of selected users keyed by `pk`, toggled by
    tapping a user, and a search box whose request outcome decides which users are
    offered. */
module AddUserToList {
  import opened Wrappers
  import opened Seqs
  import opened Users

  /** A user is shown as selected when some selected entry has the same `pk`. */
  predicate IsSelected(selected: seq<User>, u: User) {
    HasPk(selected, u.pk)
  }

  /** Tapping a user: deselects every entry with its `pk` if there is one, else appends it. */
  function Toggle(selected: seq<User>, u: User): (r: seq<User>)
    ensures IsSelected(r, u) == !IsSelected(selected, u)
    ensures !IsSelected(selected, u) ==> |r| == |selected| + 1 && r[..|selected|] == selected && r[|selected|] == u
    ensures IsSelected(selected, u) ==>
              && |r| < |selected|
              && IsSubsequence(r, selected)
              && forall v :: multiset(r)[v] == if v.pk == u.pk then 0 else multiset(selected)[v]
    ensures DistinctPks(selected) ==> DistinctPks(r)
  {
    if IsSelected(selected, u) then
      var r := RemovePk(selected, u.pk);
      assert |r| < |selected| by {
        var i :| 0 <= i < |selected| && selected[i].pk == u.pk;
        KeepShorter(selected, PkDiffers(u.pk), i);
      }
      r
    else
      assert DistinctPks(selected) ==> DistinctPks(selected + [u]) by {
        if DistinctPks(selected) {
          var r := selected + [u];
          forall i, j | 0 <= i < j < |r|
            ensures r[i].pk != r[j].pk
          {
            if j == |selected| {
              assert r[i] == selected[i];
            }
          }
        }
      }
      assert (selected + [u])[|selected|] == u;
      selected + [u]
  }

  /** The close button on a selected user: drops every selected entry with that `pk`. */
  function RemoveSelected(selected: seq<User>, u: User): (r: seq<User>)
    ensures !IsSelected(r, u)
    ensures IsSubsequence(r, selected)
    ensures forall v :: multiset(r)[v] == if v.pk == u.pk then 0 else multiset(selected)[v]
    ensures !IsSelected(selected, u) ==> r == selected
    ensures DistinctPks(selected) ==> DistinctPks(r)
  {
    RemovePk(selected, u.pk)
  }

  /** Tapping a user that was not selected, then tapping it again, restores the selection. */
  lemma ToggleTwiceRestores(selected: seq<User>, u: User)
    requires !IsSelected(selected, u)
    ensures Toggle(Toggle(selected, u), u) == selected
  {
    var p := PkDiffers(u.pk);
    KeepAppend(selected, [u], p);
    KeepAll(selected, p);
  }

  /** Tapping a selected user twice moves it to the end of the selection. */
  lemma ToggleTwiceMovesToEnd(selected: seq<User>, u: User)
    requires IsSelected(selected, u)
    ensures Toggle(Toggle(selected, u), u) == RemovePk(selected, u.pk) + [u]
  {
  }

  /** The outcome of the user search request for the current query. */
  datatype SearchOutcome =
    | Responded(data: Option<User>)  // a 2xx response; None when the body is empty
    | HttpError(status: int)         // the client rejected with a response attached
    | NoResponse                     // the request failed without a response

  /** The screen's state (the `selectedUsers`, `filteredUsers`, ... hooks). */
  datatype Screen = Screen(
    users: seq<User>,
    query: string,
    filteredUsers: seq<User>,
    selected: seq<User>,
    noUserFound: bool,
    isLoading: bool)

  function Init(): Screen {
    Screen([], "", [], [], false, false)
  }

  /** The effect of one `searchUsers` call: the new state, the query sent (if a request
      was made) and whether the error alert was raised. */
  datatype SearchRun = SearchRun(screen: Screen, request: Option<string>, alerted: bool)

  /** `searchUsers`, with the network call replaced by its outcome. An empty query makes
      no request and offers `users` again. */
  function SearchUsers(s: Screen, outcome: SearchOutcome): (r: SearchRun)
    ensures r.screen.users == s.users && r.screen.query == s.query && r.screen.selected == s.selected
    ensures s.query == "" ==>
              && r.request == None && !r.alerted
              && r.screen.filteredUsers == s.users && !r.screen.noUserFound
              && r.screen.isLoading == s.isLoading
    ensures s.query != "" ==> r.request == Some(s.query) && !r.screen.isLoading
    ensures s.query != "" && outcome.Responded? && outcome.data.Some? ==>
              r.screen.filteredUsers == [outcome.data.value] && !r.screen.noUserFound
    ensures s.query != "" && outcome == HttpError(404) ==>
              r.screen.filteredUsers == [] && r.screen.noUserFound
    ensures s.query != "" && !(outcome.Responded? && outcome.data.Some?) && outcome != HttpError(404) ==>
              r.screen.filteredUsers == s.filteredUsers && r.screen.noUserFound == s.noUserFound
    ensures r.alerted <==> s.query != "" && (outcome.NoResponse? || (outcome.HttpError? && outcome.status != 404))
  {
    if s.query == "" then
      SearchRun(s.(filteredUsers := s.users, noUserFound := false), None, false)
    else
      var loading := s.(isLoading := true);
      match outcome
      case Responded(Some(u)) =>
        SearchRun(loading.(filteredUsers := [u], noUserFound := false, isLoading := false), Some(s.query), false)
      case Responded(None) =>
        SearchRun(loading.(isLoading := false), Some(s.query), false)
      case HttpError(status) =>
        if status == 404 then
          SearchRun(loading.(isLoading := false, filteredUsers := [], noUserFound := true), Some(s.query), false)
        else
          SearchRun(loading.(isLoading := false), Some(s.query), true)
      case NoResponse =>
        SearchRun(loading.(isLoading := false), Some(s.query), true)
  }

  /** Typing in the search box: records the text and hides the "No user found." notice. */
  function ChangeText(s: Screen, text: string): (r: Screen)
    ensures r.query == text && !r.noUserFound
    ensures r.(query := s.query, noUserFound := s.noUserFound) == s
  {
    s.(noUserFound := false, query := text)
  }

  /** What the body of the screen shows (the conditional rendering below the selection). */
  datatype Body = Spinner | NoUserNotice | UserList(users: seq<User>)

  function Shown(s: Screen): (b: Body)
    ensures b == Spinner <==> s.isLoading
    ensures b == NoUserNotice <==> !s.isLoading && s.noUserFound
    ensures b.UserList? ==> b.users == s.filteredUsers
  {
    if s.isLoading then Spinner
    else if s.noUserFound then NoUserNotice
    else UserList(s.filteredUsers)
  }

  /** The user-driven events of the screen. */
  datatype Event =
    | TypeQuery(text: string)
    | Search(outcome: SearchOutcome)
    | PressUser(user: User)
    | RemoveUser(user: User)

  function Step(s: Screen, e: Event): Screen {
    match e
    case TypeQuery(text) => ChangeText(s, text)
    case Search(outcome) => SearchUsers(s, outcome).screen
    case PressUser(u) => s.(selected := Toggle(s.selected, u))
    case RemoveUser(u) => s.(selected := RemoveSelected(s.selected, u))
  }

  /** The state invariant: `users` is never assigned, so it stays empty; nothing is loading
      between events; the "not found" notice only accompanies an empty result; and the
      selection never holds two entries with the same `pk`. */
  ghost predicate Valid(s: Screen) {
    && s.users == []
    && !s.isLoading
    && (s.noUserFound ==> s.filteredUsers == [])
    && DistinctPks(s.selected)
  }

  lemma InitValid()
    ensures Valid(Init())
  {
  }

  /** Every event preserves the invariant. */
  lemma StepPreservesValid(s: Screen, e: Event)
    requires Valid(s)
    ensures Valid(Step(s, e))
  {
  }

  /** Typing a query and letting its search complete shows "No user found." exactly when
      the query is non-empty and the backend answered 404, and lists exactly the found user
      when it answered with one. */
  lemma NoticeAfterTypedSearch(s: Screen, text: string, outcome: SearchOutcome)
    requires Valid(s)
    ensures var t := Step(Step(s, TypeQuery(text)), Search(outcome));
            && (Shown(t) == NoUserNotice <==> text != "" && outcome == HttpError(404))
            && (text != "" && outcome.Responded? && outcome.data.Some? ==> Shown(t) == UserList([outcome.data.value]))
            && (text == "" ==> Shown(t) == UserList([]))
  {
  }
}
