/** The "New message" screen: the follower list loaded once, and a search box whose effect
    keeps `filteredFollowers` in step with the query. */
module NewMessage {
  import opened Seqs
  import opened Ascii
  import opened Users

  datatype Screen = Screen(followers: seq<User>, query: string, filteredFollowers: seq<User>)

  function Init(): Screen {
    Screen([], "", [])
  }

  /** The outcome of `GET /followers`. */
  datatype FetchOutcome = Fetched(data: seq<User>) | FetchFailed

  /** The mount effect: on success both lists become the response; a failure is logged only. */
  function LoadFollowers(s: Screen, outcome: FetchOutcome): (r: Screen)
    ensures r.query == s.query
    ensures outcome.Fetched? ==> r.followers == outcome.data && r.filteredFollowers == outcome.data
    ensures outcome.FetchFailed? ==> r == s
  {
    match outcome
    case Fetched(data) => s.(followers := data, filteredFollowers := data)
    case FetchFailed => s
  }

  /** The filter effect, run whenever `searchQuery` or `followers` changes. */
  function FilterEffect(s: Screen): (r: Screen)
    ensures r.followers == s.followers && r.query == s.query
    ensures IsSubsequence(r.filteredFollowers, r.followers)
    ensures forall i :: 0 <= i < |s.followers| ==>
              (s.followers[i] in r.filteredFollowers <==> UsernameMatches(s.followers[i], s.query))
    ensures forall u :: multiset(r.filteredFollowers)[u] ==
              if UsernameMatches(u, s.query) then multiset(s.followers)[u] else 0
  {
    s.(filteredFollowers := FilterByUsername(s.followers, s.query))
  }

  /** Typing in the search box, followed by the effect it triggers. */
  function ChangeQuery(s: Screen, text: string): (r: Screen)
    ensures r.query == text && r.followers == s.followers
  {
    FilterEffect(s.(query := text))
  }

  /** Mounting: the load, then the effect re-run that a change of `followers` triggers. */
  function Mount(s: Screen, outcome: FetchOutcome): Screen {
    match outcome
    case Fetched(_) => FilterEffect(LoadFollowers(s, outcome))
    case FetchFailed => s
  }

  /** Once the effects have run, the shown list is the filtered follower list. */
  ghost predicate Settled(s: Screen) {
    s.filteredFollowers == FilterByUsername(s.followers, s.query)
  }

  lemma InitSettled()
    ensures Settled(Init())
  {
  }

  lemma MountSettles(s: Screen, outcome: FetchOutcome)
    requires Settled(s)
    ensures Settled(Mount(s, outcome))
  {
  }

  lemma ChangeQuerySettles(s: Screen, text: string)
    ensures Settled(ChangeQuery(s, text))
  {
  }

  /** Loading into a fresh screen shows every follower, before and after the effect re-runs. */
  lemma MountFreshShowsAll(data: seq<User>)
    ensures LoadFollowers(Init(), Fetched(data)).filteredFollowers == data
    ensures Mount(Init(), Fetched(data)).filteredFollowers == data
  {
    FilterEmptyQuery(data);
  }

  /** The search is case-insensitive: any case form of a query shows the same followers. */
  lemma ChangeQueryCaseInsensitive(s: Screen, text: string)
    ensures ChangeQuery(s, Upper(text)).filteredFollowers == ChangeQuery(s, text).filteredFollowers
    ensures ChangeQuery(s, Lower(text)).filteredFollowers == ChangeQuery(s, text).filteredFollowers
  {
    FilterCaseInsensitive(s.followers, text);
  }

  /** Clearing the query shows every follower again. */
  lemma EmptyQueryShowsAll(s: Screen)
    ensures ChangeQuery(s, "").filteredFollowers == s.followers
  {
    FilterEmptyQuery(s.followers);
  }
}
