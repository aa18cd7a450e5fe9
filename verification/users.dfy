/** The user records that the list screens show, and the two list operations they share:
    the case-insensitive username filter and removal by primary key (`pk`). */
module Users {
  import opened Seqs
  import opened Ascii

  /** A user as returned by the backend; `pk` is the platform's primary key. */
  datatype User = User(pk: int, username: string, profilePicUrl: string, isVerified: bool)

  /** The query matches a user when the lower-cased query occurs in the lower-cased username. */
  predicate UsernameMatches(u: User, query: string) {
    Includes(Lower(u.username), Lower(query))
  }

  function MatchesQuery(query: string): User -> bool {
    (u: User) => UsernameMatches(u, query)
  }

  function PkDiffers(pk: int): User -> bool {
    (u: User) => u.pk != pk
  }

  /** Some entry of `users` has primary key `pk`. */
  predicate HasPk(users: seq<User>, pk: int) {
    exists i :: 0 <= i < |users| && users[i].pk == pk
  }

  /** No two entries share a primary key. */
  ghost predicate DistinctPks(users: seq<User>) {
    forall i, j :: 0 <= i < j < |users| ==> users[i].pk != users[j].pk
  }

  /** The users whose lower-cased username contains the lower-cased query, in list order. */
  function FilterByUsername(users: seq<User>, query: string): (r: seq<User>)
    ensures IsSubsequence(r, users)
    ensures forall i :: 0 <= i < |r| ==> r[i] in users && UsernameMatches(r[i], query)
    ensures forall i :: 0 <= i < |users| && UsernameMatches(users[i], query) ==> users[i] in r
    ensures forall u :: multiset(r)[u] == if UsernameMatches(u, query) then multiset(users)[u] else 0
  {
    KeepIsSubsequence(users, MatchesQuery(query));
    KeepCounts(users, MatchesQuery(query));
    Keep(users, MatchesQuery(query))
  }

  /** The users whose primary key differs from `pk`, in list order. */
  function RemovePk(users: seq<User>, pk: int): (r: seq<User>)
    ensures IsSubsequence(r, users)
    ensures !HasPk(r, pk)
    ensures forall u :: multiset(r)[u] == if u.pk != pk then multiset(users)[u] else 0
    ensures !HasPk(users, pk) ==> r == users
    ensures DistinctPks(users) ==> DistinctPks(r)
  {
    KeepIsSubsequence(users, PkDiffers(pk));
    KeepCounts(users, PkDiffers(pk));
    if !HasPk(users, pk) then
      KeepAll(users, PkDiffers(pk));
      Keep(users, PkDiffers(pk))
    else
      DistinctAfterKeep(users, PkDiffers(pk));
      Keep(users, PkDiffers(pk))
  }

  /** Filtering a list whose primary keys are distinct leaves them distinct. */
  lemma {:induction false} DistinctAfterKeep(users: seq<User>, p: User -> bool)
    ensures DistinctPks(users) ==> DistinctPks(Keep(users, p))
  {
    if users != [] && DistinctPks(users) {
      var h, t := users[0], users[1..];
      assert DistinctPks(t) by {
        forall i, j | 0 <= i < j < |t|
          ensures t[i].pk != t[j].pk
        {
          assert t[i] == users[i + 1] && t[j] == users[j + 1];
        }
      }
      DistinctAfterKeep(t, p);
      var kt := Keep(t, p);
      if p(h) {
        forall k | 0 <= k < |kt|
          ensures kt[k].pk != h.pk
        {
          var m :| 0 <= m < |t| && t[m] == kt[k];
          assert t[m] == users[m + 1];
        }
        var r := [h] + kt;
        forall i, j | 0 <= i < j < |r|
          ensures r[i].pk != r[j].pk
        {
          if i > 0 {
            assert r[i] == kt[i - 1] && r[j] == kt[j - 1];
          } else {
            assert r[j] == kt[j - 1];
          }
        }
      }
    }
  }

  /** An empty query keeps every user: every string includes "". */
  lemma FilterEmptyQuery(users: seq<User>)
    ensures FilterByUsername(users, "") == users
  {
    forall i | 0 <= i < |users|
      ensures MatchesQuery("")(users[i])
    {
      IncludesEmpty(Lower(users[i].username));
    }
    KeepAll(users, MatchesQuery(""));
  }

  /** Two queries that lower-case to the same string select the same users. */
  lemma FilterDependsOnLowerQuery(users: seq<User>, q1: string, q2: string)
    requires Lower(q1) == Lower(q2)
    ensures FilterByUsername(users, q1) == FilterByUsername(users, q2)
  {
    KeepCongruent(users, MatchesQuery(q1), MatchesQuery(q2));
  }

  /** The filter is case-insensitive: a query, its upper-case and its lower-case form agree. */
  lemma FilterCaseInsensitive(users: seq<User>, q: string)
    ensures FilterByUsername(users, Upper(q)) == FilterByUsername(users, q)
    ensures FilterByUsername(users, Lower(q)) == FilterByUsername(users, q)
  {
    LowerOfUpper(q);
    FilterDependsOnLowerQuery(users, Upper(q), q);
    LowerIdempotent(q);
    FilterDependsOnLowerQuery(users, Lower(q), q);
  }

  /** Removing a primary key and filtering by username commute. */
  lemma FilterAfterRemove(users: seq<User>, query: string, pk: int)
    ensures FilterByUsername(RemovePk(users, pk), query) == RemovePk(FilterByUsername(users, query), pk)
  {
    KeepCommute(users, PkDiffers(pk), MatchesQuery(query));
  }
}
