/** The chat "Details" screen: the member list built from the two maps the chat screen
    passes in, and the rename-group modal. */
module ChatSettings {
  import opened Wrappers

  /** One row of the member list: display name, avatar URL (absent when there is no
      profile picture for the id) and user id. */
  datatype Member = Member(name: string, avatar: Option<string>, userId: string)

  /** The profile entry for a user id, absent when the map has no such key. */
  function Lookup(m: map<string, string>, k: string): Option<string> {
    if k in m then Some(m[k]) else None
  }

  /** The row built for one user id. */
  function MemberFor(userMap: map<string, string>, userProfiles: map<string, string>, id: string): Member
    requires id in userMap
  {
    Member(userMap[id], Lookup(userProfiles, id), id)
  }

  /** `members` lists one row per key of `userMap`, each built from that key. */
  ghost predicate IsMemberList(members: seq<Member>, userMap: map<string, string>, userProfiles: map<string, string>) {
    && |members| == |userMap|
    && (forall i :: 0 <= i < |members| ==>
          members[i].userId in userMap && members[i] == MemberFor(userMap, userProfiles, members[i].userId))
    && (forall i, j :: 0 <= i < j < |members| ==> members[i].userId != members[j].userId)
    && (forall id :: id in userMap ==> exists i :: 0 <= i < |members| && members[i].userId == id)
  }

  /** One row per key of the name map, each built from that key. The order of the keys is left open: any order the
      loop picks is an order `Object.keys` could have produced. */
  method BuildMembers(userMap: map<string, string>, userProfiles: map<string, string>) returns (members: seq<Member>)
    ensures |members| == |userMap|
    ensures forall i :: 0 <= i < |members| ==>
              && members[i].userId in userMap
              && members[i].name == userMap[members[i].userId]
              && members[i].avatar == Lookup(userProfiles, members[i].userId)
    ensures forall i, j :: 0 <= i < j < |members| ==> members[i].userId != members[j].userId
    ensures forall id :: id in userMap ==> exists i :: 0 <= i < |members| && members[i].userId == id
    ensures IsMemberList(members, userMap, userProfiles)
  {
    members := [];
    var remaining := userMap.Keys;
    while remaining != {}
      invariant remaining <= userMap.Keys
      invariant |members| + |remaining| == |userMap|
      invariant forall i :: 0 <= i < |members| ==>
                  members[i].userId in userMap && members[i].userId !in remaining &&
                  members[i] == MemberFor(userMap, userProfiles, members[i].userId)
      invariant forall i, j :: 0 <= i < j < |members| ==> members[i].userId != members[j].userId
      invariant forall id :: id in userMap && id !in remaining ==> exists i :: 0 <= i < |members| && members[i].userId == id
      decreases remaining
    {
      var id :| id in remaining;
      var before := members;
      members := members + [MemberFor(userMap, userProfiles, id)];
      remaining := remaining - {id};
      forall x | x in userMap && x !in remaining
        ensures exists i :: 0 <= i < |members| && members[i].userId == x
      {
        if x == id {
          assert members[|before|].userId == x;
        } else {
          var i :| 0 <= i < |before| && before[i].userId == x;
          assert members[i] == before[i];
        }
      }
    }
  }

  /** Two member lists for the same maps hold the same rows: they differ at most in order. */
  lemma MemberListsAgree(a: seq<Member>, b: seq<Member>, userMap: map<string, string>, userProfiles: map<string, string>)
    requires IsMemberList(a, userMap, userProfiles) && IsMemberList(b, userMap, userProfiles)
    ensures multiset(a) == multiset(b)
  {
    forall m
      ensures multiset(a)[m] == multiset(b)[m]
    {
      DistinctCount(a, m);
      DistinctCount(b, m);
      if m in a {
        var i :| 0 <= i < |a| && a[i] == m;
        var j :| 0 <= j < |b| && b[j].userId == m.userId;
        assert b[j] == m;
      }
      if m in b {
        var j :| 0 <= j < |b| && b[j] == m;
        var i :| 0 <= i < |a| && a[i].userId == m.userId;
        assert a[i] == m;
      }
    }
  }

  /** In a list without repeated user ids every row occurs at most once. */
  lemma {:induction false} DistinctCount(s: seq<Member>, m: Member)
    requires forall i, j :: 0 <= i < j < |s| ==> s[i].userId != s[j].userId
    ensures multiset(s)[m] == if m in s then 1 else 0
  {
    if s != [] {
      assert s == [s[0]] + s[1..];
      DistinctCount(s[1..], m);
      if m == s[0] {
        assert m !in s[1..] by {
          forall k | 0 <= k < |s[1..]|
            ensures s[1..][k] != m
          {
            assert s[1..][k] == s[k + 1];
          }
        }
      }
    }
  }

  /** The rename modal: whether it is open, and the name typed so far. */
  datatype Modal = Modal(visible: bool, newGroupName: string)

  function InitModal(): Modal {
    Modal(false, "")
  }

  /** The "Change" button opens the modal and keeps any typed name. */
  function OpenModal(m: Modal): (r: Modal)
    ensures r.visible && r.newGroupName == m.newGroupName
  {
    m.(visible := true)
  }

  function EditName(m: Modal, text: string): (r: Modal)
    ensures r.newGroupName == text && r.visible == m.visible
  {
    m.(newGroupName := text)
  }

  /** `handleCancel`: closes the modal and discards the typed name. */
  function HandleCancel(m: Modal): (r: Modal)
    ensures !r.visible && r.newGroupName == ""
    ensures r == InitModal()
  {
    Modal(false, "")
  }

  /** The system back gesture (`onRequestClose`) closes the modal but keeps the typed name. */
  function RequestClose(m: Modal): (r: Modal)
    ensures !r.visible && r.newGroupName == m.newGroupName
  {
    m.(visible := false)
  }

  /** Reopening after the back gesture shows the name typed before; reopening after a
      cancel shows an empty field. */
  lemma ReopenAfterClose(m: Modal)
    ensures OpenModal(RequestClose(m)) == OpenModal(m)
    ensures OpenModal(HandleCancel(m)) == Modal(true, "")
  {
  }

  /** The rename request the Save button issues: the thread and the new name. */
  datatype RenameRequest = RenameRequest(threadId: string, newName: string)

  /** Save: issues the rename request with the typed name, then resets the modal at once.
      The rename call is not awaited and its result is only logged, so the modal's state
      after Save does not depend on it; the call's outcome is therefore not a parameter. */
  function Save(m: Modal, threadId: string): (r: (Modal, RenameRequest))
    ensures r.1 == RenameRequest(threadId, m.newGroupName)
    ensures !r.0.visible && r.0.newGroupName == ""
    ensures r.0 == InitModal()
  {
    (HandleCancel(m), RenameRequest(threadId, m.newGroupName))
  }
}
