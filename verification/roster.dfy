/** The environment roster: the members of the current Rancher environment
    (project), indexed by member id, and the alternative membership rule
    `shouldBeAuthenticated` that consults every identity of a collection.
 */
module Roster {
  import opened Wrappers
  import opened Identities

  /** A Rancher project (an "environment"); only its id is read. */
  datatype Project = Project(id: string)

  /** A member of a project; the id is the identity id the member stands for. */
  datatype ProjectMember = ProjectMember(id: string, role: string)

  /** The role that makes a member an owner of the environment. */
  const OwnerRole: string := "owner"

  /** The index of the last member with the given id, or -1 when there is none. */
  function LastIndexWithId(members: seq<ProjectMember>, id: string): (k: int)
    ensures -1 <= k < |members|
    ensures k >= 0 ==> members[k].id == id && forall j :: k < j < |members| ==> members[j].id != id
    ensures k < 0 ==> forall j :: 0 <= j < |members| ==> members[j].id != id
    decreases |members|
  {
    if |members| == 0 then -1
    else if members[|members| - 1].id == id then |members| - 1
    else
      var k := LastIndexWithId(members[..|members| - 1], id);
      assert forall j :: 0 <= j < |members| - 1 ==> members[..|members| - 1][j] == members[j];
      k
  }

  /** The roster built by inserting the members one after another into an
      empty map, so that a later member overwrites an earlier one with the same id:
      every id of the list is a key, and it maps to the last member carrying it. */
  function MembersById(members: seq<ProjectMember>): (r: map<string, ProjectMember>)
    ensures forall id :: id in r <==> LastIndexWithId(members, id) >= 0
    ensures forall id :: id in r ==> r[id] == members[LastIndexWithId(members, id)]
    decreases |members|
  {
    if |members| == 0 then map[]
    else
      var n := |members| - 1;
      var prefix := members[..n];
      assert forall j :: 0 <= j < n ==> prefix[j] == members[j];
      MembersById(prefix)[members[n].id := members[n]]
  }

  /** The keys of the roster are exactly the ids of the listed members. */
  lemma RosterKeysAreMemberIds(members: seq<ProjectMember>)
    ensures forall id :: id in MembersById(members) <==> exists k :: 0 <= k < |members| && members[k].id == id
    ensures forall id :: id in MembersById(members) ==> MembersById(members)[id].id == id
  {
  }

  /** The roster of the current environment: the members of the FIRST listed
      project. `listMembers` answers the member listing filtered by a project id.
      The source indexes the first project unconditionally, so a successful
      listing must hold at least one project. */
  function CurrentEnvironmentMembers(
    projects: Result<seq<Project>, string>,
    listMembers: string -> Result<seq<ProjectMember>, string>
  ): (r: Result<map<string, ProjectMember>, string>)
    requires projects.Success? ==> |projects.value| > 0
    ensures projects.Failure? ==> r == Failure(projects.error)
    ensures projects.Success? && listMembers(projects.value[0].id).Failure? ==>
              r == Failure(listMembers(projects.value[0].id).error)
    ensures projects.Success? && listMembers(projects.value[0].id).Success? ==> r.Success?
    ensures r.Success? ==>
              && projects.Success?
              && listMembers(projects.value[0].id).Success?
              && var members := listMembers(projects.value[0].id).value;
                 && (forall id :: id in r.value <==> exists k :: 0 <= k < |members| && members[k].id == id)
                 && (forall id :: id in r.value ==> r.value[id] == members[LastIndexWithId(members, id)])
  {
    var ps :- projects;
    var members :- listMembers(ps[0].id);
    var roster := MembersById(members);
    RosterKeysAreMemberIds(members);
    Success(roster)
  }

  /** Some identity of the collection, user or group, is on the roster. */
  ghost predicate AnyOnRoster(ids: seq<Identity>, roster: map<string, ProjectMember>) {
    exists i :: 0 <= i < |ids| && ids[i].id in roster
  }

  /** Some identity of the collection is on the roster as an owner. */
  ghost predicate AnyOwnerOnRoster(ids: seq<Identity>, roster: map<string, ProjectMember>) {
    exists i :: 0 <= i < |ids| && ids[i].id in roster && roster[ids[i].id].role == OwnerRole
  }

  /** The membership rule of the alternative revision: the caller is
      authenticated when any of its identities is on the roster, and is a
      master when any of them is an owner. The loop stops at the first owner. */
  method ShouldBeAuthenticated(ids: seq<Identity>, roster: map<string, ProjectMember>)
    returns (authenticated: bool, master: bool)
    ensures authenticated <==> AnyOnRoster(ids, roster)
    ensures master <==> AnyOwnerOnRoster(ids, roster)
    ensures master ==> authenticated
    ensures |ids| == 0 || |roster| == 0 ==> !authenticated && !master
  {
    authenticated := false;
    master := false;
    var i := 0;
    while i < |ids|
      invariant 0 <= i <= |ids|
      invariant authenticated <==> AnyOnRoster(ids[..i], roster)
      invariant !master && !AnyOwnerOnRoster(ids[..i], roster)
    {
      assert ids[..i + 1][i] == ids[i];
      assert forall j :: 0 <= j < i ==> ids[..i + 1][j] == ids[..i][j];
      if ids[i].id in roster {
        authenticated := true;
        if roster[ids[i].id].role == OwnerRole {
          master := true;
          assert AnyOwnerOnRoster(ids, roster) && AnyOnRoster(ids, roster) by {
            assert ids[i].id in roster;
          }
          break;
        }
      }
      i := i + 1;
    }
    if !master {
      assert ids[..i] == ids;
    }
  }

  /** Two collections with the same elements have, for every position of one,
      a position of the other holding the same identity. */
  lemma SameElementsIndex(a: seq<Identity>, b: seq<Identity>, i: int) returns (j: int)
    requires multiset(a) == multiset(b) && 0 <= i < |a|
    ensures 0 <= j < |b| && b[j] == a[i]
  {
    assert a[i] in multiset(a);
    assert a[i] in b;
    j :| 0 <= j < |b| && b[j] == a[i];
  }

  /** The decision depends only on which identities are present, not on their order. */
  lemma DecisionIgnoresOrder(ids: seq<Identity>, ids': seq<Identity>, roster: map<string, ProjectMember>)
    requires multiset(ids) == multiset(ids')
    ensures AnyOnRoster(ids, roster) <==> AnyOnRoster(ids', roster)
    ensures AnyOwnerOnRoster(ids, roster) <==> AnyOwnerOnRoster(ids', roster)
  {
    if AnyOnRoster(ids, roster) {
      var i :| 0 <= i < |ids| && ids[i].id in roster;
      var j := SameElementsIndex(ids, ids', i);
    }
    if AnyOnRoster(ids', roster) {
      var i :| 0 <= i < |ids'| && ids'[i].id in roster;
      var j := SameElementsIndex(ids', ids, i);
    }
    if AnyOwnerOnRoster(ids, roster) {
      var i :| 0 <= i < |ids| && ids[i].id in roster && roster[ids[i].id].role == OwnerRole;
      var j := SameElementsIndex(ids, ids', i);
    }
    if AnyOwnerOnRoster(ids', roster) {
      var i :| 0 <= i < |ids'| && ids'[i].id in roster && roster[ids'[i].id].role == OwnerRole;
      var j := SameElementsIndex(ids', ids, i);
    }
  }
}
