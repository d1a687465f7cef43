/** The Rancher authentication provider: `Lookup` resolves a bearer token to
    a Kubernetes user, an absent result, or an error.

  Everything `Lookup` consults outside itself is a plain input here: the
  base64 decoder, the identity endpoint (transport, body read and JSON
  parsing folded into one result), the project listing and the member listing
  filtered by project id.
 */
module RancherProvider {
  import opened Wrappers
  import opened Identities
  import opened Roster

  /** The Kubernetes group that grants cluster-admin rights. */
  const MasterGroup: string := "system:masters"

  /** The fixed identity granted to the bootstrap token. */
  const BootstrapUser: UserInfo := UserInfo("bootstrap", "", [MasterGroup])

  /** The provider's own configuration: the pre-shared bootstrap token
      (empty when none was configured). */
  datatype Provider = Provider(bootstrapToken: string)

  /** The answers of the collaborators `Lookup` calls. */
  datatype Services = Services(
    decode: string -> Result<string, string>,
    fetchIdentities: string -> Result<seq<Identity>, string>,
    projects: Result<seq<Project>, string>,
    listMembers: string -> Result<seq<ProjectMember>, string>
  )

  /** The single-tenant assumption: a successful project listing is never empty. */
  predicate ProjectsListed(s: Services) {
    s.projects.Success? ==> |s.projects.value| > 0
  }

  /** The token gets as far as the roster: it is neither empty nor the
      bootstrap token, it decodes, and its identity collection is fetched. */
  predicate ReachesRoster(p: Provider, s: Services, token: string) {
    && token != ""
    && token != p.bootstrapToken
    && s.decode(token).Success?
    && s.fetchIdentities(s.decode(token).value).Success?
  }

  /** `Lookup` returns normally for the token: only a token that reaches the
      roster reads the first project, which an empty listing does not have. */
  predicate CanLookup(p: Provider, s: Services, token: string) {
    ReachesRoster(p, s, token) ==> ProjectsListed(s)
  }

  /** `uid` is the id of a member of the first listed project. */
  ghost predicate OnEnvironmentRoster(s: Services, uid: string) {
    && s.projects.Success?
    && |s.projects.value| > 0
    && var listed := s.listMembers(s.projects.value[0].id);
       && listed.Success?
       && exists k :: 0 <= k < |listed.value| && listed.value[k].id == uid
  }

  /** The groups of an admitted user: an owner additionally gets the master group. */
  function AdmittedGroups(info: UserInfo, member: ProjectMember): seq<string> {
    if member.role == OwnerRole then info.groups + [MasterGroup] else info.groups
  }

  /** Resolves a token. Empty tokens are absent, the bootstrap token is the
      bootstrap user, and any other token is decoded, exchanged for its
      identity collection, and admitted only when the selected user id is on
      the environment roster. */
  function Lookup(p: Provider, s: Services, token: string): (r: LookupResult)
    requires CanLookup(p, s, token)
    // Short-circuits, checked before any decoding or backend call.
    ensures token == "" ==> r == Success(None)
    ensures token != "" && token == p.bootstrapToken ==> r == Success(Some(BootstrapUser))
    // Errors propagate in pipeline order: decoding, identity fetch, then roster.
    ensures token != "" && token != p.bootstrapToken && s.decode(token).Failure? ==>
              r == Failure(s.decode(token).error)
    ensures token != "" && token != p.bootstrapToken && s.decode(token).Success?
            && s.fetchIdentities(s.decode(token).value).Failure? ==>
              r == Failure(s.fetchIdentities(s.decode(token).value).error)
    ensures r.Failure? ==> token != "" && token != p.bootstrapToken
    // Membership: a user is returned only for the bootstrap token or an id on the roster.
    ensures r.Success? && r.value.Some? && token != p.bootstrapToken ==>
              OnEnvironmentRoster(s, r.value.value.uid)
    // What is returned once every step succeeded.
    ensures ReachesRoster(p, s, token) ==>
              var info := UserInfoFromIdentities(s.fetchIdentities(s.decode(token).value).value);
              var roster := CurrentEnvironmentMembers(s.projects, s.listMembers);
              && (roster.Failure? ==> r == Failure(roster.error))
              && (roster.Success? && info.uid !in roster.value ==> r == Success(None))
              && (roster.Success? && info.uid in roster.value ==>
                    && r.Success? && r.value.Some?
                    && r.value.value.username == info.username
                    && r.value.value.uid == info.uid
                    && (roster.value[info.uid].role == OwnerRole ==> r.value.value.groups == info.groups + [MasterGroup])
                    && (roster.value[info.uid].role != OwnerRole ==> r.value.value.groups == info.groups))
  {
    if token == "" then Success(None)
    else if token == p.bootstrapToken then Success(Some(BootstrapUser))
    else
      var decoded :- s.decode(token);
      var ids :- s.fetchIdentities(decoded);
      var info := UserInfoFromIdentities(ids);
      var roster :- CurrentEnvironmentMembers(s.projects, s.listMembers);
      if info.uid in roster then
        Success(Some(info.(groups := AdmittedGroups(info, roster[info.uid]))))
      else
        Success(None)
  }

  /** The result never depends on the project or member listings, an empty
      listing included, when the token does not reach the roster: the
      short-circuits, decoding and the identity fetch come first. */
  lemma IdentityFetchPrecedesRoster(p: Provider, s: Services, s': Services, token: string)
    requires s'.decode == s.decode && s'.fetchIdentities == s.fetchIdentities
    requires !ReachesRoster(p, s, token)
    ensures Lookup(p, s, token) == Lookup(p, s', token)
  {
  }

  /** The master group appears in a looked-up user only for the bootstrap
      token, for an owner, or when a group identity itself renders to it. */
  lemma MasterGroupOnlyForOwners(p: Provider, s: Services, token: string)
    requires CanLookup(p, s, token)
    requires var r := Lookup(p, s, token); r.Success? && r.value.Some? && MasterGroup in r.value.value.groups
    ensures || token == p.bootstrapToken
            || (&& s.decode(token).Success?
                && s.fetchIdentities(s.decode(token).value).Success?
                && var ids := s.fetchIdentities(s.decode(token).value).value;
                   || (exists i :: 0 <= i < |ids| && !ids[i].user && GroupName(ids[i]) == MasterGroup)
                   || (&& s.projects.Success? && |s.projects.value| > 0
                       && var roster := CurrentEnvironmentMembers(s.projects, s.listMembers);
                          && roster.Success?
                          && var uid := UserInfoFromIdentities(ids).uid;
                             uid in roster.value && roster.value[uid].role == OwnerRole))
  {
    if token != p.bootstrapToken {
      var ids := s.fetchIdentities(s.decode(token).value).value;
      var info := UserInfoFromIdentities(ids);
      var roster := CurrentEnvironmentMembers(s.projects, s.listMembers);
      if roster.value[info.uid].role != OwnerRole {
        assert MasterGroup in GroupNames(ids);
      }
    }
  }

  /** Where both revisions can be compared: a user the lookup admits with a
      non-empty id is also admitted by the any-identity rule, and an owner
      there is a master there. The empty id is excluded because the rules
      disagree on it (see `EmptyCollectionAdmittedByBlankMember`). */
  lemma LookupImpliesShouldBeAuthenticated(p: Provider, s: Services, token: string)
    requires ReachesRoster(p, s, token) && ProjectsListed(s)
    requires var roster := CurrentEnvironmentMembers(s.projects, s.listMembers);
             var uid := UserInfoFromIdentities(s.fetchIdentities(s.decode(token).value).value).uid;
             roster.Success? && uid != "" && uid in roster.value
    ensures Lookup(p, s, token).Success? && Lookup(p, s, token).value.Some?
    ensures var ids := s.fetchIdentities(s.decode(token).value).value;
            var roster := CurrentEnvironmentMembers(s.projects, s.listMembers).value;
            && AnyOnRoster(ids, roster)
            && (MasterGroup in Lookup(p, s, token).value.value.groups ==>
                  AnyOwnerOnRoster(ids, roster) || MasterGroup in GroupNames(ids))
  {
    var ids := s.fetchIdentities(s.decode(token).value).value;
    var roster := CurrentEnvironmentMembers(s.projects, s.listMembers).value;
    var info := UserInfoFromIdentities(ids);
    UserFromOneIdentity(ids);
    var k :| 0 <= k < |ids| && ids[k].user && info.uid == ids[k].id && info.username == ids[k].login;
    assert ids[k].id in roster;
    if roster[info.uid].role == OwnerRole {
      assert roster[ids[k].id].role == OwnerRole;
    }
  }

  /** A backend answer with one identity and a roster holding one member. */
  function OneIdentityServices(x: Identity, m: ProjectMember): (s: Services)
    ensures ProjectsListed(s)
  {
    Services(
      t => Success(t),
      _ => Success([x]),
      Success([Project("1a5")]),
      _ => Success([m]))
  }

  /** A user whose id the roster lists as an owner is authenticated with the master group. */
  lemma OwnerIsMaster()
    ensures var s := OneIdentityServices(Identity("u1", "alice", true, RancherIdType), ProjectMember("u1", OwnerRole));
            var r := Lookup(Provider(""), s, "dTE=");
            r == Success(Some(UserInfo("alice", "u1", [MasterGroup])))
  {
    var x := Identity("u1", "alice", true, RancherIdType);
    assert [x][..0] == [];
    assert LastUserOfKind([x], true) == x;
    assert LastUserOfKind([x], false) == NoIdentity;
    assert GroupNames([x]) == [];
    assert UserInfoFromIdentities([x]) == UserInfo("alice", "u1", []);
    var m := ProjectMember("u1", OwnerRole);
    assert [m][..0] == [];
    assert MembersById([m]) == map["u1" := m];
    var s := OneIdentityServices(x, m);
    assert CurrentEnvironmentMembers(s.projects, s.listMembers) == Success(map["u1" := m]);
    assert s.fetchIdentities(s.decode("dTE=").value) == Success([x]);
    assert AdmittedGroups(UserInfo("alice", "u1", []), m) == [MasterGroup];
  }

  /** A user missing from the roster is unauthenticated, not an error. */
  lemma NonMemberIsAbsent()
    ensures var s := OneIdentityServices(Identity("u2", "bob", true, RancherIdType), ProjectMember("u1", OwnerRole));
            Lookup(Provider(""), s, "dTI=") == Success(None)
  {
    var x := Identity("u2", "bob", true, RancherIdType);
    assert [x][..0] == [];
    assert LastUserOfKind([x], true) == x;
    assert LastUserOfKind([x], false) == NoIdentity;
    assert [ProjectMember("u1", OwnerRole)][..0] == [];
  }

  /** Unlike the any-identity rule, a lookup does not admit a caller whose only
      roster entry is one of its groups. */
  lemma GroupOnRosterIsNotEnough()
    ensures var ids := [Identity("u3", "carol", true, RancherIdType), Identity("g1", "devs", false, "github_team")];
            var roster := map["g1" := ProjectMember("g1", "member")];
            && AnyOnRoster(ids, roster)
            && Lookup(Provider(""), Services(t => Success(t), _ => Success(ids), Success([Project("1a5")]),
                                             _ => Success([ProjectMember("g1", "member")])), "dTM=")
               == Success(None)
  {
    var ids := [Identity("u3", "carol", true, RancherIdType), Identity("g1", "devs", false, "github_team")];
    assert ids[1].id in map["g1" := ProjectMember("g1", "member")];
    assert LastUserOfKind(ids, false) == NoIdentity;
    assert LastUserOfKind(ids, true) == ids[0];
    assert UserInfoFromIdentities(ids).uid == "u3";
    var m := ProjectMember("g1", "member");
    assert [m][..0] == [];
    assert MembersById([m]) == map["g1" := m];
  }

  /** With no user identity the selected id is empty, and the roster is still
      consulted with it: a collection without identities is admitted, as a
      master, when the first project lists an owner whose id is empty, while
      the any-identity rule rejects it. */
  lemma EmptyCollectionAdmittedByBlankMember()
    ensures var m := ProjectMember("", OwnerRole);
            && Lookup(Provider(""), Services(t => Success(t), _ => Success([]), Success([Project("1a5")]),
                                             _ => Success([m])), "x")
               == Success(Some(UserInfo("", "", [MasterGroup])))
            && !AnyOnRoster([], map["" := m])
  {
    var m := ProjectMember("", OwnerRole);
    var s := Services(t => Success(t), _ => Success([]), Success([Project("1a5")]), _ => Success([m]));
    assert UserInfoFromIdentities([]) == UserInfo("", "", []);
    assert [m][..0] == [];
    assert MembersById([m]) == map["" := m];
    assert s.fetchIdentities(s.decode("x").value) == Success([]);
    assert CurrentEnvironmentMembers(s.projects, s.listMembers) == Success(map["" := m]);
    assert AdmittedGroups(UserInfo("", "", []), m) == [MasterGroup];
  }
}
