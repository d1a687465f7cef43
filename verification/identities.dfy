/** Identities reported by the Rancher backend and the Kubernetes user record
    built from them (`getUserInfoFromIdentityCollection`).

  The identity collection returned for a token holds one or more user
  identities (the backend's own `rancher_id` identity and/or a federated one,
  e.g. from GitHub or LDAP) and zero or more group identities. The selection
  keeps the LAST user identity of each kind, prefers the federated one, and
  renders every group identity as `<externalIdType>:<login>`.
 */
module Identities {
  import opened Wrappers

  /** The fields of a backend identity that the webhook reads. */
  datatype Identity = Identity(id: string, login: string, user: bool, externalIdType: string)

  /** The Kubernetes user record; the webhook only ever sets these three fields. */
  datatype UserInfo = UserInfo(username: string, uid: string, groups: seq<string>)

  /** What a provider lookup yields, Go's `(*UserInfo, error)` pair:
      `Failure(e)` is an error, `Success(None)` is "absent" (nil, nil) and
      `Success(Some(u))` is an authenticated user. */
  type LookupResult = Result<Option<UserInfo>, string>

  /** The external id type of identities in the backend's own id space. */
  const RancherIdType: string := "rancher_id"

  /** The zero value of an identity: what a variable holds before any assignment. */
  const NoIdentity: Identity := Identity("", "", false, "")

  /** How a group identity is rendered as a Kubernetes group name. */
  function GroupName(x: Identity): string {
    x.externalIdType + ":" + x.login
  }

  /** A user identity of the backend's own id space (`native`) or a federated one (`!native`). */
  predicate IsUserOfKind(x: Identity, native: bool) {
    x.user && (x.externalIdType == RancherIdType) == native
  }

  /** `ids[k]` is a user identity of the given kind and no later identity is. */
  ghost predicate IsLastUserOfKind(ids: seq<Identity>, k: int, native: bool) {
    && 0 <= k < |ids|
    && IsUserOfKind(ids[k], native)
    && forall j :: k < j < |ids| ==> !IsUserOfKind(ids[j], native)
  }

  /** The index of the last user identity of the given kind, or -1 when there is none. */
  function LastUserIndex(ids: seq<Identity>, native: bool): (k: int)
    ensures -1 <= k < |ids|
    ensures k >= 0 ==> IsLastUserOfKind(ids, k, native)
    ensures k < 0 ==> forall j :: 0 <= j < |ids| ==> !IsUserOfKind(ids[j], native)
    decreases |ids|
  {
    if |ids| == 0 then -1
    else if IsUserOfKind(ids[|ids| - 1], native) then |ids| - 1
    else
      var k := LastUserIndex(ids[..|ids| - 1], native);
      assert forall j :: 0 <= j < |ids| - 1 ==> ids[..|ids| - 1][j] == ids[j];
      k
  }

  /** The last user identity of the given kind, or the zero identity when there is none. */
  function LastUserOfKind(ids: seq<Identity>, native: bool): Identity {
    var k := LastUserIndex(ids, native);
    if k < 0 then NoIdentity else ids[k]
  }

  /** The group names of a collection: one per non-user identity, in collection order. */
  function GroupNames(ids: seq<Identity>): (r: seq<string>)
    ensures |r| <= |ids|
    ensures forall g :: g in r <==> exists i :: 0 <= i < |ids| && !ids[i].user && GroupName(ids[i]) == g
    decreases |ids|
  {
    if |ids| == 0 then []
    else
      var rest := GroupNames(ids[1..]);
      assert forall i :: 0 < i < |ids| ==> ids[i] == ids[1..][i - 1];
      (if ids[0].user then [] else [GroupName(ids[0])]) + rest
  }

  /** Group names of a concatenation are the concatenation of the group names: order is kept. */
  lemma {:induction false} GroupNamesAppend(a: seq<Identity>, b: seq<Identity>)
    ensures GroupNames(a + b) == GroupNames(a) + GroupNames(b)
    decreases |a|
  {
    if |a| == 0 {
      assert a + b == b;
    } else {
      assert (a + b)[1..] == a[1..] + b;
      GroupNamesAppend(a[1..], b);
    }
  }

  /** The three variables of the selection loop. */
  datatype ScanState = ScanState(native: Identity, federated: Identity, groups: seq<string>)

  /** One iteration of the selection loop. */
  function Step(s: ScanState, x: Identity): ScanState {
    if x.user then
      if x.externalIdType == RancherIdType then s.(native := x) else s.(federated := x)
    else
      s.(groups := s.groups + [GroupName(x)])
  }

  /** The selection loop run over the whole collection, starting from zero values. */
  function Scan(ids: seq<Identity>): (s: ScanState)
    ensures s.native == LastUserOfKind(ids, true)
    ensures s.federated == LastUserOfKind(ids, false)
    ensures s.groups == GroupNames(ids)
    decreases |ids|
  {
    if |ids| == 0 then ScanState(NoIdentity, NoIdentity, [])
    else
      var n := |ids| - 1;
      assert ids[..n] + [ids[n]] == ids;
      GroupNamesAppend(ids[..n], [ids[n]]);
      Step(Scan(ids[..n]), ids[n])
  }

  /** The user record built from an identity collection.

    Username and UID come from the last federated user identity, unless its
    id is empty and the last native one's is not; groups are the rendered
    group identities in collection order. */
  function UserInfoFromIdentities(ids: seq<Identity>): (r: UserInfo)
    ensures r.groups == GroupNames(ids)
    ensures var fed := LastUserOfKind(ids, false);
            var own := LastUserOfKind(ids, true);
            if fed.id == "" && own.id != ""
            then r.username == own.login && r.uid == own.id
            else r.username == fed.login && r.uid == fed.id
  {
    var s := Scan(ids);
    var chosen := if s.federated.id == "" && s.native.id != "" then s.native else s.federated;
    UserInfo(chosen.login, chosen.id, s.groups)
  }

  /** Username and UID always come from one and the same user identity of the
      collection, and are both empty when the collection has no user identity. */
  lemma UserFromOneIdentity(ids: seq<Identity>)
    ensures var r := UserInfoFromIdentities(ids);
            r.uid != "" ==> exists k :: 0 <= k < |ids| && ids[k].user && r.uid == ids[k].id && r.username == ids[k].login
    ensures (forall j :: 0 <= j < |ids| ==> !ids[j].user) ==>
              UserInfoFromIdentities(ids).username == "" && UserInfoFromIdentities(ids).uid == ""
  {
    var fed := LastUserIndex(ids, false);
    var own := LastUserIndex(ids, true);
    var r := UserInfoFromIdentities(ids);
    if r.uid != "" {
      if fed >= 0 && ids[fed].id == r.uid {
        assert ids[fed].user;
      } else {
        assert own >= 0 && ids[own].user;
      }
    }
  }

  /** A federated user identity with a non-empty id always wins over a native one. */
  lemma FederatedUserPreferred(ids: seq<Identity>, k: int)
    requires IsLastUserOfKind(ids, k, false) && ids[k].id != ""
    ensures UserInfoFromIdentities(ids).uid == ids[k].id
    ensures UserInfoFromIdentities(ids).username == ids[k].login
  {
    var k' := LastUserIndex(ids, false);
    assert k' == k;
  }

  /** A collection made only of group identities renders every element, in order. */
  lemma {:induction false} GroupsOnlyRendersAll(ids: seq<Identity>)
    requires forall i :: 0 <= i < |ids| ==> !ids[i].user
    ensures |GroupNames(ids)| == |ids|
    ensures forall i :: 0 <= i < |ids| ==> GroupNames(ids)[i] == GroupName(ids[i])
    decreases |ids|
  {
    if |ids| > 0 {
      GroupsOnlyRendersAll(ids[1..]);
    }
  }

  /** User identities contribute no group names. */
  lemma {:induction false} UsersOnlyRenderNothing(ids: seq<Identity>)
    requires forall i :: 0 <= i < |ids| ==> ids[i].user
    ensures GroupNames(ids) == []
    decreases |ids|
  {
    if |ids| > 0 {
      UsersOnlyRenderNothing(ids[1..]);
    }
  }
}
