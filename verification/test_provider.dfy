/** The canned provider used for local testing: a fixed table of users. */
module TestProvider {
  import opened Wrappers
  import opened Identities

  /** The canned users, keyed by the token that resolves to them. */
  const TestUserInfo: map<string, UserInfo> := map[
    "test1" := UserInfo("test1", "", []),
    "test2" := UserInfo("test2", "", []),
    "test3" := UserInfo("test3", "", []),
    "admin" := UserInfo("admin", "", [])
  ]

  /** Looks the token up in the table; it never fails, and a token outside
      the table (the empty token included) is absent. */
  function Lookup(token: string): (r: LookupResult)
    ensures r.Success?
    ensures r.value.Some? <==> token in TestUserInfo
    ensures r.value.Some? ==> r.value.value == TestUserInfo[token]
    ensures r.value.Some? ==> r.value.value.username == token
    ensures r.value.Some? ==> r.value.value.groups == [] && r.value.value.uid == ""
  {
    if token in TestUserInfo then Success(Some(TestUserInfo[token])) else Success(None)
  }
}
