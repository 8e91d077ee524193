/**
 * The part of the external identity-provider API that the handlers call,
 * modelled as a snapshot of the provider's state instead of a network client.
 */
module IdentityProvider {
  import opened Wrappers

  /** One named attribute of a stored user record; its value may be missing. */
  datatype Attr = Attr(Name: string, Value: Option<string>)

  /** The part of an AdminGetUser response the handlers look at. */
  datatype UserRecord = UserRecord(Username: string, UserAttributes: Option<seq<Attr>>)

  /**
   * The provider's state: the records of each user pool, keyed by pool id and
   * then by user name, and the (pool id, user name) pairs whose AdminGetUser
   * call fails for a reason other than absence (throttling, a network error,
   * missing permissions), with the message of that failure.
   */
  datatype Provider = Provider(
    pools: map<string, map<string, UserRecord>>,
    faults: map<(string, string), string>)

  /** What one AdminGetUser call yields: the record, or a thrown error. */
  datatype GetUserOutcome = Returned(record: UserRecord) | Threw(message: string)

  /** True when `userName` has a record in pool `userPoolId`. */
  predicate Stored(p: Provider, userPoolId: string, userName: string)
  {
    userPoolId in p.pools && userName in p.pools[userPoolId]
  }

  /**
   * AdminGetUser: a faulting call throws its fault, an unknown pool throws
   * ResourceNotFoundException, an unknown user throws UserNotFoundException,
   * and otherwise the stored record is returned.
   */
  function AdminGetUser(p: Provider, userPoolId: string, userName: string): (r: GetUserOutcome)
    ensures r.Returned? <==> Stored(p, userPoolId, userName) && (userPoolId, userName) !in p.faults
    ensures r.Returned? ==> r.record == p.pools[userPoolId][userName]
  {
    if (userPoolId, userName) in p.faults then Threw(p.faults[(userPoolId, userName)])
    else if userPoolId !in p.pools then Threw("ResourceNotFoundException")
    else if userName !in p.pools[userPoolId] then Threw("UserNotFoundException")
    else Returned(p.pools[userPoolId][userName])
  }

  /** The provider after `userName`'s record in pool `userPoolId` is set to `rec` and its fault, if any, cleared. */
  function Store(p: Provider, userPoolId: string, userName: string, rec: UserRecord): (q: Provider)
    ensures AdminGetUser(q, userPoolId, userName) == Returned(rec)
  {
    var pool := if userPoolId in p.pools then p.pools[userPoolId] else map[];
    Provider(p.pools[userPoolId := pool[userName := rec]], p.faults - {(userPoolId, userName)})
  }

  /** The provider with `userName`'s AdminGetUser call in pool `userPoolId` made to fail with `message`. */
  function Fail(p: Provider, userPoolId: string, userName: string, message: string): (q: Provider)
    ensures AdminGetUser(q, userPoolId, userName) == Threw(message)
  {
    Provider(p.pools, p.faults[(userPoolId, userName) := message])
  }

  /** SMS second-factor settings of an AdminSetUserMFAPreference request. */
  datatype SmsMfaSettings = SmsMfaSettings(Enabled: bool, PreferredMfa: bool)

  /** An AdminSetUserMFAPreference request. */
  datatype SetUserMfaPreferenceRequest = SetUserMfaPreferenceRequest(
    Username: string,
    UserPoolId: string,
    SMSMfaSettings: SmsMfaSettings)
}
