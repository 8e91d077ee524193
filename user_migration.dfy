/**
 * The user-migration trigger: on a sign-in by a user unknown to the current
 * pool, decide whether to create that user from its record in the old pool,
 * and fill the event's response in place when the answer is yes.
 */
module UserMigration {
  import opened Wrappers
  import opened IdentityProvider

  /** The message action the dispatcher takes for a created user. */
  datatype MessageAction = RESEND | SUPPRESS

  /** The status the created user starts in. */
  datatype FinalUserStatus = UNCONFIRMED | CONFIRMED | RESET_REQUIRED

  /** Why the handler throws, one constructor per thrown message. */
  datatype MigrationError = UserAlreadyExists | UserNotFound | UnverifiedEmail

  /** The exact message the handler throws for each error. */
  function Message(e: MigrationError): (r: string)
  {
    match e
    case UserAlreadyExists => "User already exists"
    case UserNotFound => "User not found"
    case UnverifiedEmail => "Cannot migrate user with unverified email"
  }

  /** The value of the three response fields the handler writes. */
  datatype ResponseFields = ResponseFields(
    messageAction: Option<MessageAction>,
    finalUserStatus: Option<FinalUserStatus>,
    userAttributes: Option<map<string, string>>)

  /** The request part of the event, which the handler never reads or writes. */
  datatype MigrationRequest = MigrationRequest(password: string, validationData: map<string, string>)

  /** The event's response object, whose fields the handler assigns one by one. */
  class MigrationResponse {
    var messageAction: Option<MessageAction>
    var finalUserStatus: Option<FinalUserStatus>
    var userAttributes: Option<map<string, string>>

    constructor ()
      ensures Fields() == ResponseFields(None, None, None)
    {
      messageAction, finalUserStatus, userAttributes := None, None, None;
    }

    /** The current value of the response's fields. */
    function Fields(): (r: ResponseFields)
      reads this
    {
      ResponseFields(messageAction, finalUserStatus, userAttributes)
    }
  }

  /** The trigger event, handed to the handler and returned by it. */
  class MigrationEvent {
    var userName: string
    var userPoolId: string
    var request: MigrationRequest
    var response: MigrationResponse

    constructor (userName: string, userPoolId: string, request: MigrationRequest, response: MigrationResponse)
      ensures this.userName == userName && this.userPoolId == userPoolId
      ensures this.request == request && this.response == response
    {
      this.userName, this.userPoolId := userName, userPoolId;
      this.request, this.response := request, response;
    }
  }

  /**
   * lookupUser: the AdminGetUser result, with every thrown error (absence,
   * an unknown pool, or any other failure) turned into "no record".
   */
  function LookupUser(p: Provider, userName: string, userPoolId: string): (r: Option<UserRecord>)
    ensures r.None? <==> !Stored(p, userPoolId, userName) || (userPoolId, userName) in p.faults
    ensures r.Some? ==> r.value == p.pools[userPoolId][userName]
  {
    match AdminGetUser(p, userPoolId, userName)
    case Returned(rec) => Some(rec)
    case Threw(_) => None
  }

  /** The attribute list of a record, an absent list read as empty (`?? []`). */
  function AttributesOf(rec: UserRecord): (r: seq<Attr>)
  {
    if rec.UserAttributes.Some? then rec.UserAttributes.value else []
  }

  /** The one attribute that marks an email as verified: the exact string "true". */
  predicate IsVerifiedEmailFlag(a: Attr)
  {
    a.Name == "email_verified" && a.Value == Some("true")
  }

  /** Some attribute of the list marks the email as verified. */
  predicate HasVerifiedEmail(attrs: seq<Attr>)
  {
    exists i :: 0 <= i < |attrs| && IsVerifiedEmailFlag(attrs[i])
  }

  /** The response written for every migrated user: email taken from the user name. */
  function ConfirmedResponse(userName: string): (r: ResponseFields)
  {
    ResponseFields(
      Some(SUPPRESS),
      Some(CONFIRMED),
      Some(map["email" := userName, "email_verified" := "true"]))
  }

  /**
   * The handler's decision, given the provider's state and the configured old
   * pool id: the error it throws, or the response fields it writes.
   */
  function Decide(p: Provider, oldUserPoolId: string, userName: string, userPoolId: string)
    : (r: Result<ResponseFields, MigrationError>)
    ensures r.Success? ==> r.value.messageAction == Some(SUPPRESS)
    ensures r.Success? ==> r.value.finalUserStatus == Some(CONFIRMED)
    ensures r.Success? ==> r.value.userAttributes == Some(map["email" := userName, "email_verified" := "true"])
  {
    if LookupUser(p, userName, userPoolId).Some? then Failure(UserAlreadyExists)
    else
      match LookupUser(p, userName, oldUserPoolId)
      case None => Failure(UserNotFound)
      case Some(user) =>
        if !HasVerifiedEmail(AttributesOf(user)) then Failure(UnverifiedEmail)
        else Success(ConfirmedResponse(userName))
  }

  /** The scan of the old record's attributes for a verified email flag. */
  method ScanEmailVerified(attrs: seq<Attr>) returns (emailVerified: bool)
    ensures emailVerified <==> HasVerifiedEmail(attrs)
  {
    emailVerified := false;
    for i := 0 to |attrs|
      invariant emailVerified <==> exists j :: 0 <= j < i && IsVerifiedEmailFlag(attrs[j])
    {
      if attrs[i].Name == "email_verified" && attrs[i].Value == Some("true") {
        emailVerified := true;
      }
    }
  }

  /**
   * The trigger handler. It throws (returns Failure) without touching the
   * response, or fills the response and returns the same event.
   */
  method Handler(event: MigrationEvent, p: Provider, oldUserPoolId: string)
    returns (r: Result<MigrationEvent, MigrationError>)
    modifies event.response
    ensures unchanged(event)
    ensures var d := Decide(p, oldUserPoolId, event.userName, event.userPoolId);
      match d
      case Failure(e) => r == Failure(e) && unchanged(event.response)
      case Success(fields) => r == Success(event) && event.response.Fields() == fields
  {
    var userName, userPoolId := event.userName, event.userPoolId;

    var existingUser := LookupUser(p, userName, userPoolId);
    if existingUser.Some? {
      return Failure(UserAlreadyExists);
    }

    var user := LookupUser(p, userName, oldUserPoolId);
    if user.None? {
      return Failure(UserNotFound);
    }
    var emailVerified := ScanEmailVerified(AttributesOf(user.value));
    if !emailVerified {
      return Failure(UnverifiedEmail);
    }

    event.response.messageAction := Some(SUPPRESS);
    event.response.finalUserStatus := Some(CONFIRMED);
    event.response.userAttributes := Some(map["email" := userName, "email_verified" := "true"]);
    return Success(event);
  }

  // ---------------------------------------------------------------------------
  // Properties of the decision

  /** A user with a record in the current pool is refused first, whatever the old pool holds. */
  lemma AlreadyExistsWins(p: Provider, oldUserPoolId: string, userName: string, userPoolId: string)
    requires Stored(p, userPoolId, userName) && (userPoolId, userName) !in p.faults
    ensures Decide(p, oldUserPoolId, userName, userPoolId) == Failure(UserAlreadyExists)
    ensures Message(Decide(p, oldUserPoolId, userName, userPoolId).error) == "User already exists"
  {
  }

  /** The handler succeeds exactly when the current pool yields nothing and the old pool yields a verified record. */
  lemma SucceedsIff(p: Provider, oldUserPoolId: string, userName: string, userPoolId: string)
    ensures Decide(p, oldUserPoolId, userName, userPoolId).Success? <==>
      LookupUser(p, userName, userPoolId).None? &&
      LookupUser(p, userName, oldUserPoolId).Some? &&
      HasVerifiedEmail(AttributesOf(LookupUser(p, userName, oldUserPoolId).value))
  {
  }

  /** When both lookups yield nothing the handler throws "User not found". */
  lemma NotFoundInEitherPool(p: Provider, oldUserPoolId: string, userName: string, userPoolId: string)
    requires !Stored(p, oldUserPoolId, userName) || (oldUserPoolId, userName) in p.faults
    requires !Stored(p, userPoolId, userName) || (userPoolId, userName) in p.faults
    ensures Decide(p, oldUserPoolId, userName, userPoolId) == Failure(UserNotFound)
    ensures Message(Decide(p, oldUserPoolId, userName, userPoolId).error) == "User not found"
  {
  }

  /** An old record without a verified email flag is refused, and only the old pool's record is inspected. */
  lemma UnverifiedIsRefused(p: Provider, oldUserPoolId: string, userName: string, userPoolId: string)
    requires LookupUser(p, userName, userPoolId).None?
    requires Stored(p, oldUserPoolId, userName) && (oldUserPoolId, userName) !in p.faults
    requires !HasVerifiedEmail(AttributesOf(p.pools[oldUserPoolId][userName]))
    ensures Decide(p, oldUserPoolId, userName, userPoolId) == Failure(UnverifiedEmail)
    ensures Message(Decide(p, oldUserPoolId, userName, userPoolId).error) == "Cannot migrate user with unverified email"
  {
  }

  /**
   * A failing lookup in the current pool is read exactly as absence: making
   * that call fail, with any message, gives the same decision as removing
   * the user from the current pool.
   */
  lemma LookupFaultIsAbsence(p: Provider, oldUserPoolId: string, userName: string, userPoolId: string,
                             message: string)
    requires userPoolId in p.pools
    ensures var removed := Provider(p.pools[userPoolId := p.pools[userPoolId] - {userName}], p.faults - {(userPoolId, userName)});
      Decide(Fail(p, userPoolId, userName, message), oldUserPoolId, userName, userPoolId) ==
      Decide(removed, oldUserPoolId, userName, userPoolId)
  {
  }

  /** The migrated user's email is its user name, whatever email the old record holds. */
  lemma EmailComesFromUserName(p: Provider, oldUserPoolId: string, userName: string, userPoolId: string)
    requires Decide(p, oldUserPoolId, userName, userPoolId).Success?
    ensures var attrs := Decide(p, oldUserPoolId, userName, userPoolId).value.userAttributes.value;
      attrs.Keys == {"email", "email_verified"} && attrs["email"] == userName && attrs["email_verified"] == "true"
  {
  }

  /** Once the flag is set no later attribute clears it, and a flag in either part is found in the whole. */
  lemma {:induction false} VerifiedEmailAppend(a: seq<Attr>, b: seq<Attr>)
    ensures HasVerifiedEmail(a + b) <==> HasVerifiedEmail(a) || HasVerifiedEmail(b)
  {
    if HasVerifiedEmail(a) {
      var i :| 0 <= i < |a| && IsVerifiedEmailFlag(a[i]);
      assert (a + b)[i] == a[i];
    }
    if HasVerifiedEmail(b) {
      var i :| 0 <= i < |b| && IsVerifiedEmailFlag(b[i]);
      assert (a + b)[|a| + i] == b[i];
    }
    if HasVerifiedEmail(a + b) {
      var i :| 0 <= i < |a + b| && IsVerifiedEmailFlag((a + b)[i]);
      if i < |a| { assert a[i] == (a + b)[i]; } else { assert b[i - |a|] == (a + b)[i]; }
    }
  }

  /** Two attribute lists holding the same attributes, in any order and with any repetition, agree on the flag. */
  lemma {:induction false} VerifiedEmailIgnoresOrder(a: seq<Attr>, b: seq<Attr>)
    requires forall x :: x in a <==> x in b
    ensures HasVerifiedEmail(a) == HasVerifiedEmail(b)
  {
    if HasVerifiedEmail(a) {
      var i :| 0 <= i < |a| && IsVerifiedEmailFlag(a[i]);
      assert a[i] in b;
      var j :| 0 <= j < |b| && b[j] == a[i];
    }
    if HasVerifiedEmail(b) {
      var j :| 0 <= j < |b| && IsVerifiedEmailFlag(b[j]);
      assert b[j] in a;
      var i :| 0 <= i < |a| && a[i] == b[j];
    }
  }

  /**
   * Invoking the handler again after the dispatcher has stored the migrated
   * user in the current pool refuses with "User already exists".
   */
  lemma SecondMigrationRefused(p: Provider, oldUserPoolId: string, userName: string, userPoolId: string,
                               created: UserRecord)
    ensures Decide(Store(p, userPoolId, userName, created), oldUserPoolId, userName, userPoolId)
      == Failure(UserAlreadyExists)
  {
  }

  /**
   * The guard against double creation rests on the first lookup: if that
   * lookup fails after the user was created, and the old record is still
   * verified, the handler migrates the user a second time.
   */
  lemma FaultAfterMigrationMigratesAgain(p: Provider, oldUserPoolId: string, userName: string, userPoolId: string,
                                         created: UserRecord, message: string)
    requires userPoolId != oldUserPoolId
    requires Decide(p, oldUserPoolId, userName, userPoolId).Success?
    ensures var q := Fail(Store(p, userPoolId, userName, created), userPoolId, userName, message);
      Decide(q, oldUserPoolId, userName, userPoolId) == Success(ConfirmedResponse(userName))
  {
  }
}
