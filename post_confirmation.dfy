/**
 * The post-confirmation trigger: once a user is confirmed, enable SMS as the
 * user's preferred second factor when the event carries a phone number and a
 * phone-verified attribute, and hand the event back unchanged.
 */
module PostConfirmation {
  import opened Wrappers
  import opened IdentityProvider

  /** The request part of the event: the user's attributes by name. */
  datatype PostConfirmationRequest = PostConfirmationRequest(userAttributes: map<string, string>)

  /** The trigger event. */
  datatype PostConfirmationEvent = PostConfirmationEvent(
    userName: string,
    userPoolId: string,
    request: PostConfirmationRequest)

  /**
   * One invocation: the MFA-preference requests it sends, in order, and
   * whether it returns an event or throws an error.
   */
  datatype Run = Run(requests: seq<SetUserMfaPreferenceRequest>, outcome: Result<PostConfirmationEvent, string>)

  /** Reading a key of the attribute map: `undefined` when the key is absent. */
  function Attribute(attrs: map<string, string>, name: string): (r: Option<string>)
  {
    if name in attrs then Some(attrs[name]) else None
  }

  /** JavaScript truthiness of a string-or-undefined value: defined and non-empty. */
  predicate Truthy(v: Option<string>)
  {
    v.Some? && v.value != ""
  }

  /** The request enableSmsMfa sends: SMS second factor enabled and preferred for this user. */
  function EnableSmsMfa(userPoolId: string, userName: string): (req: SetUserMfaPreferenceRequest)
    ensures req.Username == userName && req.UserPoolId == userPoolId
    ensures req.SMSMfaSettings.Enabled && req.SMSMfaSettings.PreferredMfa
  {
    SetUserMfaPreferenceRequest(userName, userPoolId, SmsMfaSettings(true, true))
  }

  /** The event qualifies for MFA: both phone attributes are truthy. */
  predicate HasVerifiedPhone(event: PostConfirmationEvent)
  {
    Truthy(Attribute(event.request.userAttributes, "phone_number")) &&
    Truthy(Attribute(event.request.userAttributes, "phone_number_verified"))
  }

  /**
   * The trigger handler. `sendError` is how the provider answers the MFA
   * request if one is sent: None when it succeeds, Some(message) when it
   * throws. The thrown error is not caught.
   */
  function Handler(event: PostConfirmationEvent, sendError: Option<string>): (r: Run)
    ensures |r.requests| <= 1
    ensures r.outcome.Success? ==> r.outcome.value == event
    ensures r.outcome.Failure? ==> |r.requests| == 1 && sendError == Some(r.outcome.error)
  {
    var phoneNumber := Attribute(event.request.userAttributes, "phone_number");
    var phoneNumberVerified := Attribute(event.request.userAttributes, "phone_number_verified");
    if !Truthy(phoneNumber) || !Truthy(phoneNumberVerified) then
      Run([], Success(event))
    else
      var request := EnableSmsMfa(event.userPoolId, event.userName);
      match sendError
      case None => Run([request], Success(event))
      case Some(message) => Run([request], Failure(message))
  }

  // ---------------------------------------------------------------------------
  // Properties of the handler

  /** A request is sent exactly when both phone attributes are truthy, and it is the one for this user and pool. */
  lemma RequestSentIff(event: PostConfirmationEvent, sendError: Option<string>)
    ensures Handler(event, sendError).requests != [] <==> HasVerifiedPhone(event)
    ensures Handler(event, sendError).requests != [] ==>
      Handler(event, sendError).requests == [EnableSmsMfa(event.userPoolId, event.userName)]
  {
  }

  /** Without a phone number (absent or empty) nothing is sent and the event comes back as received. */
  lemma NoPhoneNumberNoRequest(event: PostConfirmationEvent, sendError: Option<string>)
    requires Attribute(event.request.userAttributes, "phone_number") in {None, Some("")}
    ensures Handler(event, sendError) == Run([], Success(event))
  {
  }

  /** Without a phone-verified attribute (absent or empty) nothing is sent and the event comes back as received. */
  lemma NoPhoneVerifiedNoRequest(event: PostConfirmationEvent, sendError: Option<string>)
    requires Attribute(event.request.userAttributes, "phone_number_verified") in {None, Some("")}
    ensures Handler(event, sendError) == Run([], Success(event))
  {
  }

  /**
   * The check is truthiness, not equality with "true": a phone-verified value
   * of "false" still enables SMS MFA when a phone number is present.
   */
  lemma FalseStringCountsAsVerified(event: PostConfirmationEvent)
    requires Truthy(Attribute(event.request.userAttributes, "phone_number"))
    requires Attribute(event.request.userAttributes, "phone_number_verified") == Some("false")
    ensures Handler(event, None) == Run([EnableSmsMfa(event.userPoolId, event.userName)], Success(event))
  {
  }

  /** A failing MFA request makes the handler fail with that same error. */
  lemma SendFailurePropagates(event: PostConfirmationEvent, message: string)
    requires HasVerifiedPhone(event)
    ensures Handler(event, Some(message)).outcome == Failure(message)
  {
  }
}
