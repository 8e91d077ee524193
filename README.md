# Lazy user migration and SMS-MFA enablement, verified model

This project models the two identity-pool trigger handlers of the
`lambda_migration` repository:

- **User migration** (`lib/stack.user-migration.ts`). A user signs in against
  the new pool and has no record there. The handler looks the user up in the
  new pool, then in the configured old pool. It checks that the old record
  carries `email_verified = "true"`. It then either throws one of three
  errors or fills `event.response` in place: message action `SUPPRESS`,
  final status `CONFIRMED`, attributes `{email: userName, email_verified: "true"}`.
  It returns the same event.
- **Post confirmation** (`lib/stack.post-confirmation.ts`). When the confirmed
  user's attributes hold a truthy `phone_number` and a truthy
  `phone_number_verified`, the handler sends one AdminSetUserMFAPreference
  request (SMS enabled and preferred). It returns the event unchanged.

Files:

- `wrappers.dfy`: `Option` (JavaScript `undefined`/`null`) and `Result`
  (return or throw).
- `identity_provider.dfy`: the identity-provider API as a value. `Provider`
  holds each pool's records and the lookups that fail for reasons other than
  absence. `AdminGetUser` throws for absence, for an unknown pool and for
  those faults, as the real API does. It also defines the MFA-preference
  request shape.
- `user_migration.dfy`: the event and its response as classes, because the
  handler assigns the response's fields in place. `LookupUser` is the
  error-swallowing lookup. `Decide` is the decision as a function.
  `ScanEmailVerified` is the flag-setting loop. `Handler` is the method that
  mutates the response, proved against `Decide`. The file ends with lemmas
  about the decision.
- `post_confirmation.dfy`: the handler as a pure function. It returns the
  requests it sends and its outcome. Lemmas about it follow.

The configured old pool id (`OLD_USER_POOL_ID`) is a parameter of the
handler. How the provider answers the MFA request is a parameter too.

Two behaviours of the code are worth stating on their own:

- The email written for the migrated user is the user name; no email held
  in the old record is copied (`EmailComesFromUserName`).
- A failing first lookup is read as absence, so a transport error there
  lets the migration go ahead (`LookupFaultIsAbsence`,
  `FaultAfterMigrationMigratesAgain`).

## Model

| member | source | states |
|---|---|---|
| IdentityProvider.AdminGetUser | lib/stack.user-migration.ts:18-23 | The call returns the stored record exactly when the user is in that pool and the call does not fail; otherwise it throws. |
| UserMigration.LookupUser | lib/stack.user-migration.ts:12-35 | Yields no record exactly when the user is absent, the pool is unknown or the call fails for any other reason; otherwise yields the stored record. |
| UserMigration.Decide | lib/stack.user-migration.ts:44-78 | Any success writes message action SUPPRESS, status CONFIRMED and attributes email = user name, email_verified = "true". |
| UserMigration.ScanEmailVerified | lib/stack.user-migration.ts:63-68 | The loop's flag ends true exactly when some attribute is named `email_verified` with value exactly "true". |
| UserMigration.Handler | lib/stack.user-migration.ts:37-83 | The event's own fields never change; on each error the handler throws it and leaves the response untouched; on success it returns the same event with the response set to the decided fields. |
| UserMigration.AlreadyExistsWins | lib/stack.user-migration.ts:46-53 | A user with a record in the current pool is refused with "User already exists", whatever the old pool holds. |
| UserMigration.SucceedsIff | lib/stack.user-migration.ts:46-78 | Migration succeeds if and only if the current-pool lookup yields nothing and the old-pool lookup yields a record with a verified email. |
| UserMigration.NotFoundInEitherPool | lib/stack.user-migration.ts:55-62 | When both lookups yield nothing, the handler throws "User not found". |
| UserMigration.UnverifiedIsRefused | lib/stack.user-migration.ts:63-71 | A configured-old-pool record without a verified email flag is refused with "Cannot migrate user with unverified email". |
| UserMigration.LookupFaultIsAbsence | lib/stack.user-migration.ts:29-34 | A failing current-pool lookup, whatever its message, gives the same decision as removing the user from that pool. |
| UserMigration.EmailComesFromUserName | lib/stack.user-migration.ts:75-78 | On success the written attributes are exactly `email` = user name and `email_verified` = "true". |
| UserMigration.VerifiedEmailAppend | lib/stack.user-migration.ts:64-67 | A list has the verified flag if and only if one of its two parts has it, so a later attribute never clears the flag. |
| UserMigration.VerifiedEmailIgnoresOrder | lib/stack.user-migration.ts:64-67 | Two lists holding the same attributes, in any order and with any repetition, agree on the flag. |
| UserMigration.SecondMigrationRefused | lib/stack.user-migration.ts:46-53 | Once the migrated user is stored in the current pool and its lookup succeeds, another invocation is refused with "User already exists". |
| UserMigration.FaultAfterMigrationMigratesAgain | lib/stack.user-migration.ts:29-34 | After a successful migration, a failing current-pool lookup makes the handler migrate the same user again. |
| PostConfirmation.EnableSmsMfa | lib/stack.post-confirmation.ts:10-24 | The request names the event's user and pool and sets SMS MFA enabled and preferred. |
| PostConfirmation.Handler | lib/stack.post-confirmation.ts:26-57 | At most one request is sent; a returned event is the one received; the handler throws only when a request was sent and that request failed, and then with the request's error. |
| PostConfirmation.RequestSentIff | lib/stack.post-confirmation.ts:39-52 | A request is sent if and only if both phone attributes are truthy, and it is exactly the enable-SMS-MFA request for the event's user and pool. |
| PostConfirmation.NoPhoneNumberNoRequest | lib/stack.post-confirmation.ts:39-46 | With `phone_number` absent or empty, nothing is sent and the event is returned as received. |
| PostConfirmation.NoPhoneVerifiedNoRequest | lib/stack.post-confirmation.ts:40-46 | With `phone_number_verified` absent or empty, nothing is sent and the event is returned as received. |
| PostConfirmation.FalseStringCountsAsVerified | lib/stack.post-confirmation.ts:41 | With a phone number present, `phone_number_verified = "false"` still enables SMS MFA. |
| PostConfirmation.SendFailurePropagates | lib/stack.post-confirmation.ts:49-52 | A failing MFA request makes the handler fail with that same error. |

## Left out

- `lib/stack.ts` is not part of this model. It declares pools, permissions and stack outputs and has no behaviour.
- The SDK client, its construction from `REGION`, and the network are not modelled. The provider is a state value. The MFA request's result is an input.
- Both lookups read one provider state. A change to the provider between the two calls is not modelled.
- Console logging and JSON stringification are not modelled.
- `async`/`await` scheduling and the Lambda `context` argument are not modelled.
- Only the three response fields the handler writes are modelled. The platform's other response fields (`desiredDeliveryMediums`, `forceAliasCreation`) are never touched by the handler.
- Of an AdminGetUser response only `Username` and `UserAttributes` are modelled. The handler reads nothing else, and any returned response object is truthy.
