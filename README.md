# Customer registration saga — a Dafny model

`CustomerRegistrationService` (Reg.cs) registers a customer across two
remote systems that share no transaction: a CRM (search, create-profile,
update-profile) and an identity ("single profile") system (create-user,
get-profile, delete-user, create-address, create-membership), with a
template transformer between them. It is a saga. It searches the CRM and
classifies the user by `AccountRegistrationStatus__c`: Registered, Manual,
Guest, or empty/new. It then runs the identity segment, then a CRM create
or update branch chosen by `totalSize`. It compensates a failure by deleting
the identity user, and it catches exceptions at two levels.

The model replaces every remote call with an input outcome, held in
`Ports.Ports`. An outcome either throws (`Threw`) or returns a reply
holding only the fields the code reads:
- a status (SUCCESS, FAILED or any other value);
- from the CRM search: `AccountRegistrationStatus__c`, `LastName`,
  `Salutation`, `PersonContactId` and `totalSize`;
- from create-user: `errorDescription`, `profileId`, the
  `WM_SEC_AUTH_TOKEN` cookie, the cookie bundle, `location` and the
  rendered `data` object;
- the transformed content, and the CRM mutation's `newCustomerID`.

A field the code dereferences with `!` and finds missing counts as a throw
at that point. The deployment policy `TargetStatus.IsWmRequired` and the
third-party check are parameters. The status and message constants are
distinct abstract values. `CustomErrorHelper.AuthenticationError(msg)` is
the `AuthenticationError(msg)` outcome.

Modules:

- **`Wrappers`**: `Option`.
- **`Ports`**: the replies, the request and the `Call` record that a
  trace is made of.
- **`Trace`**: counting the calls of a trace by kind.
- **`Responses`**: the response and `PrepareResponsePayload`.
- **`RegistrationService`**: the two imperative methods.
  - `SingleProfileSegment` and `CustomerRegistration` keep the source's
    local variables.
  - In `CustomerRegistration` the outer try/catch becomes a labelled block
    whose `break` leads to the catch code.
  - In `SingleProfileSegment` the only call that can throw inside the try
    is get-profile, so the catch is the branch taken when get-profile
    throws.
  - Each returns its outcome and the ordered trace of the calls it
    issued. A fire-and-forget call is appended to the trace and its
    result is ignored.
  - `CustomerRegistration`'s response and trace are proved equal to the
    reference definitions `RegistrationResponse` and `RegistrationTrace`.
  - `SingleProfileSegment`'s trace is proved equal to `SegmentTrace`. Its
    outcome is stated exit by exit in its own `ensures`.
  - The reference definitions are written exit by exit, using the predicates `UserCreated`, `UserRejected`,
    `ProfileFetchFails`, `SegmentSucceeds`, `ReachesBranch`, `Transformed`,
    `BranchRejected`, `BranchCompletes` and `RegistrationCompletes`.
- **`RegistrationProperties`**: what every run guarantees, proved over the
  reference definitions.
  - `TraceCounts` gives, for every kind of call, the exact number of calls
    of that kind in closed form: `SegmentCount`, `BranchCount` and
    `RunCount`.
  - The lemmas after it prove the properties of each exit from those
    counts.

### Where the code departs from a strict saga (the model follows the code)

- **The identity system is not fully bypassed when the policy is off.**
  The segment makes no identity call. However, a failed transformation or a
  CRM mutation answering FAILED still sends delete-user (Reg.cs:233, 249,
  284, 299). A completed registration still sends create-membership
  (Reg.cs:259, 307). Both carry an empty id and an empty token
  (`PolicyOffIdentityCalls`).
- **A Guest is still compensated in the branch.** The deletes at Reg.cs:233,
  249, 284 and 299 do not consult `rollbackRequired`, so a Guest's user is
  deleted there too. Only the segment and the outer catch spare a Guest
  (`GuestCompensation`).
- **A Guest's failed profile fetch is not a failure.** For a Guest,
  get-profile answering FAILED lets the segment succeed (Reg.cs:83); it
  fails the segment only when it throws.
- **A transformation failure has no distinct message.** It answers the
  internal-error message (Reg.cs:234, 285).
- **Some exceptions skip the segment's own catch.** Reading a SUCCESS
  create-user reply that lacks `profileId` or the token throws
  (Reg.cs:68-69). So can the cookie deserialisation at Reg.cs:71.
  - All of these happen outside the segment's try. They reach the outer
    catch while `rollbackRequired` is still false, so the user just
    created is not deleted.
  - The model covers the missing fields at 68-69. The deserialisation at
    71 is not modelled (see "Left out").
  - A rejection lacking `errorDescription` (Reg.cs:64) also throws into the
    outer catch. No user is known to exist then, and the answer is the
    internal error.
- **The outer catch's delete uses a different id.** Its delete-user id is
  the text of create-user's `data` field (Reg.cs:322), not the profile id.
  The model keeps it as the opaque input `dataText`
  (`OuterCatchCustomerId`) and claims no relation between it and
  `profileId`.

## Model

| member | source | states |
|---|---|---|
| Responses.PrepareResponsePayload | Reg.cs:30-50 | The response has the given status code, message, status, new id and cookies. The old id is passed through when non-empty and is "-" when empty. A location is present exactly when a non-empty one was given, and then it is that one. |
| RegistrationService.SingleProfileSegment | Reg.cs:52-118 | The trace is `SegmentTrace`. With the policy off: no call, success, empty id and token, rollback false, all three cookies "-". If create-user is not SUCCESS: failure with its `errorDescription` (a throw when that is missing), rollback false, no delete. Otherwise, when the SUCCESS reply carries `profileId` and the token (`UserCreated`): the create-user id, token and cookies are kept, and rollback holds exactly when the user is not a Guest. A throwing create-user, or a SUCCESS reply missing either field, leaves the segment as a throw. A failing fetch answers not-success with the internal-error message. Success holds exactly when `SegmentSucceeds`. |
| RegistrationService.CustomerRegistration | Reg.cs:122-334 | The response is `RegistrationResponse` and the trace is `RegistrationTrace`, the exit-by-exit reference definitions, on every input. |
| RegistrationProperties.SegmentTraceCountsAt | Reg.cs:56-107 | The segment issues `SegmentCount` calls of each kind. That is one create-user when the policy is on, and one get-profile after a created user. Then it issues either one delete for a non-Guest whose fetch fails, or one create-address for brand "gi". |
| RegistrationProperties.SegmentCompensation | Reg.cs:58-93 | The segment issues at most one create-user and at most one delete-user. The delete happens exactly when a created non-Guest's fetch fails, and it is the last call, with create-user's `profileId` and token. create-address happens exactly for "gi" after a fetch that does not fail. There is never a create-membership. |
| RegistrationProperties.BranchTraceCountsAt | Reg.cs:210-309 | The branch adds `BranchCount` calls of each kind. That is one transformer call, then one CRM mutation on the chosen path after a successful transformation. Then it adds either one membership on completion, or one delete on a reported failure or on a throw with rollback set. |
| RegistrationProperties.MutationCountsAt | Reg.cs:242-309 | After a successful transformation, the CRM mutation and the calls after it add exactly the branch's counts beyond the transformer call. |
| RegistrationProperties.TailCountsAt | Reg.cs:245-309 | After the CRM mutation the trace holds only what the branch's counts allow. That is one delete on FAILED, or on a throw with rollback set. Otherwise it is one membership after a complete reply. |
| RegistrationProperties.TraceCounts | Reg.cs:122-334 | Every run issues exactly `RunCount` calls of every kind: one search, then the segment's counts, then the branch's counts. |
| RegistrationProperties.SearchFailureIsolated | Reg.cs:133-141 | A failed or throwing search answers the internal error, and the search is the only call. |
| RegistrationProperties.AlreadyRegistered | Reg.cs:157-186 | A Registered user makes the search the only call. With the policy on, the answer is the already-exists error. With the policy off and `PersonContactId` present, it is 200 with ACCOUNT_ALREADY_EXISTS, SUCCESS_STATUS, old id "-", `PersonContactId` as the new id, all cookies "-" and no location. With the policy off and `PersonContactId` absent, the dereference throws and the answer is the internal error. |
| RegistrationProperties.SegmentFailureEndsRun | Reg.cs:195-207 | A failed segment answers create-user's error description when create-user rejected, and the internal error otherwise. No transformer, CRM mutation or membership call follows. There is one delete exactly when a created user is not a Guest. |
| RegistrationProperties.BranchSelection | Reg.cs:210-226 | When the branch is reached, it has exactly one transformer call. On the create path (`totalSize` "0") that call uses the create template with isTargetState = not the policy; otherwise it uses the update template without it. A create-profile call happens exactly on the create path after a successful transformation, and an update-profile call exactly on the update path; never both. |
| RegistrationProperties.BranchHasTransformer | Reg.cs:226-278 | The branch's trace contains its transformer call. |
| RegistrationProperties.BranchFailureCompensates | Reg.cs:229-300 | A transformer status other than SUCCESS, or a CRM status equal to FAILED, answers the internal error and causes exactly one delete, the last call. The delete carries the segment's id and token whatever the rollback flag. There is no membership. |
| RegistrationProperties.SuccessfulRegistration | Reg.cs:254-309 | A completed run answers 200 with SUCCESS_MSG and SUCCESS_STATUS. The new id is the CRM reply's `newCustomerID`, and any CRM status other than FAILED counts here. With the policy on, the old id is create-user's profile id (or "-" when empty), and the cookies and a non-empty location come from create-user. With the policy off, the old id is "-", the cookies are the placeholders and there is no location. There is exactly one membership, last, with the request's opt-in, and no delete. |
| RegistrationProperties.SuccessExactlyWhenCompleted | Reg.cs:256-260 | A run answers SUCCESS_MSG exactly when it completes. Every non-error answer has status code 200 and SUCCESS_STATUS. |
| RegistrationProperties.OuterCatchCompensation | Reg.cs:316-330 | A throw in the branch (transformer, CRM, a missing content or new id) answers the internal error with no membership. It deletes only if rollback was set, and then as the last call, with the rendered `data` field as the id. |
| RegistrationProperties.AtMostOneCreateAndDelete | Reg.cs:122-334 | Every run issues one search, as its first call, and at most one create-user. A get-profile is issued only if a create-user is, and then as the third call, right after the create-user as the second. Every run issues at most one delete and never both a delete and a membership. |
| RegistrationProperties.CompensationFollowsCreation | Reg.cs:72-105 | With the policy on, a delete happens only if create-user produced a user. The create-user is then the second call, and the delete is the last call, carrying the created user's token. |
| RegistrationProperties.PolicyOffIdentityCalls | Reg.cs:56-309 | With the policy off there is no create-user, get-profile or create-address. A delete happens exactly when the branch reports a failure, and a delete or a membership is last with an empty id and token. |
| RegistrationProperties.RunStartsWithSearch | Reg.cs:133 | Every run's first call is the CRM search. |
| RegistrationProperties.RunPrefix | Reg.cs:58-79 | With the policy on and a user created, the run's second call is create-user and its third is get-profile. |
| RegistrationProperties.BranchExtends | Reg.cs:210-309 | The branch only appends calls to those made before it. |
| RegistrationProperties.GuestCompensation | Reg.cs:74-300 | For a Guest, the only delete a run can issue is the ungated one of a branch that reports failure. |
| RegistrationProperties.CompensationIsLast | Reg.cs:83-330 | Whenever a run issues a delete, it is the run's last call. |

## Left out

- **Logging.** `Logger.LogInfo` and `LogHandler` do not affect outcomes.
- **JSON.** JObject building, `SelectToken` and the cookie deserialisation at Reg.cs:71 are not modelled. A reply is a record of the fields read, with absent fields as `None`.
  - Malformed JSON is not a separate case. That covers the casts at Reg.cs:145, 220 and 272, and `JObject.Parse` at Reg.cs:238 and 289. Present transformed content counts as parseable.
- **The transformation model's contents.** These are the CRM data, the timestamp, the request, the profile data and the API version from `GetAppSettings`. The transformer is an outcome, and its call records only the template and `isTargetState`.
- **Unseen dependencies.** `CoreUtils.IsThirdParty` is a parameter, and its possible exception is not modelled.
  - An exception from `CoreUtils.GetAppSettings` while the transformation model is built (Reg.cs:221, 273) is not modelled. Once the branch is reached, the transformer call is always recorded. `CrmApiToken` and `functionRootPath` are only passed on, so they are left out.
- **The shape of an error response.** `CustomErrorHelper.AuthenticationError` is not part of this model. Its status code and body are unknown, so the outcome carries only the message.
- **Messages.** The messages and statuses have no concrete string values here. Create-user's error description is carried as `Text(s)`.
- **Async execution.** Tasks, timeouts and concurrency are not modelled. Calls are sequential, and a fire-and-forget call is an entry in the trace whose outcome is never read.
- **myagent-test.cs.** It is an HTTP entry point with no registration logic, so it is not part of this model.
- OuterCatchCustomerId: the id that the outer catch sends to delete-user is an opaque rendering of create-user's `data` field, not a profile id. Nothing is claimed about its relation to `profileId`, matching the code at Reg.cs:322.
