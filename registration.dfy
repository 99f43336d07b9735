/**
 * The registration saga of CustomerRegistrationService: CRM search and
 * classification, the identity ("single profile") segment, the CRM create or
 * update branch, compensation by delete-user, and two levels of exception
 * handling. Each method returns its outcome together with the ordered trace of
 * the port calls it issued; fire-and-forget calls appear in the trace and
 * their results are ignored.
 */
module RegistrationService {
  import opened Wrappers
  import opened Ports
  import opened Trace
  import opened Responses

  /** SingleProfileSegmentResponse. */
  datatype SegmentResponse = SegmentResponse(
    singleProfileToken: string,
    oldCustomerId: string,
    cookies: Cookies,
    rollbackRequired: bool,
    responseMessage: Message,
    isSuccess: bool,
    createUserResponse: Option<CreateUserReply>,  // None: an empty JSON object
    getUserResponse: Option<GetProfileReply>)     // None: an empty JSON object

  // ---------------------------------------------------------------------------
  // Conditions on the port outcomes that decide which exit a run takes
  // ---------------------------------------------------------------------------

  /** create-user answered SUCCESS and carries the profile id and token the segment reads. */
  predicate UserCreated(ports: Ports)
  {
    && ports.createUser.Returned?
    && ports.createUser.value.status == SuccessStatus
    && ports.createUser.value.profileId.Some?
    && ports.createUser.value.authToken.Some?
  }

  /** create-user answered something other than SUCCESS, with an error description. */
  predicate UserRejected(ports: Ports)
  {
    && ports.createUser.Returned?
    && ports.createUser.value.status != SuccessStatus
    && ports.createUser.value.errorDescription.Some?
  }

  /**
   * get-profile ends the segment in failure: it threw, or it answered FAILED
   * for a user type whose creation must be rolled back (anything but Guest).
   */
  predicate ProfileFetchFails(ports: Ports, userType: string)
  {
    ports.getProfile.Threw? || (ports.getProfile.value.status == FailedStatus && userType != "Guest")
  }

  /** The identity segment reports success. */
  predicate SegmentSucceeds(ports: Ports, isWmRequired: bool, userType: string)
  {
    !isWmRequired || (UserCreated(ports) && !ProfileFetchFails(ports, userType))
  }

  /** CRM search answered SUCCESS. */
  predicate SearchSucceeded(ports: Ports)
  {
    ports.search.Returned? && ports.search.value.status == SuccessStatus
  }

  /** The registration status of the first CRM record, "" when absent. */
  function UserTypeOf(search: SearchReply): string
  {
    search.registrationStatus.GetOr("")
  }

  /** The record has no CRM profile yet: take the create path rather than update. */
  predicate IsCreatePath(search: SearchReply)
  {
    search.totalSize == Some("0")
  }

  /** The run gets past the identity segment into the create or update branch. */
  predicate ReachesBranch(ports: Ports, isWmRequired: bool)
  {
    && SearchSucceeded(ports)
    && UserTypeOf(ports.search.value) != "Registered"
    && SegmentSucceeds(ports, isWmRequired, UserTypeOf(ports.search.value))
  }

  /** The reply of the CRM mutation the branch issues. */
  function CrmReplyOf(ports: Ports, createPath: bool): Completion<CrmReply>
  {
    if createPath then ports.crmCreate else ports.crmUpdate
  }

  /** The transformer answered SUCCESS with parseable content. */
  predicate Transformed(ports: Ports)
  {
    ports.transform.Returned? && ports.transform.value.status == SuccessStatus
    && ports.transform.value.transformedContent.Some?
  }

  /** In the branch, the transformer or the CRM mutation reports failure (and nothing threw first). */
  predicate BranchRejected(ports: Ports, createPath: bool)
  {
    || (ports.transform.Returned? && ports.transform.value.status != SuccessStatus)
    || (Transformed(ports) && CrmReplyOf(ports, createPath).Returned?
        && CrmReplyOf(ports, createPath).value.status == FailedStatus)
  }

  /** In the branch, the transformer and the CRM mutation succeed and the new id is present. */
  predicate BranchCompletes(ports: Ports, createPath: bool)
  {
    && Transformed(ports)
    && CrmReplyOf(ports, createPath).Returned?
    && CrmReplyOf(ports, createPath).value.status != FailedStatus
    && CrmReplyOf(ports, createPath).value.newCustomerId.Some?
  }

  /** The whole saga registers the customer. */
  predicate RegistrationCompletes(ports: Ports, isWmRequired: bool)
  {
    ReachesBranch(ports, isWmRequired) && BranchCompletes(ports, IsCreatePath(ports.search.value))
  }

  /** The identity-system id the saga holds after a successful segment ("" when the identity system takes no part). */
  function HeldCustomerId(ports: Ports, isWmRequired: bool): string
  {
    if isWmRequired && UserCreated(ports) then ports.createUser.value.profileId.value else ""
  }

  /** The session token the saga holds after a successful segment. */
  function HeldToken(ports: Ports, isWmRequired: bool): string
  {
    if isWmRequired && UserCreated(ports) then ports.createUser.value.authToken.value else ""
  }

  /** The cookie bundle the saga holds after a successful segment. */
  function HeldCookies(ports: Ports, isWmRequired: bool): Cookies
  {
    if isWmRequired && UserCreated(ports) then ports.createUser.value.cookies else PLACEHOLDER_COOKIES
  }

  /** The `location` of the create-user reply the saga holds after a successful segment. */
  function HeldLocation(ports: Ports, isWmRequired: bool): Option<string>
  {
    if isWmRequired && UserCreated(ports) then ports.createUser.value.location else None
  }

  /**
   * The id the outer catch passes to delete-user: the create-user reply's
   * `data` object rendered as text, "" when absent. It is not the profile id.
   */
  function OuterCatchCustomerId(ports: Ports, isWmRequired: bool): string
  {
    if isWmRequired && UserCreated(ports) then ports.createUser.value.dataText.GetOr("") else ""
  }

  /**
   * The calls the identity segment issues: create-user; then, once a user
   * exists, get-profile; then delete-user when the fetch fails for a user that
   * must be rolled back, or create-address for the "gi" brand when it does not.
   */
  function SegmentTrace(
    req: RegistrationRequest, ports: Ports, isWmRequired: bool, isThirdParty: bool,
    userType: string, lastname: string, title: string): seq<Call>
  {
    if !isWmRequired then []
    else
      var created := [CreateUserInSingleProfile(isThirdParty, req.brandName, userType, lastname, title)];
      if !UserCreated(ports) then created
      else
        var id, token := ports.createUser.value.profileId.value, ports.createUser.value.authToken.value;
        var fetched := created + [GetProfileDetailsFromSingleProfile(token, req.brandName)];
        if ProfileFetchFails(ports, userType) && userType != "Guest" then
          fetched + [DeleteUserInSingleProfile(id, token, req.brandName)]
        else if !ProfileFetchFails(ports, userType) && req.brandName == "gi" then
          fetched + [CreateSingleProfileAddress(id, token, req.brandName, req.postCode)]
        else fetched
  }

  // ---------------------------------------------------------------------------
  // The identity segment
  // ---------------------------------------------------------------------------

  /**
   * SingleProfileSegment: with the identity system required, create the user,
   * then fetch its profile, deleting the new user again when the fetch fails
   * and the user is not a Guest. `Threw` is an exception that leaves the
   * segment (it reaches the saga's outer catch).
   */
  method SingleProfileSegment(
    req: RegistrationRequest, ports: Ports, isWmRequired: bool, isThirdParty: bool,
    userType: string, lastname: string, title: string)
    returns (outcome: Completion<SegmentResponse>, calls: seq<Call>)
    ensures calls == SegmentTrace(req, ports, isWmRequired, isThirdParty, userType, lastname, title)
    // Policy off: no identity call, a placeholder success.
    ensures !isWmRequired ==>
      && calls == []
      && outcome == Returned(SegmentResponse("", "", PLACEHOLDER_COOKIES, false, Text(""), true, None, None))
    // create-user did not produce a user: nothing to roll back.
    ensures isWmRequired && !UserCreated(ports) ==>
      && (outcome.Returned? <==> UserRejected(ports))
      && (outcome.Returned? ==>
            outcome.value == SegmentResponse("", "", EMPTY_COOKIES, false,
              Text(ports.createUser.value.errorDescription.value), false, None, None))
    // create-user produced a user: the segment holds its id, token and cookies.
    ensures isWmRequired && UserCreated(ports) ==>
      var created := ports.createUser.value;
      && outcome.Returned?
      && outcome.value.singleProfileToken == created.authToken.value
      && outcome.value.oldCustomerId == created.profileId.value
      && outcome.value.cookies == created.cookies
      && outcome.value.rollbackRequired == (userType != "Guest")
      && (ProfileFetchFails(ports, userType) ==>
            && !outcome.value.isSuccess
            && outcome.value.responseMessage == InternalServerErrorMsg
            && outcome.value.createUserResponse == None
            && outcome.value.getUserResponse == None)
      && (!ProfileFetchFails(ports, userType) ==>
            && outcome.value.isSuccess
            && outcome.value.responseMessage == Text("")
            && outcome.value.createUserResponse == Some(created)
            && outcome.value.getUserResponse == Some(ports.getProfile.value))
    // Summaries.
    ensures outcome.Returned? ==> (outcome.value.isSuccess <==> SegmentSucceeds(ports, isWmRequired, userType))
    ensures outcome.Returned? ==>
      (outcome.value.rollbackRequired <==> isWmRequired && UserCreated(ports) && userType != "Guest")
    ensures outcome.Threw? ==> isWmRequired && !UserCreated(ports)
  {
    calls := [];
    if isWmRequired {
      var createCall := CreateUserInSingleProfile(isThirdParty, req.brandName, userType, lastname, title);
      calls := calls + [createCall];
      if ports.createUser.Threw? {
        outcome := Threw;
        return;
      }
      var created := ports.createUser.value;
      // create-user failed: return its error description
      if created.status != SuccessStatus {
        if created.errorDescription.None? {
          outcome := Threw;
          return;
        }
        outcome := Returned(SegmentResponse("", "", EMPTY_COOKIES, false, Text(created.errorDescription.value), false, None, None));
        return;
      }
      if created.profileId.None? || created.authToken.None? {
        outcome := Threw;
        return;
      }
      var oldCustomerId := created.profileId.value;
      var singleProfileToken := created.authToken.value;
      var cookies := created.cookies;
      // Guests are not rolled back
      var rollbackRequired := userType != "Guest";

      // try
      var fetchCall := GetProfileDetailsFromSingleProfile(singleProfileToken, req.brandName);
      calls := calls + [fetchCall];
      if ports.getProfile.Threw? {
        // catch
        if rollbackRequired {
          var deleteCall := DeleteUserInSingleProfile(oldCustomerId, singleProfileToken, req.brandName);
          calls := calls + [deleteCall];
        }
        outcome := Returned(SegmentResponse(singleProfileToken, oldCustomerId, cookies, rollbackRequired,
                                            InternalServerErrorMsg, false, None, None));
        return;
      }
      var userDetails := ports.getProfile.value;
      if userDetails.status == FailedStatus && rollbackRequired {
        var deleteCall := DeleteUserInSingleProfile(oldCustomerId, singleProfileToken, req.brandName);
        calls := calls + [deleteCall];
        outcome := Returned(SegmentResponse(singleProfileToken, oldCustomerId, cookies, rollbackRequired,
                                            InternalServerErrorMsg, false, None, None));
        return;
      }
      if req.brandName == "gi" {
        var addressCall := CreateSingleProfileAddress(oldCustomerId, singleProfileToken, req.brandName, req.postCode);
        calls := calls + [addressCall];
      }
      outcome := Returned(SegmentResponse(singleProfileToken, oldCustomerId, cookies, rollbackRequired,
                                          Text(""), true, Some(created), Some(userDetails)));
      return;
    }
    outcome := Returned(SegmentResponse("", "", PLACEHOLDER_COOKIES, false, Text(""), true, None, None));
  }


  // ---------------------------------------------------------------------------
  // The saga: its reference definition by exit, and the method
  // ---------------------------------------------------------------------------

  /** The last name and title passed to create-user: read from the CRM record for a Manual user only. */
  function SpDetails(search: SearchReply): (string, string)
  {
    if UserTypeOf(search) == "Manual" then (search.lastName.GetOr(""), search.salutation.GetOr("")) else ("", "")
  }

  /** The transformer call of the branch: the template, and isTargetState only on the create path. */
  function TransformerCallFor(search: SearchReply, isWmRequired: bool): Call
  {
    if IsCreatePath(search) then Transformer(CrmCreateNewUser, Some(!isWmRequired))
    else Transformer(UpdateUserCrm, None)
  }

  /** The CRM mutation of the branch, carrying the transformed content. */
  function CrmCallFor(createPath: bool, content: string): Call
  {
    if createPath then CreateUserInCrm(content) else UpdateUserInCrm(content)
  }

  /** The saga's rollbackRequired once the segment has returned: a user was created and is not a Guest. */
  predicate RollbackSet(ports: Ports, isWmRequired: bool)
    requires SearchSucceeded(ports)
  {
    isWmRequired && UserCreated(ports) && UserTypeOf(ports.search.value) != "Guest"
  }

  /** The compensation, if any, that the outer catch issues once the segment has succeeded. */
  function CatchTrace(req: RegistrationRequest, ports: Ports, isWmRequired: bool): seq<Call>
    requires SearchSucceeded(ports)
  {
    if RollbackSet(ports, isWmRequired)
    then [DeleteUserInSingleProfile(OuterCatchCustomerId(ports, isWmRequired), HeldToken(ports, isWmRequired), req.brandName)]
    else []
  }

  /**
   * The calls of a run that reaches the create or update branch, after the
   * calls `before` it: the transformer, the CRM mutation, then delete-user
   * with the held id and token when either reports failure, create-membership
   * when both succeed, or the outer catch's compensation when something throws.
   */
  function BranchTrace(req: RegistrationRequest, ports: Ports, isWmRequired: bool, before: seq<Call>): seq<Call>
    requires ReachesBranch(ports, isWmRequired)
  {
    var search := ports.search.value;
    var createPath := IsCreatePath(search);
    var rollback := DeleteUserInSingleProfile(HeldCustomerId(ports, isWmRequired), HeldToken(ports, isWmRequired), req.brandName);
    var transformed := before + [TransformerCallFor(search, isWmRequired)];
    if ports.transform.Threw? then transformed + CatchTrace(req, ports, isWmRequired)
    else if ports.transform.value.status != SuccessStatus then transformed + [rollback]
    else if ports.transform.value.transformedContent.None? then transformed + CatchTrace(req, ports, isWmRequired)
    else
      var crm := CrmReplyOf(ports, createPath);
      var mutated := transformed + [CrmCallFor(createPath, ports.transform.value.transformedContent.value)];
      if crm.Threw? then mutated + CatchTrace(req, ports, isWmRequired)
      else if crm.value.status == FailedStatus then mutated + [rollback]
      else if crm.value.newCustomerId.None? then mutated + CatchTrace(req, ports, isWmRequired)
      else mutated + [CreateSingleProfileMembership(HeldCustomerId(ports, isWmRequired), HeldToken(ports, isWmRequired),
                                                    req.brandName, req.rewardsOptIn)]
  }

  /** The calls of a whole run: the search, then the segment, then the branch, each only if the run gets there. */
  function RegistrationTrace(req: RegistrationRequest, ports: Ports, isWmRequired: bool, isThirdParty: bool): seq<Call>
  {
    if !SearchSucceeded(ports) || UserTypeOf(ports.search.value) == "Registered" then [SearchUserInCrm]
    else
      var userType := UserTypeOf(ports.search.value);
      var (lastname, title) := SpDetails(ports.search.value);
      var segmentDone := [SearchUserInCrm] + SegmentTrace(req, ports, isWmRequired, isThirdParty, userType, lastname, title);
      if !SegmentSucceeds(ports, isWmRequired, userType) then segmentDone
      else BranchTrace(req, ports, isWmRequired, segmentDone)
  }

  /**
   * The response of a run, by the exit it takes: an internal error on every
   * failure except two (an already registered account, and an identity
   * create-user rejection, which carries its own description); the
   * already-exists answer needs the record's contact id when the identity
   * system takes no part; success once the branch completes.
   */
  function RegistrationResponse(ports: Ports, isWmRequired: bool): Response
  {
    if !SearchSucceeded(ports) then AuthenticationError(InternalServerErrorMsg)
    else
      var search := ports.search.value;
      if UserTypeOf(search) == "Registered" then
        if isWmRequired then AuthenticationError(AccountAlreadyExists)
        else if search.personContactId.None? then AuthenticationError(InternalServerErrorMsg)
        else Response(200, Payload(AccountAlreadyExists, SuccessStatus, "-", search.personContactId.value,
                                   PLACEHOLDER_COOKIES, None))
      else if !SegmentSucceeds(ports, isWmRequired, UserTypeOf(search)) then
        AuthenticationError(if UserRejected(ports) then Text(ports.createUser.value.errorDescription.value)
                            else InternalServerErrorMsg)
      else if BranchCompletes(ports, IsCreatePath(search)) then
        PrepareResponsePayload(SuccessMsg, SuccessStatus,
          CrmReplyOf(ports, IsCreatePath(search)).value.newCustomerId.value,
          HeldCustomerId(ports, isWmRequired), HeldCookies(ports, isWmRequired), 200,
          HeldLocation(ports, isWmRequired))
      else AuthenticationError(InternalServerErrorMsg)
  }

  /**
   * CustomerRegistration: search the CRM, classify the user, run the identity
   * segment, then create or update the CRM profile, compensating with
   * delete-user when the branch fails. An exception anywhere ends in the
   * outer catch, which deletes the user only if the segment had set
   * rollbackRequired. The method, written step by step, agrees with the
   * reference definitions above on every input.
   */
  method CustomerRegistration(req: RegistrationRequest, ports: Ports, isWmRequired: bool, isThirdParty: bool)
    returns (response: Response, calls: seq<Call>)
    ensures response == RegistrationResponse(ports, isWmRequired)
    ensures calls == RegistrationTrace(req, ports, isWmRequired, isThirdParty)
  {
    var createUserResponse: Option<CreateUserReply> := None;
    var singleProfileToken := "";
    var rollbackRequired := false;
    calls := [SearchUserInCrm];
    label try: {
      if ports.search.Threw? {
        break try;
      }
      var search := ports.search.value;
      if search.status != SuccessStatus {
        response := AuthenticationError(InternalServerErrorMsg);
        return;
      }
      var userType := search.registrationStatus.GetOr("");
      var lastname, title := "", "";
      if userType == "Manual" {
        lastname := search.lastName.GetOr("");
        title := search.salutation.GetOr("");
      }
      // already registered: return
      if userType == "Registered" {
        if !isWmRequired {
          if search.personContactId.None? {
            break try;
          }
          response := Response(200, Payload(AccountAlreadyExists, SuccessStatus, "-",
                                            search.personContactId.value, PLACEHOLDER_COOKIES, None));
          return;
        }
        response := AuthenticationError(AccountAlreadyExists);
        return;
      }

      // Guest, Manual or new
      var segment, segmentCalls := SingleProfileSegment(req, ports, isWmRequired, isThirdParty, userType, lastname, title);
      calls := calls + segmentCalls;
      if segment.Threw? {
        break try;
      }
      var oldCustomerId := segment.value.oldCustomerId;
      var cookies := segment.value.cookies;
      createUserResponse := segment.value.createUserResponse;
      singleProfileToken := segment.value.singleProfileToken;
      rollbackRequired := segment.value.rollbackRequired;
      if !segment.value.isSuccess {
        response := AuthenticationError(segment.value.responseMessage);
        return;
      }

      // create the CRM profile, or update the existing one
      var createPath := search.totalSize == Some("0");
      var transformCall := if createPath then Transformer(CrmCreateNewUser, Some(!isWmRequired))
                           else Transformer(UpdateUserCrm, None);
      calls := calls + [transformCall];
      if ports.transform.Threw? {
        break try;
      }
      // transformation failed: roll back
      if ports.transform.value.status != SuccessStatus {
        calls := calls + [DeleteUserInSingleProfile(oldCustomerId, singleProfileToken, req.brandName)];
        response := AuthenticationError(InternalServerErrorMsg);
        return;
      }
      if ports.transform.value.transformedContent.None? {
        break try;
      }
      var content := ports.transform.value.transformedContent.value;
      calls := calls + [if createPath then CreateUserInCrm(content) else UpdateUserInCrm(content)];
      var crmResponse := if createPath then ports.crmCreate else ports.crmUpdate;
      if crmResponse.Threw? {
        break try;
      }
      // the CRM mutation failed: roll back
      if crmResponse.value.status == FailedStatus {
        calls := calls + [DeleteUserInSingleProfile(oldCustomerId, singleProfileToken, req.brandName)];
        response := AuthenticationError(InternalServerErrorMsg);
        return;
      }
      if crmResponse.value.newCustomerId.None? {
        break try;
      }
      var newCustomerId := crmResponse.value.newCustomerId.value;
      var location := if createUserResponse.Some? then createUserResponse.value.location else None;
      calls := calls + [CreateSingleProfileMembership(oldCustomerId, singleProfileToken, req.brandName, req.rewardsOptIn)];
      response := PrepareResponsePayload(SuccessMsg, SuccessStatus, newCustomerId, oldCustomerId, cookies, 200, location);
      return;
    }
    // catch: roll back only if the segment had asked for it
    if rollbackRequired {
      var deletedId := if createUserResponse.Some? then createUserResponse.value.dataText.GetOr("") else "";
      calls := calls + [DeleteUserInSingleProfile(deletedId, singleProfileToken, req.brandName)];
    }
    response := AuthenticationError(InternalServerErrorMsg);
  }
}
