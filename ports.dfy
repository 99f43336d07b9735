/**
 * The vocabulary shared by the registration saga and the systems it calls:
 * the registration request, the replies of the CRM, identity ("single
 * profile") and transformation ports, and the calls the saga issues.
 */
module Ports {
  import opened Wrappers

  /**
   * The `status` field of a reply, as the saga compares it: equal to
   * SUCCESS_STATUS, equal to FAILED_STATUS, or anything else (including an
   * absent field).
   */
  datatype Status = SuccessStatus | FailedStatus | OtherStatus

  /**
   * Outward messages: the three constants INTERNAL_SERVER_ERROR_MSG,
   * ACCOUNT_ALREADY_EXISTS and SUCCESS_MSG, kept distinct, and free text
   * (the identity system's error description, or "" for no message).
   */
  datatype Message = InternalServerErrorMsg | AccountAlreadyExists | SuccessMsg | Text(text: string)

  /** The session cookie bundle (CookieResponse); an absent field is None. */
  datatype Cookies = Cookies(
    singleProfileLatCookie: Option<string>,
    singleProfileUserToken: Option<string>,
    singleProfileLtCookie: Option<string>)

  /** `new CookieResponse()`: every field unset. */
  const EMPTY_COOKIES := Cookies(None, None, None)

  /** The bundle returned when the identity system takes no part: every field "-". */
  const PLACEHOLDER_COOKIES := Cookies(Some("-"), Some("-"), Some("-"))

  /** How a call ended: it raised an exception, or it returned a value. */
  datatype Completion<+T> = Threw | Returned(value: T)

  /** The fields of the registration request the saga reads itself. */
  datatype RegistrationRequest = RegistrationRequest(brandName: string, postCode: string, rewardsOptIn: bool)

  /** CRM search-profile reply: status and the fields read from `data` and `data.records[0]`. */
  datatype SearchReply = SearchReply(
    status: Status,
    registrationStatus: Option<string>,  // records[0].AccountRegistrationStatus__c
    lastName: Option<string>,            // records[0].LastName
    salutation: Option<string>,          // records[0].Salutation
    personContactId: Option<string>,     // records[0].PersonContactId
    totalSize: Option<string>)           // data.totalSize, rendered as text

  /** Identity create-user reply. */
  datatype CreateUserReply = CreateUserReply(
    status: Status,
    errorDescription: Option<string>,  // data.errorDescription
    profileId: Option<string>,         // data.profileId
    authToken: Option<string>,         // cookies.WM_SEC_AUTH_TOKEN
    cookies: Cookies,                  // the cookies object, deserialised
    location: Option<string>,          // location
    dataText: Option<string>)          // the data object rendered as text

  /** Identity get-profile reply. */
  datatype GetProfileReply = GetProfileReply(status: Status)

  /** Transformer reply; `transformedContent` is None when absent or not parseable JSON. */
  datatype TransformReply = TransformReply(status: Status, transformedContent: Option<string>)

  /** CRM create-profile or update-profile reply. */
  datatype CrmReply = CrmReply(status: Status, newCustomerId: Option<string>)

  /**
   * The outcome of every port call the saga may make during one request.
   * Each port is called at most once per request, so one outcome per port
   * determines the run.
   */
  datatype Ports = Ports(
    search: Completion<SearchReply>,
    createUser: Completion<CreateUserReply>,
    getProfile: Completion<GetProfileReply>,
    transform: Completion<TransformReply>,
    crmCreate: Completion<CrmReply>,
    crmUpdate: Completion<CrmReply>)

  /** The two transformation templates. */
  datatype Template = CrmCreateNewUser | UpdateUserCrm

  /** A call issued by the saga, with the arguments the model tracks. */
  datatype Call =
    | SearchUserInCrm
    | CreateUserInSingleProfile(isThirdParty: bool, brand: string, userType: string, lastname: string, title: string)
    | GetProfileDetailsFromSingleProfile(token: string, brand: string)
    | DeleteUserInSingleProfile(customerId: string, token: string, brand: string)
    | CreateSingleProfileAddress(customerId: string, token: string, brand: string, postCode: string)
    | CreateSingleProfileMembership(customerId: string, token: string, brand: string, rewardsOptIn: bool)
    | Transformer(template: Template, isTargetState: Option<bool>)
    | CreateUserInCrm(content: string)
    | UpdateUserInCrm(content: string)
}
