/**
 * What the registration saga guarantees, stated over the reference
 * definitions of its trace and response (which CustomerRegistration and
 * SingleProfileSegment are proved to follow).
 */
module RegistrationProperties {
  import opened Wrappers
  import opened Ports
  import opened Trace
  import opened Responses
  import opened RegistrationService

  // ---------------------------------------------------------------------------
  // How many calls of each kind a run issues
  // ---------------------------------------------------------------------------

  /**
   * How many calls of kind `k` the identity segment issues: create-user once
   * when the identity system takes part; get-profile once when a user was
   * created; then one delete-user when the fetch fails for a non-Guest, or one
   * create-address for the "gi" brand when it does not fail; nothing else.
   */
  function SegmentCount(req: RegistrationRequest, ports: Ports, isWmRequired: bool, userType: string, k: CallKind): nat
  {
    var created := isWmRequired && UserCreated(ports);
    match k
    case CreateUserKind => if isWmRequired then 1 else 0
    case GetProfileKind => if created then 1 else 0
    case DeleteUserKind => if created && ProfileFetchFails(ports, userType) && userType != "Guest" then 1 else 0
    case AddressKind => if created && !ProfileFetchFails(ports, userType) && req.brandName == "gi" then 1 else 0
    case _ => 0
  }

  lemma {:induction false} SegmentTraceCountsAt(
    req: RegistrationRequest, ports: Ports, isWmRequired: bool, isThirdParty: bool,
    userType: string, lastname: string, title: string, k: CallKind)
    ensures Count(SegmentTrace(req, ports, isWmRequired, isThirdParty, userType, lastname, title), k)
            == SegmentCount(req, ports, isWmRequired, userType, k)
  {
    var t := SegmentTrace(req, ports, isWmRequired, isThirdParty, userType, lastname, title);
    if isWmRequired {
      var createCall := CreateUserInSingleProfile(isThirdParty, req.brandName, userType, lastname, title);
      CountOne(createCall, k);
      if UserCreated(ports) {
        var id, token := ports.createUser.value.profileId.value, ports.createUser.value.authToken.value;
        var fetchCall := GetProfileDetailsFromSingleProfile(token, req.brandName);
        var fetched := [createCall] + [fetchCall];
        CountConcat([createCall], [fetchCall], k);
        CountOne(fetchCall, k);
        if ProfileFetchFails(ports, userType) && userType != "Guest" {
          var deleteCall := DeleteUserInSingleProfile(id, token, req.brandName);
          assert t == fetched + [deleteCall];
          CountConcat(fetched, [deleteCall], k);
          CountOne(deleteCall, k);
        } else if !ProfileFetchFails(ports, userType) && req.brandName == "gi" {
          var addressCall := CreateSingleProfileAddress(id, token, req.brandName, req.postCode);
          assert t == fetched + [addressCall];
          CountConcat(fetched, [addressCall], k);
          CountOne(addressCall, k);
        } else {
          assert t == fetched;
        }
      } else {
        assert t == [createCall];
      }
    } else {
      assert t == [];
    }
  }

  /**
   * How many calls of kind `k` the branch issues: one transformer call; one
   * CRM mutation (create on the create path, update otherwise) when the
   * transformation succeeded; one create-membership when the whole branch
   * completes; one delete-user when the transformer or the CRM reports
   * failure, or when something throws while rollbackRequired is set.
   */
  function BranchCount(ports: Ports, isWmRequired: bool, k: CallKind): nat
    requires ReachesBranch(ports, isWmRequired)
  {
    var createPath := IsCreatePath(ports.search.value);
    match k
    case TransformKind => 1
    case CrmCreateKind => if Transformed(ports) && createPath then 1 else 0
    case CrmUpdateKind => if Transformed(ports) && !createPath then 1 else 0
    case MembershipKind => if BranchCompletes(ports, createPath) then 1 else 0
    case DeleteUserKind =>
      if BranchRejected(ports, createPath) then 1
      else if !BranchCompletes(ports, createPath) && RollbackSet(ports, isWmRequired) then 1
      else 0
    case _ => 0
  }

  lemma {:induction false} BranchTraceCountsAt(req: RegistrationRequest, ports: Ports, isWmRequired: bool, before: seq<Call>, k: CallKind)
    requires ReachesBranch(ports, isWmRequired)
    ensures Count(BranchTrace(req, ports, isWmRequired, before), k) == Count(before, k) + BranchCount(ports, isWmRequired, k)
  {
    var search := ports.search.value;
    var transformCall := TransformerCallFor(search, isWmRequired);
    CountConcat(before, [transformCall], k);
    CountOne(transformCall, k);
    if Transformed(ports) {
      var crmCall := CrmCallFor(IsCreatePath(search), ports.transform.value.transformedContent.value);
      assert BranchTrace(req, ports, isWmRequired, before)
          == before + [transformCall] + [crmCall] + MutationTail(req, ports, isWmRequired);
      MutationCountsAt(req, ports, isWmRequired, before + [transformCall], k);
    } else {
      var rollback := DeleteUserInSingleProfile(HeldCustomerId(ports, isWmRequired), HeldToken(ports, isWmRequired), req.brandName);
      var catchCalls := CatchTrace(req, ports, isWmRequired);
      if ports.transform.Threw? || ports.transform.value.status == SuccessStatus {
        CountConcat(before + [transformCall], catchCalls, k);
        if RollbackSet(ports, isWmRequired) {
          CountOne(catchCalls[0], k);
        }
      } else {
        CountConcat(before + [transformCall], [rollback], k);
        CountOne(rollback, k);
      }
    }
  }

  /** What the branch issues after a successful transformation and its CRM mutation. */
  function MutationTail(req: RegistrationRequest, ports: Ports, isWmRequired: bool): seq<Call>
    requires ReachesBranch(ports, isWmRequired) && Transformed(ports)
  {
    var crm := CrmReplyOf(ports, IsCreatePath(ports.search.value));
    var id, token := HeldCustomerId(ports, isWmRequired), HeldToken(ports, isWmRequired);
    if crm.Threw? then CatchTrace(req, ports, isWmRequired)
    else if crm.value.status == FailedStatus then [DeleteUserInSingleProfile(id, token, req.brandName)]
    else if crm.value.newCustomerId.None? then CatchTrace(req, ports, isWmRequired)
    else [CreateSingleProfileMembership(id, token, req.brandName, req.rewardsOptIn)]
  }

  /**
   * MutationTail holds the branch's delete-user and create-membership calls
   * and nothing else.
   */
  lemma TailCountsAt(req: RegistrationRequest, ports: Ports, isWmRequired: bool, k: CallKind)
    requires ReachesBranch(ports, isWmRequired) && Transformed(ports)
    ensures Count(MutationTail(req, ports, isWmRequired), k)
            == if k == MembershipKind || k == DeleteUserKind then BranchCount(ports, isWmRequired, k) else 0
  {
  }

  /** The part of BranchTraceCountsAt after a successful transformation: the CRM mutation and what follows it. */
  lemma {:induction false} MutationCountsAt(req: RegistrationRequest, ports: Ports, isWmRequired: bool, transformed: seq<Call>, k: CallKind)
    requires ReachesBranch(ports, isWmRequired) && Transformed(ports)
    ensures var createPath := IsCreatePath(ports.search.value);
      var crmCall := CrmCallFor(createPath, ports.transform.value.transformedContent.value);
      Count(transformed + [crmCall] + MutationTail(req, ports, isWmRequired), k)
      == Count(transformed, k) + BranchCount(ports, isWmRequired, k) - (if k == TransformKind then 1 else 0)
  {
    var createPath := IsCreatePath(ports.search.value);
    var crmCall := CrmCallFor(createPath, ports.transform.value.transformedContent.value);
    CountConcat(transformed, [crmCall], k);
    CountOne(crmCall, k);
    CountConcat(transformed + [crmCall], MutationTail(req, ports, isWmRequired), k);
    TailCountsAt(req, ports, isWmRequired, k);
  }

  /** The search phase: the segment runs only for a successful search of a user that is not Registered. */
  predicate InSegment(ports: Ports)
  {
    SearchSucceeded(ports) && UserTypeOf(ports.search.value) != "Registered"
  }

  /**
   * How many calls of kind `k` a whole run issues: one search; the
   * segment's calls when it runs; the branch's calls when it is reached.
   */
  function RunCount(req: RegistrationRequest, ports: Ports, isWmRequired: bool, k: CallKind): nat
  {
    (if k == SearchKind then 1 else 0)
    + (if InSegment(ports) then SegmentCount(req, ports, isWmRequired, UserTypeOf(ports.search.value), k) else 0)
    + (if ReachesBranch(ports, isWmRequired) then BranchCount(ports, isWmRequired, k) else 0)
  }

  /** The trace of every run has exactly the calls RunCount says, kind by kind. */
  lemma {:induction false} TraceCounts(req: RegistrationRequest, ports: Ports, isWmRequired: bool, isThirdParty: bool)
    ensures forall k :: Count(RegistrationTrace(req, ports, isWmRequired, isThirdParty), k) == RunCount(req, ports, isWmRequired, k)
  {
    forall k ensures Count(RegistrationTrace(req, ports, isWmRequired, isThirdParty), k) == RunCount(req, ports, isWmRequired, k) {
      if InSegment(ports) {
        var userType := UserTypeOf(ports.search.value);
        var (lastname, title) := SpDetails(ports.search.value);
        var segment := SegmentTrace(req, ports, isWmRequired, isThirdParty, userType, lastname, title);
        SegmentTraceCountsAt(req, ports, isWmRequired, isThirdParty, userType, lastname, title, k);
        CountConcat([SearchUserInCrm], segment, k);
        if SegmentSucceeds(ports, isWmRequired, userType) {
          BranchTraceCountsAt(req, ports, isWmRequired, [SearchUserInCrm] + segment, k);
        }
      }
    }
  }

  // ---------------------------------------------------------------------------
  // The identity segment
  // ---------------------------------------------------------------------------

  /**
   * The segment creates at most one user and deletes at most once: only a
   * created non-Guest user whose profile fetch failed is deleted, as the last
   * call and with the create-user reply's profile id and token; create-address
   * is issued only for the "gi" brand after a successful fetch.
   */
  lemma SegmentCompensation(
    req: RegistrationRequest, ports: Ports, isWmRequired: bool, isThirdParty: bool,
    userType: string, lastname: string, title: string)
    ensures var t := SegmentTrace(req, ports, isWmRequired, isThirdParty, userType, lastname, title);
      && Count(t, CreateUserKind) <= 1
      && (Count(t, DeleteUserKind) == 1 <==>
            isWmRequired && UserCreated(ports) && userType != "Guest" && ProfileFetchFails(ports, userType))
      && Count(t, DeleteUserKind) <= 1
      && (Count(t, DeleteUserKind) == 1 ==>
            t[|t| - 1] == DeleteUserInSingleProfile(ports.createUser.value.profileId.value,
                                                    ports.createUser.value.authToken.value, req.brandName))
      && (Count(t, AddressKind) == 1 <==>
            isWmRequired && UserCreated(ports) && !ProfileFetchFails(ports, userType) && req.brandName == "gi")
      && Count(t, MembershipKind) == 0
  {
    SegmentTraceCountsAt(req, ports, isWmRequired, isThirdParty, userType, lastname, title, CreateUserKind);
    SegmentTraceCountsAt(req, ports, isWmRequired, isThirdParty, userType, lastname, title, DeleteUserKind);
    SegmentTraceCountsAt(req, ports, isWmRequired, isThirdParty, userType, lastname, title, AddressKind);
    SegmentTraceCountsAt(req, ports, isWmRequired, isThirdParty, userType, lastname, title, MembershipKind);
  }

  // ---------------------------------------------------------------------------
  // The saga, exit by exit
  // ---------------------------------------------------------------------------

  /** A failed or throwing CRM search is an internal error and nothing else is called. */
  lemma SearchFailureIsolated(req: RegistrationRequest, ports: Ports, isWmRequired: bool, isThirdParty: bool)
    requires !SearchSucceeded(ports)
    ensures RegistrationResponse(ports, isWmRequired) == AuthenticationError(InternalServerErrorMsg)
    ensures RegistrationTrace(req, ports, isWmRequired, isThirdParty) == [SearchUserInCrm]
  {
  }

  /**
   * A Registered user short-circuits before the identity segment. With the
   * identity system kept out it is a 200 answer ACCOUNT_ALREADY_EXISTS with
   * SUCCESS_STATUS, old id "-", the record's contact id as new id and
   * placeholder cookies, or the internal error when the record has no
   * contact id; with it required, an error carrying ACCOUNT_ALREADY_EXISTS.
   */
  lemma AlreadyRegistered(req: RegistrationRequest, ports: Ports, isWmRequired: bool, isThirdParty: bool)
    requires SearchSucceeded(ports) && UserTypeOf(ports.search.value) == "Registered"
    ensures RegistrationTrace(req, ports, isWmRequired, isThirdParty) == [SearchUserInCrm]
    ensures isWmRequired ==> RegistrationResponse(ports, isWmRequired) == AuthenticationError(AccountAlreadyExists)
    ensures !isWmRequired && ports.search.value.personContactId.Some? ==>
      var r := RegistrationResponse(ports, isWmRequired);
      && r.Response? && r.apiStatusCode == 200
      && r.payload.message == AccountAlreadyExists && r.payload.accountStatus == SuccessStatus
      && r.payload.oldCustomerId == "-" && r.payload.newCustomerId == ports.search.value.personContactId.value
      && r.payload.cookies == PLACEHOLDER_COOKIES && r.payload.location.None?
    ensures !isWmRequired && ports.search.value.personContactId.None? ==>
      RegistrationResponse(ports, isWmRequired) == AuthenticationError(InternalServerErrorMsg)
  {
  }

  /**
   * A failed identity segment ends the run with its message (create-user's
   * error description, otherwise an internal error); the branch never runs,
   * and the only delete-user is the segment's own, for a created non-Guest.
   */
  lemma SegmentFailureEndsRun(req: RegistrationRequest, ports: Ports, isWmRequired: bool, isThirdParty: bool)
    requires InSegment(ports) && !SegmentSucceeds(ports, isWmRequired, UserTypeOf(ports.search.value))
    ensures RegistrationResponse(ports, isWmRequired) ==
      AuthenticationError(if UserRejected(ports) then Text(ports.createUser.value.errorDescription.value)
                          else InternalServerErrorMsg)
    ensures var t := RegistrationTrace(req, ports, isWmRequired, isThirdParty);
      && Count(t, TransformKind) == 0 && Count(t, MembershipKind) == 0
      && Count(t, CrmCreateKind) == 0 && Count(t, CrmUpdateKind) == 0
      && (Count(t, DeleteUserKind) == 1 <==> UserCreated(ports) && UserTypeOf(ports.search.value) != "Guest")
      && (!UserCreated(ports) ==> Count(t, DeleteUserKind) == 0)
  {
    TraceCounts(req, ports, isWmRequired, isThirdParty);
  }

  /**
   * The branch is chosen by totalSize: one transformer call, with the create
   * template and isTargetState (the inverse of the policy) when totalSize is
   * "0", the update template without it otherwise; then at most one CRM
   * mutation, create-profile only on the create path and update-profile only
   * on the update path.
   */
  lemma BranchSelection(req: RegistrationRequest, ports: Ports, isWmRequired: bool, isThirdParty: bool)
    ensures var t := RegistrationTrace(req, ports, isWmRequired, isThirdParty);
      && Count(t, TransformKind) == (if ReachesBranch(ports, isWmRequired) then 1 else 0)
      && (ReachesBranch(ports, isWmRequired) && IsCreatePath(ports.search.value) ==>
            Transformer(CrmCreateNewUser, Some(!isWmRequired)) in t)
      && (ReachesBranch(ports, isWmRequired) && !IsCreatePath(ports.search.value) ==>
            Transformer(UpdateUserCrm, None) in t)
      && Count(t, CrmCreateKind) + Count(t, CrmUpdateKind) <= 1
      && (Count(t, CrmCreateKind) == 1 <==>
            ReachesBranch(ports, isWmRequired) && Transformed(ports) && IsCreatePath(ports.search.value))
      && (Count(t, CrmUpdateKind) == 1 <==>
            ReachesBranch(ports, isWmRequired) && Transformed(ports) && !IsCreatePath(ports.search.value))
  {
    TraceCounts(req, ports, isWmRequired, isThirdParty);
    var t := RegistrationTrace(req, ports, isWmRequired, isThirdParty);
    if ReachesBranch(ports, isWmRequired) {
      var search := ports.search.value;
      var userType := UserTypeOf(search);
      var (lastname, title) := SpDetails(search);
      var before := [SearchUserInCrm] + SegmentTrace(req, ports, isWmRequired, isThirdParty, userType, lastname, title);
      BranchHasTransformer(req, ports, isWmRequired, before);
    }
  }

  /** The branch's trace contains its transformer call. */
  lemma BranchHasTransformer(req: RegistrationRequest, ports: Ports, isWmRequired: bool, before: seq<Call>)
    requires ReachesBranch(ports, isWmRequired)
    ensures TransformerCallFor(ports.search.value, isWmRequired) in BranchTrace(req, ports, isWmRequired, before)
  {
  }

  /**
   * When the transformer reports failure, or the CRM mutation answers FAILED,
   * the run issues exactly one delete-user, last, with the id and token the
   * segment handed over, whatever the rollback flag (so also for a Guest, and
   * with "" and "" when the identity system takes no part); the answer is an
   * internal error and no membership is created.
   */
  lemma BranchFailureCompensates(req: RegistrationRequest, ports: Ports, isWmRequired: bool, isThirdParty: bool)
    requires ReachesBranch(ports, isWmRequired) && BranchRejected(ports, IsCreatePath(ports.search.value))
    ensures RegistrationResponse(ports, isWmRequired) == AuthenticationError(InternalServerErrorMsg)
    ensures var t := RegistrationTrace(req, ports, isWmRequired, isThirdParty);
      && Count(t, DeleteUserKind) == 1 && Count(t, MembershipKind) == 0
      && t[|t| - 1] == DeleteUserInSingleProfile(HeldCustomerId(ports, isWmRequired), HeldToken(ports, isWmRequired), req.brandName)
  {
    TraceCounts(req, ports, isWmRequired, isThirdParty);
  }

  /**
   * A completed registration answers 200 with SUCCESS_MSG and SUCCESS_STATUS;
   * the new customer id is the one the CRM create (or update) reply carries.
   * With the identity system taking part, the old id is the create-user
   * profile id, "-" when empty, and the cookies and the location come from
   * the create-user reply, the location only when non-empty; with it kept
   * out, the old id is "-", the cookies are the placeholders and there is no
   * location. The run issues exactly one create-membership, last, with the
   * request's opt-in flag, and no delete-user.
   */
  lemma SuccessfulRegistration(req: RegistrationRequest, ports: Ports, isWmRequired: bool, isThirdParty: bool)
    requires RegistrationCompletes(ports, isWmRequired)
    ensures var r := RegistrationResponse(ports, isWmRequired);
      var createPath := IsCreatePath(ports.search.value);
      var id := HeldCustomerId(ports, isWmRequired);
      && r.Response? && r.apiStatusCode == 200
      && r.payload.message == SuccessMsg && r.payload.accountStatus == SuccessStatus
      && Some(r.payload.newCustomerId) == CrmReplyOf(ports, createPath).value.newCustomerId
      && r.payload.oldCustomerId == (if id == "" then "-" else id)
      && r.payload.cookies == HeldCookies(ports, isWmRequired)
      && (r.payload.location.Some? <==> HeldLocation(ports, isWmRequired).Some? && HeldLocation(ports, isWmRequired).value != "")
      && (r.payload.location.Some? ==> r.payload.location == HeldLocation(ports, isWmRequired))
    ensures var r := RegistrationResponse(ports, isWmRequired);
      isWmRequired ==>
        var reply := ports.createUser.value;
        && r.payload.oldCustomerId == (if reply.profileId.value == "" then "-" else reply.profileId.value)
        && r.payload.cookies == reply.cookies
        && (r.payload.location.Some? <==> reply.location.Some? && reply.location.value != "")
        && (r.payload.location.Some? ==> r.payload.location == reply.location)
    ensures var r := RegistrationResponse(ports, isWmRequired);
      !isWmRequired ==>
        r.payload.oldCustomerId == "-" && r.payload.cookies == PLACEHOLDER_COOKIES && r.payload.location.None?
    ensures var t := RegistrationTrace(req, ports, isWmRequired, isThirdParty);
      && Count(t, MembershipKind) == 1 && Count(t, DeleteUserKind) == 0
      && t[|t| - 1] == CreateSingleProfileMembership(HeldCustomerId(ports, isWmRequired), HeldToken(ports, isWmRequired),
                                                     req.brandName, req.rewardsOptIn)
  {
    TraceCounts(req, ports, isWmRequired, isThirdParty);
  }

  /** The run answers SUCCESS_MSG exactly when the registration completes. */
  lemma SuccessExactlyWhenCompleted(ports: Ports, isWmRequired: bool)
    ensures var r := RegistrationResponse(ports, isWmRequired);
      (r.Response? && r.payload.message == SuccessMsg) <==> RegistrationCompletes(ports, isWmRequired)
    ensures var r := RegistrationResponse(ports, isWmRequired);
      r.Response? ==> r.apiStatusCode == 200 && r.payload.accountStatus == SuccessStatus
  {
  }

  /**
   * An exception in the branch (a throwing transformer or CRM call, missing
   * transformed content or new customer id) reaches the outer catch: an
   * internal error, no membership, and a delete-user only if rollbackRequired
   * was set, then with the create-user reply's `data` rendered as the id.
   */
  lemma OuterCatchCompensation(req: RegistrationRequest, ports: Ports, isWmRequired: bool, isThirdParty: bool)
    requires ReachesBranch(ports, isWmRequired)
    requires !BranchRejected(ports, IsCreatePath(ports.search.value)) && !BranchCompletes(ports, IsCreatePath(ports.search.value))
    ensures RegistrationResponse(ports, isWmRequired) == AuthenticationError(InternalServerErrorMsg)
    ensures var t := RegistrationTrace(req, ports, isWmRequired, isThirdParty);
      && Count(t, MembershipKind) == 0
      && (RollbackSet(ports, isWmRequired) ==>
            Count(t, DeleteUserKind) == 1
            && t[|t| - 1] == DeleteUserInSingleProfile(OuterCatchCustomerId(ports, isWmRequired),
                                                       HeldToken(ports, isWmRequired), req.brandName))
      && (!RollbackSet(ports, isWmRequired) ==> Count(t, DeleteUserKind) == 0)
  {
    TraceCounts(req, ports, isWmRequired, isThirdParty);
  }

  // ---------------------------------------------------------------------------
  // Every run
  // ---------------------------------------------------------------------------

  /**
   * Every run issues one search, at most one create-user, at most one
   * delete-user, and never both a delete-user and a create-membership;
   * the search comes first, and a get-profile comes right after the
   * create-user that precedes it.
   */
  lemma AtMostOneCreateAndDelete(req: RegistrationRequest, ports: Ports, isWmRequired: bool, isThirdParty: bool)
    ensures var t := RegistrationTrace(req, ports, isWmRequired, isThirdParty);
      && Count(t, SearchKind) == 1 && t[0] == SearchUserInCrm
      && Count(t, CreateUserKind) <= 1
      && Count(t, GetProfileKind) <= Count(t, CreateUserKind)
      && (Count(t, GetProfileKind) == 1 ==>
            |t| >= 3 && t[1].CreateUserInSingleProfile? && t[2].GetProfileDetailsFromSingleProfile?)
      && Count(t, DeleteUserKind) <= 1
      && Count(t, DeleteUserKind) + Count(t, MembershipKind) <= 1
  {
    TraceCounts(req, ports, isWmRequired, isThirdParty);
    var t := RegistrationTrace(req, ports, isWmRequired, isThirdParty);
    RunStartsWithSearch(req, ports, isWmRequired, isThirdParty);
    if Count(t, GetProfileKind) == 1 {
      RunPrefix(req, ports, isWmRequired, isThirdParty);
    }
  }

  /**
   * With the identity system taking part, a delete-user is issued only for a
   * user create-user actually produced: the create-user is the second call,
   * the delete-user the last, with the token of the created user.
   */
  lemma CompensationFollowsCreation(req: RegistrationRequest, ports: Ports, isThirdParty: bool)
    ensures var t := RegistrationTrace(req, ports, true, isThirdParty);
      Count(t, DeleteUserKind) == 1 ==>
        && InSegment(ports) && UserCreated(ports) && Count(t, CreateUserKind) == 1
        && |t| >= 3 && t[1].CreateUserInSingleProfile?
        && t[|t| - 1].DeleteUserInSingleProfile?
        && t[|t| - 1].token == ports.createUser.value.authToken.value
  {
    TraceCounts(req, ports, true, isThirdParty);
    var t := RegistrationTrace(req, ports, true, isThirdParty);
    if Count(t, DeleteUserKind) == 1 {
      RunPrefix(req, ports, true, isThirdParty);
      var search := ports.search.value;
      var userType := UserTypeOf(search);
      var (lastname, title) := SpDetails(search);
      if !SegmentSucceeds(ports, true, userType) {
        SegmentCompensation(req, ports, true, isThirdParty, userType, lastname, title);
        var segment := SegmentTrace(req, ports, true, isThirdParty, userType, lastname, title);
        assert t == [SearchUserInCrm] + segment;
        assert t[|t| - 1] == segment[|segment| - 1];
      } else if BranchRejected(ports, IsCreatePath(search)) {
        BranchFailureCompensates(req, ports, true, isThirdParty);
      } else {
        OuterCatchCompensation(req, ports, true, isThirdParty);
      }
    }
  }

  /** Every run starts with the CRM search. */
  lemma RunStartsWithSearch(req: RegistrationRequest, ports: Ports, isWmRequired: bool, isThirdParty: bool)
    ensures var t := RegistrationTrace(req, ports, isWmRequired, isThirdParty);
      |t| >= 1 && t[0] == SearchUserInCrm
  {
  }

  /**
   * With the identity system taking part and a user created, the run goes
   * search, create-user, get-profile before anything else.
   */
  lemma RunPrefix(req: RegistrationRequest, ports: Ports, isWmRequired: bool, isThirdParty: bool)
    requires InSegment(ports) && isWmRequired && UserCreated(ports)
    ensures var t := RegistrationTrace(req, ports, isWmRequired, isThirdParty);
      |t| >= 3 && t[1].CreateUserInSingleProfile? && t[2].GetProfileDetailsFromSingleProfile?
  {
  }

  /** The branch only appends to the calls made before it. */
  lemma BranchExtends(req: RegistrationRequest, ports: Ports, isWmRequired: bool, before: seq<Call>)
    requires ReachesBranch(ports, isWmRequired)
    ensures var b := BranchTrace(req, ports, isWmRequired, before);
      |b| > |before| && b[..|before|] == before
  {
  }

  /**
   * With the identity system kept out, nothing is created, fetched or given
   * an address in it; only the ungated delete-user of a failed branch and the
   * final create-membership still reach it, both with an empty id and token.
   */
  lemma PolicyOffIdentityCalls(req: RegistrationRequest, ports: Ports, isThirdParty: bool)
    ensures var t := RegistrationTrace(req, ports, false, isThirdParty);
      && Count(t, CreateUserKind) == 0 && Count(t, GetProfileKind) == 0 && Count(t, AddressKind) == 0
      && (Count(t, DeleteUserKind) == 1 <==> ReachesBranch(ports, false) && BranchRejected(ports, IsCreatePath(ports.search.value)))
      && (Count(t, DeleteUserKind) == 1 ==> t[|t| - 1] == DeleteUserInSingleProfile("", "", req.brandName))
      && (Count(t, MembershipKind) == 1 ==> t[|t| - 1] == CreateSingleProfileMembership("", "", req.brandName, req.rewardsOptIn))
  {
    TraceCounts(req, ports, false, isThirdParty);
    var t := RegistrationTrace(req, ports, false, isThirdParty);
    if ReachesBranch(ports, false) && BranchRejected(ports, IsCreatePath(ports.search.value)) {
      BranchFailureCompensates(req, ports, false, isThirdParty);
    }
    if RegistrationCompletes(ports, false) {
      SuccessfulRegistration(req, ports, false, isThirdParty);
    }
  }

  /**
   * A Guest is never rolled back by the segment or the outer catch; the one
   * delete-user a Guest run can see is the ungated one of a failed branch.
   */
  lemma GuestCompensation(req: RegistrationRequest, ports: Ports, isWmRequired: bool, isThirdParty: bool)
    requires SearchSucceeded(ports) && UserTypeOf(ports.search.value) == "Guest"
    ensures var t := RegistrationTrace(req, ports, isWmRequired, isThirdParty);
      Count(t, DeleteUserKind) == 1 <==>
        ReachesBranch(ports, isWmRequired) && BranchRejected(ports, IsCreatePath(ports.search.value))
  {
    TraceCounts(req, ports, isWmRequired, isThirdParty);
  }

  /** The delete-user of a run, when there is one, is its last call. */
  lemma CompensationIsLast(req: RegistrationRequest, ports: Ports, isWmRequired: bool, isThirdParty: bool)
    ensures var t := RegistrationTrace(req, ports, isWmRequired, isThirdParty);
      Count(t, DeleteUserKind) == 1 ==> t[|t| - 1].DeleteUserInSingleProfile?
  {
    TraceCounts(req, ports, isWmRequired, isThirdParty);
    var t := RegistrationTrace(req, ports, isWmRequired, isThirdParty);
    if Count(t, DeleteUserKind) == 1 {
      var search := ports.search.value;
      var userType := UserTypeOf(search);
      var (lastname, title) := SpDetails(search);
      if !SegmentSucceeds(ports, isWmRequired, userType) {
        SegmentCompensation(req, ports, isWmRequired, isThirdParty, userType, lastname, title);
      } else if BranchRejected(ports, IsCreatePath(search)) {
        BranchFailureCompensates(req, ports, isWmRequired, isThirdParty);
      } else {
        OuterCatchCompensation(req, ports, isWmRequired, isThirdParty);
      }
    }
  }
}
