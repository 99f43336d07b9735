/** Counting the calls of a trace by kind. */
module Trace {
  import opened Ports

  datatype CallKind =
    | SearchKind | CreateUserKind | GetProfileKind | DeleteUserKind | AddressKind
    | MembershipKind | TransformKind | CrmCreateKind | CrmUpdateKind

  function KindOf(c: Call): CallKind
  {
    match c
    case SearchUserInCrm => SearchKind
    case CreateUserInSingleProfile(_, _, _, _, _) => CreateUserKind
    case GetProfileDetailsFromSingleProfile(_, _) => GetProfileKind
    case DeleteUserInSingleProfile(_, _, _) => DeleteUserKind
    case CreateSingleProfileAddress(_, _, _, _) => AddressKind
    case CreateSingleProfileMembership(_, _, _, _) => MembershipKind
    case Transformer(_, _) => TransformKind
    case CreateUserInCrm(_) => CrmCreateKind
    case UpdateUserInCrm(_) => CrmUpdateKind
  }

  /** The number of calls of kind `k` in `calls`. */
  function Count(calls: seq<Call>, k: CallKind): (n: nat)
    ensures n <= |calls|
  {
    if calls == [] then 0
    else (if KindOf(calls[0]) == k then 1 else 0) + Count(calls[1..], k)
  }

  /** Counting distributes over concatenation of traces. */
  lemma {:induction false} CountConcat(a: seq<Call>, b: seq<Call>, k: CallKind)
    ensures Count(a + b, k) == Count(a, k) + Count(b, k)
  {
    if a == [] {
      assert a + b == b;
    } else {
      assert (a + b)[1..] == a[1..] + b;
      CountConcat(a[1..], b, k);
    }
  }

  /** A single call counts once, for its own kind. */
  lemma CountOne(c: Call, k: CallKind)
    ensures Count([c], k) == if KindOf(c) == k then 1 else 0
  {
  }
}
