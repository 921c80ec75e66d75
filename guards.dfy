/**
 * The ordered checks each endpoint makes before anything is persisted, and
 * the permission rule each one applies. Look-ups and the policy engine are
 * reduced to the booleans they produce.
 */
module Guards {

  /** What an endpoint answers: a JSON fail or success or error envelope, or nothing (a null return). */
  datatype Response = Fail(message: string) | Succeed(kind: string) | Error(message: string) | NoResponse

  /** Proceed: every check passed. Stop: answer with the response. Crash: a call on a null inquiry. */
  datatype Verdict = Proceed | Stop(response: Response) | Crash

  /** The results of the look-ups and of the policy checks for one request. */
  datatype Lookups = Lookups(
    submitterFound: bool,   // getSubmitterById is not null
    gradeableFound: bool,   // tryGetGradeable is not false
    inquiryOpen: bool,      // isGradeInquiryOpen
    gradedFound: bool,      // tryGetGradedGradeable is not false
    hasInquiry: bool,       // hasGradeInquiry
    isMember: bool,         // the graded gradeable's submitter has the user
    canInquire: bool)       // canI("grading.electronic.grade_inquiry")

  /** Creating an inquiry, and changing its status: a submitter, or staff the policy allows. */
  predicate CreatePermitted(lk: Lookups, accessGrading: bool)
  {
    lk.isMember || (lk.canInquire && accessGrading)
  }

  /** Posting a reply: a submitter, or anyone the policy allows. */
  predicate ReplyPermitted(lk: Lookups)
  {
    lk.isMember || lk.canInquire
  }

  /** The reply rule is strictly weaker than the creation rule. */
  lemma ReplyRuleIsWeaker(lk: Lookups, accessGrading: bool)
    ensures CreatePermitted(lk, accessGrading) ==> ReplyPermitted(lk)
    ensures !lk.isMember && lk.canInquire && !accessGrading ==> ReplyPermitted(lk) && !CreatePermitted(lk, accessGrading)
  {
  }

  /** requestGradeInquiry: submitter, gradeable, inquiries open, graded gradeable, then permission. */
  function RequestGuard(lk: Lookups, accessGrading: bool, gradeableId: string): (v: Verdict)
    ensures v.Proceed? <==>
      lk.submitterFound && lk.gradeableFound && lk.inquiryOpen && lk.gradedFound && CreatePermitted(lk, accessGrading)
    ensures !v.Crash?
    ensures v.Stop? ==> v.response.Fail?
  {
    if !lk.submitterFound then Stop(Fail("Failed to get submitter"))
    else if !lk.gradeableFound then Stop(Fail("Could not find gradeable associated with " + gradeableId))
    else if !lk.inquiryOpen then Stop(Fail("Grade inquiries are not enabled for this gradeable"))
    else if !lk.gradedFound then Stop(Fail("No graded gradeable found for submitter"))
    else if !CreatePermitted(lk, accessGrading) then Stop(Fail("Insufficient permissions to create grade inquiry"))
    else Proceed
  }

  /**
   * makeGradeInquiryPost: submitter, gradeable and graded gradeable (both
   * answered with nothing), an existing inquiry, permission, then the
   * inquiry of this component.
   */
  function PostGuard(lk: Lookups, inquiryFound: bool): (v: Verdict)
    ensures v.Proceed? <==>
      lk.submitterFound && lk.gradeableFound && lk.gradedFound && lk.hasInquiry && ReplyPermitted(lk) && inquiryFound
    ensures !v.Crash?
    ensures v == Stop(NoResponse) <==> lk.submitterFound && !(lk.gradeableFound && lk.gradedFound)
    ensures v.Stop? && v.response != NoResponse ==> v.response.Fail?
  {
    if !lk.submitterFound then Stop(Fail("Failed to get submitter"))
    else if !lk.gradeableFound then Stop(NoResponse)
    else if !lk.gradedFound then Stop(NoResponse)
    else if !lk.hasInquiry then Stop(Fail("Submitter has not made a grade inquiry"))
    else if !ReplyPermitted(lk) then Stop(Fail("Insufficient permissions to make grade inquiry post"))
    else if !inquiryFound then Stop(Fail("Cannot find grade inquiry"))
    else Proceed
  }

  /**
   * changeGradeInquiryStatus as written: gradeable and graded gradeable
   * (answered with nothing), an existing inquiry, submitter, permission; a
   * missing inquiry for the component builds a failure but does not return
   * it, so the status read that follows is a call on null.
   */
  function ToggleGuardAsWritten(lk: Lookups, accessGrading: bool, inquiryFound: bool): (v: Verdict)
    ensures v.Crash? <==>
      lk.gradeableFound && lk.gradedFound && lk.hasInquiry && lk.submitterFound &&
      CreatePermitted(lk, accessGrading) && !inquiryFound
  {
    if !lk.gradeableFound then Stop(NoResponse)
    else if !lk.gradedFound then Stop(NoResponse)
    else if !lk.hasInquiry then Stop(Fail("Submitter has not made a grade inquiry"))
    else if !lk.submitterFound then Stop(Fail("Failed to get submitter"))
    else if !CreatePermitted(lk, accessGrading) then Stop(Fail("Insufficient permissions to change grade inquiry status"))
    else if !inquiryFound then Crash
    else Proceed
  }

  /** changeGradeInquiryStatus with the missing-inquiry failure returned, as evidently intended. */
  function ToggleGuard(lk: Lookups, accessGrading: bool, inquiryFound: bool): (v: Verdict)
    ensures !v.Crash?
    ensures v.Proceed? <==>
      lk.gradeableFound && lk.gradedFound && lk.hasInquiry && lk.submitterFound &&
      CreatePermitted(lk, accessGrading) && inquiryFound
    ensures v == Stop(NoResponse) <==> !(lk.gradeableFound && lk.gradedFound)
    ensures v.Stop? && v.response != NoResponse ==> v.response.Fail?
  {
    if !lk.gradeableFound then Stop(NoResponse)
    else if !lk.gradedFound then Stop(NoResponse)
    else if !lk.hasInquiry then Stop(Fail("Submitter has not made a grade inquiry"))
    else if !lk.submitterFound then Stop(Fail("Failed to get submitter"))
    else if !CreatePermitted(lk, accessGrading) then Stop(Fail("Insufficient permissions to change grade inquiry status"))
    else if !inquiryFound then Stop(Fail("Cannot find grade inquiry"))
    else Proceed
  }

  /** The as-written chain crashes on a request whose inquiry for the component is missing. */
  lemma MissingInquiryCrashesAsWritten()
    ensures ToggleGuardAsWritten(Lookups(true, true, true, true, true, true, false), false, false) == Crash
  {
  }

  /** The corrected chain agrees with the as-written one wherever that one does not crash. */
  lemma ToggleGuardCorrectsOnlyTheCrash(lk: Lookups, accessGrading: bool, inquiryFound: bool)
    ensures ToggleGuardAsWritten(lk, accessGrading, inquiryFound).Crash? ==>
      ToggleGuard(lk, accessGrading, inquiryFound) == Stop(Fail("Cannot find grade inquiry"))
    ensures !ToggleGuardAsWritten(lk, accessGrading, inquiryFound).Crash? ==>
      ToggleGuard(lk, accessGrading, inquiryFound) == ToggleGuardAsWritten(lk, accessGrading, inquiryFound)
  {
  }

  /**
   * Permission is consulted only after the look-ups: when one of them fails,
   * the verdict is the same whatever the membership and policy answers.
   */
  lemma PermissionCheckedAfterLookups(lk: Lookups, other: Lookups, accessGrading: bool, otherAccess: bool,
                                      gradeableId: string, inquiryFound: bool)
    requires lk.submitterFound == other.submitterFound && lk.gradeableFound == other.gradeableFound
    requires lk.inquiryOpen == other.inquiryOpen && lk.gradedFound == other.gradedFound
    requires lk.hasInquiry == other.hasInquiry
    ensures !(lk.submitterFound && lk.gradeableFound && lk.inquiryOpen && lk.gradedFound) ==>
      RequestGuard(lk, accessGrading, gradeableId) == RequestGuard(other, otherAccess, gradeableId)
    ensures !(lk.submitterFound && lk.gradeableFound && lk.gradedFound && lk.hasInquiry) ==>
      PostGuard(lk, inquiryFound) == PostGuard(other, inquiryFound)
    ensures !(lk.submitterFound && lk.gradeableFound && lk.gradedFound && lk.hasInquiry) ==>
      ToggleGuard(lk, accessGrading, inquiryFound) == ToggleGuard(other, otherAccess, inquiryFound)
  {
  }

  // ---------------------------------------------------------------------------
  // Order of the checks: each chain answers with the stop of its first failing check
  // ---------------------------------------------------------------------------

  /** Check `i` is the first one that fails: every earlier check passed. */
  predicate FirstFailureAt(checks: seq<bool>, i: nat)
  {
    i < |checks| && !checks[i] && forall j :: 0 <= j < i ==> checks[j]
  }

  /** requestGradeInquiry's checks, in the order of lines 30-55. */
  function RequestChecks(lk: Lookups, accessGrading: bool): seq<bool>
  {
    [lk.submitterFound, lk.gradeableFound, lk.inquiryOpen, lk.gradedFound, CreatePermitted(lk, accessGrading)]
  }

  /** What each of requestGradeInquiry's checks answers when it fails. */
  function RequestStops(gradeableId: string): seq<Verdict>
  {
    [Stop(Fail("Failed to get submitter")),
     Stop(Fail("Could not find gradeable associated with " + gradeableId)),
     Stop(Fail("Grade inquiries are not enabled for this gradeable")),
     Stop(Fail("No graded gradeable found for submitter")),
     Stop(Fail("Insufficient permissions to create grade inquiry"))]
  }

  /** makeGradeInquiryPost's checks, in the order of lines 87-124. */
  function PostChecks(lk: Lookups, inquiryFound: bool): seq<bool>
  {
    [lk.submitterFound, lk.gradeableFound, lk.gradedFound, lk.hasInquiry, ReplyPermitted(lk), inquiryFound]
  }

  function PostStops(): seq<Verdict>
  {
    [Stop(Fail("Failed to get submitter")),
     Stop(NoResponse),
     Stop(NoResponse),
     Stop(Fail("Submitter has not made a grade inquiry")),
     Stop(Fail("Insufficient permissions to make grade inquiry post")),
     Stop(Fail("Cannot find grade inquiry"))]
  }

  /** changeGradeInquiryStatus's checks, in the order of lines 221-248. */
  function ToggleChecks(lk: Lookups, accessGrading: bool, inquiryFound: bool): seq<bool>
  {
    [lk.gradeableFound, lk.gradedFound, lk.hasInquiry, lk.submitterFound, CreatePermitted(lk, accessGrading), inquiryFound]
  }

  /** The corrected toggle chain's stops; as written, the last one is a crash instead. */
  function ToggleStops(): seq<Verdict>
  {
    [Stop(NoResponse),
     Stop(NoResponse),
     Stop(Fail("Submitter has not made a grade inquiry")),
     Stop(Fail("Failed to get submitter")),
     Stop(Fail("Insufficient permissions to change grade inquiry status")),
     Stop(Fail("Cannot find grade inquiry"))]
  }

  /** requestGradeInquiry answers with the stop of its first failing check. */
  lemma RequestGuardOrder(lk: Lookups, accessGrading: bool, gradeableId: string, i: nat)
    requires FirstFailureAt(RequestChecks(lk, accessGrading), i)
    ensures RequestGuard(lk, accessGrading, gradeableId) == RequestStops(gradeableId)[i]
  {
    EarlierChecksPass(RequestChecks(lk, accessGrading), i);
  }

  /** makeGradeInquiryPost answers with the stop of its first failing check. */
  lemma PostGuardOrder(lk: Lookups, inquiryFound: bool, i: nat)
    requires FirstFailureAt(PostChecks(lk, inquiryFound), i)
    ensures PostGuard(lk, inquiryFound) == PostStops()[i]
  {
    EarlierChecksPass(PostChecks(lk, inquiryFound), i);
  }

  /** Both toggle chains answer with the stop of their first failing check, except that the last crashes as written. */
  lemma ToggleGuardOrder(lk: Lookups, accessGrading: bool, inquiryFound: bool, i: nat)
    requires FirstFailureAt(ToggleChecks(lk, accessGrading, inquiryFound), i)
    ensures ToggleGuard(lk, accessGrading, inquiryFound) == ToggleStops()[i]
    ensures ToggleGuardAsWritten(lk, accessGrading, inquiryFound) == (if i == 5 then Crash else ToggleStops()[i])
  {
    EarlierChecksPass(ToggleChecks(lk, accessGrading, inquiryFound), i);
  }

  /** Spells out, for the first few positions, that the checks before `i` passed. */
  lemma EarlierChecksPass(checks: seq<bool>, i: nat)
    requires FirstFailureAt(checks, i)
    ensures i > 0 ==> checks[0]
    ensures i > 1 ==> checks[1]
    ensures i > 2 ==> checks[2]
    ensures i > 3 ==> checks[3]
    ensures i > 4 ==> checks[4]
  {
  }
}
