/**
 * The three state-changing endpoints of the grade inquiry controller: create
 * an inquiry, post a reply, toggle the status. The query layer's calls, the
 * notifier's delivery and the websocket push are recorded as a sequence of
 * effects in the order the endpoint performs them.
 */
module Controller {
  import opened Basics
  import opened Templates
  import opened Notifier
  import opened InquiryStatus
  import opened Guards

  /** An exception from the query layer: an InvalidArgumentException, or any other. */
  datatype Fault = InvalidArgument(message: string) | Unexpected(message: string)

  /** One call the endpoint makes on the outside world. */
  datatype Effect =
    | InsertInquiry(author: string, content: string, gcId: Option<int>)
    | InsertPost(inquiryId: int, author: string, content: string, gcId: Option<int>)
    | SaveInquiry(inquiryId: int, status: int)
    | Notify(outcome: NotifyOutcome)
    | Push(kind: string)

  /** The form fields: gradeable id (from the route), submitter id, reply text, gc_id. */
  datatype Request = Request(gradeableId: string, submitterId: string, content: string, gcId: int)

  /** The answer to a caught exception: invalid arguments fail, anything else is an error. */
  function FaultResponse(f: Fault): (r: Response)
    ensures f.InvalidArgument? <==> r.Fail?
    ensures r.Fail? || r.Error?
    ensures r.message == f.message
  {
    match f
    case InvalidArgument(m) => Fail(m)
    case Unexpected(m) => Error(m)
  }

  /** A gc_id of 0 means "no component". */
  function ComponentOf(gcId: int): (r: Option<int>)
    ensures r.None? <==> gcId == 0
    ensures r.Some? ==> r.value == gcId
  {
    if gcId == 0 then None else Some(gcId)
  }

  /** The reply text with every carriage return removed. */
  function StripCR(s: string): (r: string)
    ensures |r| <= |s|
    ensures forall i :: 0 <= i < |r| ==> r[i] != '\r'
    ensures (forall i :: 0 <= i < |s| ==> s[i] != '\r') ==> r == s
    ensures r == "" <==> forall i :: 0 <= i < |s| ==> s[i] == '\r'
    ensures |s| == 1 ==> r == (if s[0] == '\r' then "" else s)
  {
    if s == [] then []
    else (if s[0] == '\r' then [] else [s[0]]) + StripCR(s[1..])
  }

  /** Stripping works piecewise: every other character is kept, in order. */
  lemma {:induction false} StripCRAppend(a: string, b: string)
    ensures StripCR(a + b) == StripCR(a) + StripCR(b)
  {
    if a == [] {
      assert a + b == b;
    } else {
      assert (a + b)[0] == a[0];
      assert (a + b)[1..] == a[1..] + b;
      StripCRAppend(a[1..], b);
    }
  }

  /**
   * requestGradeInquiry: after the guard chain, insert the inquiry, notify
   * with event "new", push "open_grade_inquiry". A failed check or a failed
   * insert leaves nothing persisted; an exception inside the notifier is
   * answered like a failed insert, but the inquiry stays inserted.
   */
  method RequestGradeInquiry(req: Request, actor: Actor, course: Course, lk: Lookups, gg: GradedGradeable,
                             componentTitle: string, insertFault: Option<Fault>, notifyFault: Option<Fault>)
    returns (response: Response, effects: seq<Effect>)
    ensures RequestGuard(lk, actor.accessGrading, req.gradeableId).Stop? ==>
      response == RequestGuard(lk, actor.accessGrading, req.gradeableId).response && effects == []
    ensures RequestGuard(lk, actor.accessGrading, req.gradeableId).Proceed? && insertFault.Some? ==>
      response == FaultResponse(insertFault.value) && effects == []
    ensures RequestGuard(lk, actor.accessGrading, req.gradeableId).Proceed? && insertFault.None? && notifyFault.Some? ==>
      response == FaultResponse(notifyFault.value) &&
      effects == [InsertInquiry(actor.id, req.content, ComponentOf(req.gcId))]
    ensures RequestGuard(lk, actor.accessGrading, req.gradeableId).Proceed? && insertFault.None? && notifyFault.None? ==>
      response == Succeed("open_grade_inquiry") &&
      effects == [InsertInquiry(actor.id, req.content, ComponentOf(req.gcId)),
                  Notify(NotifySpec(gg, course, actor, req.content, "new", ComponentOf(req.gcId), componentTitle)),
                  Push("open_grade_inquiry")]
    ensures response == Succeed("open_grade_inquiry") <==>
      RequestGuard(lk, actor.accessGrading, req.gradeableId).Proceed? && insertFault.None? && notifyFault.None?
    ensures effects != [] <==> RequestGuard(lk, actor.accessGrading, req.gradeableId).Proceed? && insertFault.None?
  {
    var gcId := ComponentOf(req.gcId);
    var verdict := RequestGuard(lk, actor.accessGrading, req.gradeableId);
    if verdict.Stop? {
      return verdict.response, [];
    }
    if insertFault.Some? {
      return FaultResponse(insertFault.value), [];
    }
    effects := [InsertInquiry(actor.id, req.content, gcId)];
    if notifyFault.Some? {
      return FaultResponse(notifyFault.value), effects;
    }
    var outcome := NotifyGradeInquiryEvent(gg, course, actor, req.content, "new", gcId, componentTitle);
    effects := effects + [Notify(outcome), Push("open_grade_inquiry")];
    response := Succeed("open_grade_inquiry");
  }

  /**
   * makeGradeInquiryPost: the reply text loses its carriage returns; after the
   * guard chain, insert the post into the component's inquiry, notify with
   * event "reply", push "new_post". An exception inside the notifier is
   * answered like a failed insert, but the post stays inserted.
   */
  method MakeGradeInquiryPost(req: Request, actor: Actor, course: Course, lk: Lookups, gg: GradedGradeable,
                              componentTitle: string, inquiryId: Option<int>,
                              insertFault: Option<Fault>, notifyFault: Option<Fault>)
    returns (response: Response, effects: seq<Effect>)
    ensures PostGuard(lk, inquiryId.Some?).Stop? ==>
      response == PostGuard(lk, inquiryId.Some?).response && effects == []
    ensures PostGuard(lk, inquiryId.Some?).Proceed? && insertFault.Some? ==>
      response == FaultResponse(insertFault.value) && effects == []
    ensures PostGuard(lk, inquiryId.Some?).Proceed? && insertFault.None? && notifyFault.Some? ==>
      response == FaultResponse(notifyFault.value) &&
      effects == [InsertPost(inquiryId.value, actor.id, StripCR(req.content), ComponentOf(req.gcId))]
    ensures PostGuard(lk, inquiryId.Some?).Proceed? && insertFault.None? && notifyFault.None? ==>
      response == Succeed("new_post") &&
      effects == [InsertPost(inquiryId.value, actor.id, StripCR(req.content), ComponentOf(req.gcId)),
                  Notify(NotifySpec(gg, course, actor, StripCR(req.content), "reply", ComponentOf(req.gcId), componentTitle)),
                  Push("new_post")]
    ensures response == Succeed("new_post") <==>
      PostGuard(lk, inquiryId.Some?).Proceed? && insertFault.None? && notifyFault.None?
    ensures effects != [] <==> PostGuard(lk, inquiryId.Some?).Proceed? && insertFault.None?
    ensures forall e :: e in effects && e.InsertPost? ==> '\r' !in e.content
  {
    var content := StripCR(req.content);
    var gcId := ComponentOf(req.gcId);
    var verdict := PostGuard(lk, inquiryId.Some?);
    if verdict.Stop? {
      return verdict.response, [];
    }
    if insertFault.Some? {
      return FaultResponse(insertFault.value), [];
    }
    effects := [InsertPost(inquiryId.value, actor.id, content, gcId)];
    if notifyFault.Some? {
      return FaultResponse(notifyFault.value), effects;
    }
    var outcome := NotifyGradeInquiryEvent(gg, course, actor, content, "reply", gcId, componentTitle);
    effects := effects + [Notify(outcome), Push("new_post")];
    response := Succeed("new_post");
  }

  /**
   * changeGradeInquiryStatus (with the missing-inquiry failure returned): after
   * the guard chain, toggle the status in place, save it, insert the reply text
   * as a post only when it is non-empty, notify with the toggle's event, push
   * "toggle_status". A failed save leaves the in-memory status toggled; an
   * exception inside the notifier leaves the save and the post persisted.
   */
  method ChangeGradeInquiryStatus(req: Request, actor: Actor, course: Course, lk: Lookups, gg: GradedGradeable,
                                  componentTitle: string, inquiry: GradeInquiry?,
                                  saveFault: Option<Fault>, postFault: Option<Fault>, notifyFault: Option<Fault>)
    returns (response: Response, effects: seq<Effect>)
    modifies inquiry
    ensures ToggleGuard(lk, actor.accessGrading, inquiry != null).Stop? ==>
      response == ToggleGuard(lk, actor.accessGrading, inquiry != null).response && effects == [] &&
      (inquiry != null ==> inquiry.status == old(inquiry.status))
    ensures ToggleGuard(lk, actor.accessGrading, inquiry != null).Proceed? ==>
      inquiry != null && inquiry.status == Toggle(old(inquiry.status)).status
    ensures ToggleGuard(lk, actor.accessGrading, inquiry != null).Proceed? && saveFault.Some? ==>
      response == FaultResponse(saveFault.value) && effects == []
    ensures ToggleGuard(lk, actor.accessGrading, inquiry != null).Proceed? && saveFault.None? ==>
      var content := StripCR(req.content);
      var saved := SaveInquiry(inquiry.id, inquiry.status);
      var post := InsertPost(inquiry.id, actor.id, content, ComponentOf(req.gcId));
      var notify := Notify(NotifySpec(gg, course, actor, content, Toggle(old(inquiry.status)).eventType,
                                      ComponentOf(req.gcId), componentTitle));
      var persisted := [saved] + (if content != "" then [post] else []);
      if content != "" && postFault.Some? then
        response == FaultResponse(postFault.value) && effects == [saved]
      else if notifyFault.Some? then
        response == FaultResponse(notifyFault.value) && effects == persisted
      else
        response == Succeed("toggle_status") && effects == persisted + [notify, Push("toggle_status")]
  {
    var content := StripCR(req.content);
    var gcId := ComponentOf(req.gcId);
    var verdict := ToggleGuard(lk, actor.accessGrading, inquiry != null);
    if verdict.Stop? {
      return verdict.response, [];
    }
    var toggled := Toggle(inquiry.status);
    inquiry.SetStatus(toggled.status);
    if saveFault.Some? {
      return FaultResponse(saveFault.value), [];
    }
    effects := [SaveInquiry(inquiry.id, inquiry.status)];
    if content != "" {
      if postFault.Some? {
        return FaultResponse(postFault.value), effects;
      }
      effects := effects + [InsertPost(inquiry.id, actor.id, content, gcId)];
    }
    if notifyFault.Some? {
      return FaultResponse(notifyFault.value), effects;
    }
    var outcome := NotifyGradeInquiryEvent(gg, course, actor, content, toggled.eventType, gcId, componentTitle);
    effects := effects + [Notify(outcome), Push("toggle_status")];
    response := Succeed("toggle_status");
  }

  /** The event types the endpoints pass are all known ones: the notifier never raises for them. */
  lemma EndpointEventsNeverRaise(gg: GradedGradeable, course: Course, actor: Actor, content: string,
                                 gcId: Option<int>, componentTitle: string, status: int)
    ensures !NotifySpec(gg, course, actor, content, "new", gcId, componentTitle).Raised?
    ensures !NotifySpec(gg, course, actor, content, "reply", gcId, componentTitle).Raised?
    ensures !NotifySpec(gg, course, actor, content, Toggle(status).eventType, gcId, componentTitle).Raised?
  {
    assert ParseEventType("new") == Some(New);
    assert ParseEventType("reply") == Some(Reply);
  }

  /**
   * A reply text of "0" is saved as a post on a toggle ("0" is not the empty
   * string) but the resolve/reopen notification does not quote it (PHP's
   * `empty` holds of "0"): the body is the one of an empty reply.
   */
  lemma ZeroReplyIsPostedButNotQuoted(status: int, staff: bool, title: string, cs: string, uid: string)
    ensures StripCR("0") == "0" != ""
    ensures var k := ParseEventType(Toggle(status).eventType);
      k.Some? && Render(k.value, staff, title, cs, uid, "0").body == Render(k.value, staff, title, cs, uid, "").body
  {
    var k := ParseEventType(Toggle(status).eventType).value;
    ResolveAndReopenQuoteUnlessEmpty(k, staff, title, cs, uid, "0");
  }
}
