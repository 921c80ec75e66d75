/**
 * The grade-inquiry event notifier (notifyGradeInquiryEvent): picks the
 * graders to tell, selects a subject/body template by event type, and fans
 * the message out to graders and to the submitting user or team.
 *
 * Notification and Email objects, their metadata URLs and the delivery
 * facility are abstracted into lists of `Message`s, one per recipient.
 */
module Notifier {
  import opened Basics
  import opened Templates

  /** A grader: a user id and whether that user holds full-grading access. */
  datatype Grader = Grader(id: string, fullGrading: bool)

  /** One graded component container: the component it grades and its visible graders. */
  datatype Container = Container(componentId: int, visibleGraders: seq<Grader>)

  /** The TA-graded part of a graded gradeable. */
  datatype TaGrading = TaGrading(graders: seq<Grader>, containers: seq<Container>)

  /** Who submitted: one user, or a team with its member user ids. */
  datatype Submitter = Individual(id: string) | Team(id: string, members: seq<string>)

  /** What the notifier reads of a graded gradeable; `ta` is None without TA grading info. */
  datatype GradedGradeable = GradedGradeable(submitter: Submitter, gradeableTitle: string, ta: Option<TaGrading>)

  /** The acting user: id and whether the user has grading access (is staff). */
  datatype Actor = Actor(id: string, accessGrading: bool)

  /** Course-wide inputs: the roster of all graders and the e-mail switch. */
  datatype Course = Course(allGraders: seq<Grader>, emailEnabled: bool)

  /** The `component` of a message's details: the grading side or the student side. */
  datatype Side = Grading | Student

  /** One notification or e-mail, reduced to its side and its `to_user_id`. */
  datatype Message = Message(side: Side, to: string)

  /**
   * What one event hands to the delivery facility: subject, body, the
   * notification batch and, when e-mail is enabled, the e-mail batch (None:
   * sendEmails is not called).
   */
  datatype Delivery = Delivery(subject: string, body: string, notifications: seq<Message>, emails: Option<seq<Message>>)

  /** Skipped: no TA grading info, nothing happens. Raised: the runtime error for an unknown event type. */
  datatype NotifyOutcome = Skipped | Delivered(delivery: Delivery) | Raised(message: string)

  // ---------------------------------------------------------------------------
  // Recipients
  // ---------------------------------------------------------------------------

  /**
   * The visible graders of the LAST container whose component is `gcId`, or
   * none: the foreach overwrites the graders on every match.
   */
  function ComponentGraders(cs: seq<Container>, gcId: int): seq<Grader>
  {
    if cs == [] then []
    else if cs[|cs| - 1].componentId == gcId then cs[|cs| - 1].visibleGraders
    else ComponentGraders(cs[..|cs| - 1], gcId)
  }

  /** No container of the component: no component graders. */
  lemma {:induction false} ComponentGradersWithoutMatch(cs: seq<Container>, gcId: int)
    requires forall i :: 0 <= i < |cs| ==> cs[i].componentId != gcId
    ensures ComponentGraders(cs, gcId) == []
  {
    if cs != [] {
      ComponentGradersWithoutMatch(cs[..|cs| - 1], gcId);
    }
  }

  /** The last container of the component decides the component graders. */
  lemma {:induction false} ComponentGradersIsLastMatch(cs: seq<Container>, gcId: int, i: nat)
    requires i < |cs| && cs[i].componentId == gcId
    requires forall j :: i < j < |cs| ==> cs[j].componentId != gcId
    ensures ComponentGraders(cs, gcId) == cs[i].visibleGraders
  {
    if i < |cs| - 1 {
      var init := cs[..|cs| - 1];
      assert init[i] == cs[i];
      ComponentGradersIsLastMatch(init, gcId, i);
    }
  }

  /** Non-empty component graders come from a container of the component. */
  lemma {:induction false} ComponentGradersFromMatch(cs: seq<Container>, gcId: int)
    requires ComponentGraders(cs, gcId) != []
    ensures exists i :: 0 <= i < |cs| && cs[i].componentId == gcId && ComponentGraders(cs, gcId) == cs[i].visibleGraders
  {
    var last := |cs| - 1;
    if cs[last].componentId != gcId {
      var init := cs[..last];
      ComponentGradersFromMatch(init, gcId);
      var i :| 0 <= i < |init| && init[i].componentId == gcId && ComponentGraders(init, gcId) == init[i].visibleGraders;
      assert cs[i] == init[i];
    }
  }

  /** The graders to tell: component graders with a component, TA graders without; all graders if that is empty. */
  function SelectGraders(ta: TaGrading, gcId: Option<int>, allGraders: seq<Grader>): (r: seq<Grader>)
    ensures r == [] ==> allGraders == []
    ensures gcId.None? && ta.graders != [] ==> r == ta.graders
    ensures r != allGraders && gcId.Some? ==>
              exists i :: 0 <= i < |ta.containers| && ta.containers[i].componentId == gcId.value &&
                          r == ta.containers[i].visibleGraders
  {
    var chosen := if gcId.Some? then ComponentGraders(ta.containers, gcId.value) else ta.graders;
    if chosen == [] then allGraders
    else if gcId.Some? then
      ComponentGradersFromMatch(ta.containers, gcId.value);
      chosen
    else chosen
  }

  /**
   * Without a component and without TA graders, or with a component whose last
   * container has no visible graders, the whole roster is told.
   */
  lemma FallsBackToAllGraders(ta: TaGrading, gcId: Option<int>, allGraders: seq<Grader>, i: nat)
    requires gcId.None? ==> ta.graders == []
    requires gcId.Some? ==>
      i < |ta.containers| && ta.containers[i].componentId == gcId.value && ta.containers[i].visibleGraders == [] &&
      forall j :: i < j < |ta.containers| ==> ta.containers[j].componentId != gcId.value
    ensures SelectGraders(ta, gcId, allGraders) == allGraders
  {
    if gcId.Some? {
      ComponentGradersIsLastMatch(ta.containers, gcId.value, i);
    }
  }

  /** With a component that no container grades, the whole roster is told. */
  lemma FallsBackWithoutMatch(ta: TaGrading, gcId: int, allGraders: seq<Grader>)
    requires forall j :: 0 <= j < |ta.containers| ==> ta.containers[j].componentId != gcId
    ensures SelectGraders(ta, Some(gcId), allGraders) == allGraders
  {
    ComponentGradersWithoutMatch(ta.containers, gcId);
  }

  /** One grading-side message per grader with full-grading access, in roster order. */
  function GraderEmails(gs: seq<Grader>): (r: seq<Message>)
    ensures |r| <= |gs|
    ensures forall m :: m in r ==> m.side == Grading
    ensures |gs| == 1 ==> r == (if gs[0].fullGrading then [Message(Grading, gs[0].id)] else [])
  {
    if gs == [] then []
    else
      var last := gs[|gs| - 1];
      GraderEmails(gs[..|gs| - 1]) + (if last.fullGrading then [Message(Grading, last.id)] else [])
  }

  /** Messages for a roster are those for its parts, in roster order. */
  lemma {:induction false} GraderEmailsAppend(a: seq<Grader>, b: seq<Grader>)
    ensures GraderEmails(a + b) == GraderEmails(a) + GraderEmails(b)
  {
    if b == [] {
      assert a + b == a;
    } else {
      var init := b[..|b| - 1];
      assert (a + b)[..|a + b| - 1] == a + init;
      assert (a + b)[|a + b| - 1] == b[|b| - 1];
      GraderEmailsAppend(a, init);
    }
  }

  lemma {:induction false} GraderEmailsAreFullGraders(gs: seq<Grader>)
    ensures forall m :: m in GraderEmails(gs) ==> exists g :: g in gs && g.fullGrading && m == Message(Grading, g.id)
    ensures forall g :: g in gs && g.fullGrading ==> Message(Grading, g.id) in GraderEmails(gs)
  {
    if gs != [] {
      var init := gs[..|gs| - 1];
      GraderEmailsAreFullGraders(init);
      assert gs == init + [gs[|gs| - 1]];
      forall g | g in gs && g.fullGrading ensures Message(Grading, g.id) in GraderEmails(gs) {
        if g != gs[|gs| - 1] { assert g in init; }
      }
    }
  }

  /** One student-side message per team member, in member order. */
  function TeamMessages(members: seq<string>): (r: seq<Message>)
    ensures |r| == |members|
    ensures forall i :: 0 <= i < |r| ==> r[i] == Message(Student, members[i])
  {
    if members == [] then []
    else TeamMessages(members[..|members| - 1]) + [Message(Student, members[|members| - 1])]
  }

  /** Submitter fan-out: every member of a team, or the single submitting user. */
  function SubmitterMessages(s: Submitter): (r: seq<Message>)
    ensures s.Individual? ==> r == [Message(Student, s.id)]
    ensures s.Team? ==> |r| == |s.members| && forall i :: 0 <= i < |r| ==> r[i].to == s.members[i]
    ensures forall m :: m in r ==> m.side == Student
  {
    match s
    case Individual(id) => [Message(Student, id)]
    case Team(_, members) => TeamMessages(members)
  }

  // ---------------------------------------------------------------------------
  // The notifier
  // ---------------------------------------------------------------------------

  /**
   * What one event delivers. The notification batch holds the submitter side
   * only; the e-mail batch holds full-grading graders, then the submitter side.
   */
  function NotifySpec(gg: GradedGradeable, course: Course, actor: Actor, content: string,
                      eventType: string, gcId: Option<int>, componentTitle: string): (r: NotifyOutcome)
    ensures gg.ta.None? <==> r.Skipped?
    ensures r.Raised? <==> gg.ta.Some? && ParseEventType(eventType).None?
    ensures r.Delivered? ==> r.delivery.emails.Some? == course.emailEnabled
  {
    if gg.ta.None? then Skipped
    else
      var componentString := ComponentString(gcId, componentTitle);
      match Compose(eventType, actor.accessGrading, gg.gradeableTitle, componentString, actor.id, content)
      case Failure(e) => Raised(e)
      case Success(t) =>
        var graders := SelectGraders(gg.ta.value, gcId, course.allGraders);
        var students := SubmitterMessages(gg.submitter);
        Delivered(Delivery(t.subject, t.body, students,
                           if course.emailEnabled then Some(GraderEmails(graders) + students) else None))
  }

  /** NotifySpec once the template is known. */
  lemma NotifySpecDelivers(gg: GradedGradeable, course: Course, actor: Actor, content: string,
                           eventType: string, gcId: Option<int>, componentTitle: string)
    requires gg.ta.Some?
    requires Compose(eventType, actor.accessGrading, gg.gradeableTitle, ComponentString(gcId, componentTitle), actor.id, content).Success?
    ensures var t := Compose(eventType, actor.accessGrading, gg.gradeableTitle, ComponentString(gcId, componentTitle), actor.id, content).value;
      var graders := SelectGraders(gg.ta.value, gcId, course.allGraders);
      var students := SubmitterMessages(gg.submitter);
      NotifySpec(gg, course, actor, content, eventType, gcId, componentTitle)
        == Delivered(Delivery(t.subject, t.body, students,
                              if course.emailEnabled then Some(GraderEmails(graders) + students) else None))
  {
  }

  /** The foreach over component containers: every container of `gcId` overwrites the graders. */
  method FindComponentGraders(containers: seq<Container>, gcId: int) returns (graders: seq<Grader>)
    ensures graders == ComponentGraders(containers, gcId)
  {
    graders := [];
    var i := 0;
    while i < |containers|
      invariant 0 <= i <= |containers|
      invariant graders == ComponentGraders(containers[..i], gcId)
    {
      if containers[i].componentId == gcId {
        graders := containers[i].visibleGraders;
      }
      assert containers[..i + 1][..i] == containers[..i];
      i := i + 1;
    }
    assert containers[..i] == containers;
  }

  /** The loop over graders: one notification and one e-mail for each grader with full-grading access. */
  method GraderFanOut(graders: seq<Grader>) returns (notifications: seq<Message>, emails: seq<Message>)
    ensures emails == GraderEmails(graders)
    ensures notifications == emails
  {
    notifications, emails := [], [];
    for j := 0 to |graders|
      invariant emails == GraderEmails(graders[..j])
      invariant notifications == emails
    {
      assert graders[..j + 1][..j] == graders[..j];
      if graders[j].fullGrading {
        notifications := notifications + [Message(Grading, graders[j].id)];
        emails := emails + [Message(Grading, graders[j].id)];
      }
    }
    assert graders[..|graders|] == graders;
  }

  /** The submitter loop: appends one student-side notification and e-mail per recipient. */
  method SubmitterFanOut(s: Submitter, notifications0: seq<Message>, emails0: seq<Message>)
    returns (notifications: seq<Message>, emails: seq<Message>)
    ensures notifications == notifications0 + SubmitterMessages(s)
    ensures emails == emails0 + SubmitterMessages(s)
  {
    notifications, emails := notifications0, emails0;
    match s {
      case Team(_, members) =>
        for j := 0 to |members|
          invariant notifications == notifications0 + TeamMessages(members[..j])
          invariant emails == emails0 + TeamMessages(members[..j])
        {
          assert members[..j + 1][..j] == members[..j];
          notifications := notifications + [Message(Student, members[j])];
          emails := emails + [Message(Student, members[j])];
        }
        assert members[..|members|] == members;
      case Individual(id) =>
        notifications := notifications + [Message(Student, id)];
        emails := emails + [Message(Student, id)];
    }
  }

  /**
   * notifyGradeInquiryEvent as the source runs it: graders of the component
   * (or TA graders), falling back to all graders; the template; grader
   * notifications and e-mails; then the notification list is reset before
   * the submitter side is appended.
   */
  method NotifyGradeInquiryEvent(gg: GradedGradeable, course: Course, actor: Actor, content: string,
                                 eventType: string, gcId: Option<int>, componentTitle: string)
    returns (outcome: NotifyOutcome)
    ensures outcome == NotifySpec(gg, course, actor, content, eventType, gcId, componentTitle)
  {
    outcome := Skipped;
    if gg.ta.Some? {
      var ta := gg.ta.value;
      var componentString := "";
      var graders: seq<Grader> := [];
      if gcId.Some? {
        componentString := " and for component, " + componentTitle;
        graders := FindComponentGraders(ta.containers, gcId.value);
      } else {
        graders := ta.graders;
      }
      assert componentString == ComponentString(gcId, componentTitle);

      var composed := Compose(eventType, actor.accessGrading, gg.gradeableTitle, componentString, actor.id, content);
      if composed.Failure? {
        outcome := Raised(composed.error);
        return;
      }

      if graders == [] {
        graders := course.allGraders;
      }
      assert graders == SelectGraders(ta, gcId, course.allGraders);
      var notifications, emails := GraderFanOut(graders);
      notifications := [];
      notifications, emails := SubmitterFanOut(gg.submitter, notifications, emails);
      assert [] + SubmitterMessages(gg.submitter) == SubmitterMessages(gg.submitter);
      NotifySpecDelivers(gg, course, actor, content, eventType, gcId, componentTitle);
      outcome := Delivered(Delivery(composed.value.subject, composed.value.body, notifications,
                                    if course.emailEnabled then Some(emails) else None));
    }
  }

  // ---------------------------------------------------------------------------
  // Properties of the delivery plan
  // ---------------------------------------------------------------------------

  /**
   * Grader notifications are discarded: the notification batch is exactly the
   * submitter fan-out, even when full-grading graders were selected (they get
   * e-mail only).
   */
  lemma {:induction false} GradersGetNoNotification(gg: GradedGradeable, course: Course, actor: Actor, content: string,
                                                    eventType: string, gcId: Option<int>, componentTitle: string)
    requires NotifySpec(gg, course, actor, content, eventType, gcId, componentTitle).Delivered?
    ensures var d := NotifySpec(gg, course, actor, content, eventType, gcId, componentTitle).delivery;
      d.notifications == SubmitterMessages(gg.submitter) &&
      (forall m :: m in d.notifications ==> m.side == Student) &&
      forall g :: g in SelectGraders(gg.ta.value, gcId, course.allGraders) ==> Message(Grading, g.id) !in d.notifications
  {
  }

  /**
   * E-mail goes to exactly the selected graders with full-grading access, and
   * after them to every submitter-side recipient.
   */
  lemma {:induction false} EmailRecipients(gg: GradedGradeable, course: Course, actor: Actor, content: string,
                                           eventType: string, gcId: Option<int>, componentTitle: string)
    requires NotifySpec(gg, course, actor, content, eventType, gcId, componentTitle).Delivered?
    requires course.emailEnabled
    ensures var d := NotifySpec(gg, course, actor, content, eventType, gcId, componentTitle).delivery;
      var selected := SelectGraders(gg.ta.value, gcId, course.allGraders);
      d.emails.Some? &&
      (forall m :: m in d.emails.value && m.side == Grading ==>
         exists g :: g in selected && g.fullGrading && g.id == m.to) &&
      (forall g :: g in selected && g.fullGrading ==> Message(Grading, g.id) in d.emails.value) &&
      (forall m :: m in SubmitterMessages(gg.submitter) ==> m in d.emails.value) &&
      (forall m :: m in d.emails.value && m.side == Student ==> m in SubmitterMessages(gg.submitter)) &&
      (forall i, j ::
         0 <= i < |d.emails.value| && 0 <= j < |d.emails.value| &&
         d.emails.value[i].side == Grading && d.emails.value[j].side == Student
         ==> i < j) &&
      |d.emails.value| == |GraderEmails(selected)| + |SubmitterMessages(gg.submitter)|
  {
    var selected := SelectGraders(gg.ta.value, gcId, course.allGraders);
    GraderEmailsAreFullGraders(selected);
    var ge, st := GraderEmails(selected), SubmitterMessages(gg.submitter);
    var e := ge + st;
    // Positions before |ge| hold grader messages, the rest submitter ones.
    forall k | 0 <= k < |ge| ensures e[k].side == Grading {
      assert e[k] == ge[k];
    }
    forall k | |ge| <= k < |e| ensures e[k].side == Student {
      assert e[k] == st[k - |ge|];
    }
  }

  /** A team gets one notification (and one e-mail) per member; an individual exactly one. */
  lemma {:induction false} SubmitterFanOutCounts(gg: GradedGradeable, course: Course, actor: Actor, content: string,
                                           eventType: string, gcId: Option<int>, componentTitle: string)
    requires NotifySpec(gg, course, actor, content, eventType, gcId, componentTitle).Delivered?
    ensures var d := NotifySpec(gg, course, actor, content, eventType, gcId, componentTitle).delivery;
      (gg.submitter.Individual? ==> d.notifications == [Message(Student, gg.submitter.id)]) &&
      (gg.submitter.Team? ==>
         |d.notifications| == |gg.submitter.members| &&
         forall i :: 0 <= i < |d.notifications| ==> d.notifications[i] == Message(Student, gg.submitter.members[i]))
  {
    if gg.submitter.Team? {
      assert SubmitterMessages(gg.submitter) == TeamMessages(gg.submitter.members);
    }
  }

  /** With a component whose containers record visible graders, only those graders are e-mailed. */
  lemma {:induction false} ComponentGradersTakePrecedence(gg: GradedGradeable, course: Course, actor: Actor, content: string,
                                                          eventType: string, gcId: int, componentTitle: string, i: nat)
    requires gg.ta.Some? && i < |gg.ta.value.containers|
    requires gg.ta.value.containers[i].componentId == gcId
    requires forall j :: i < j < |gg.ta.value.containers| ==> gg.ta.value.containers[j].componentId != gcId
    requires gg.ta.value.containers[i].visibleGraders != []
    ensures SelectGraders(gg.ta.value, Some(gcId), course.allGraders) == gg.ta.value.containers[i].visibleGraders
  {
    ComponentGradersIsLastMatch(gg.ta.value.containers, gcId, i);
  }
}
