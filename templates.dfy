/**
 * The fixed subject/body templates of grade-inquiry notifications, keyed by
 * event type and by whether the acting user has grading access.
 */
module Templates {
  import opened Basics

  datatype EventKind = New | Reply | Resolve | Reopen

  datatype Template = Template(subject: string, body: string)

  /** The event types the notifier accepts, spelt as the controller passes them. */
  function ParseEventType(t: string): Option<EventKind>
  {
    if t == "new" then Some(New)
    else if t == "reply" then Some(Reply)
    else if t == "resolve" then Some(Resolve)
    else if t == "reopen" then Some(Reopen)
    else None
  }

  function SubjectPrefix(k: EventKind): string
  {
    match k
    case New => "New Grade Inquiry"
    case Reply => "New Grade Inquiry Reply"
    case Resolve => "Grade Inquiry Resolved"
    case Reopen => "Grade Inquiry Reopened"
  }

  /** The body's opening phrase: the only part that depends on whether the actor is staff. */
  function Opening(k: EventKind, staff: bool): string
  {
    match k
    case New =>
      if staff then "An Instructor/TA/Mentor submitted a grade inquiry"
      else "A student has submitted a grade inquiry"
    case Reply =>
      if staff then "An Instructor/TA/Mentor made a post in a grade inquiry"
      else "A student has made a post in a grade inquiry"
    case Resolve =>
      if staff then "An Instructor/TA/Mentor has resolved your grade inquiry"
      else "A student has cancelled a grade inquiry"
    case Reopen =>
      if staff then "An Instructor/TA/Mentor has reopened your grade inquiry"
      else "A student has reopened a grade inquiry"
  }

  /** PHP's `empty` on a string: true of the empty string and of "0". */
  predicate PhpEmpty(s: string)
  {
    s == "" || s == "0"
  }

  /** "<user> writes:\n<content>", the quoted post. */
  function Writes(userId: string, content: string): string
  {
    userId + " writes:\n" + content
  }

  /** The quoted post: always for new and reply, only for non-empty content on resolve and reopen. */
  function IncludedPost(k: EventKind, userId: string, content: string): string
  {
    match k
    case New => Writes(userId, content)
    case Reply => Writes(userId, content)
    case Resolve => if !PhpEmpty(content) then Writes(userId, content) else ""
    case Reopen => if !PhpEmpty(content) then Writes(userId, content) else ""
  }

  /** " and for component, <title>" when the event concerns one component, else nothing. */
  function ComponentString(gcId: Option<int>, componentTitle: string): string
  {
    if gcId.Some? then " and for component, " + componentTitle else ""
  }

  /** ": <title> - <user>", the subject after the event's prefix. */
  function About(title: string, userId: string): string
  {
    ": " + title + " - " + userId
  }

  /** " for gradeable, <title><component string>.\n\n", the body after the opening phrase. */
  function ForGradeable(title: string, componentString: string): string
  {
    " for gradeable, " + title + componentString + ".\n\n"
  }

  /** The part of every body before the quoted post. */
  function BodyHead(k: EventKind, staff: bool, title: string, componentString: string): string
  {
    Opening(k, staff) + ForGradeable(title, componentString)
  }

  /** Subject and body of an event of kind `k`. */
  function Render(k: EventKind, staff: bool, title: string, componentString: string,
                  userId: string, content: string): Template
  {
    Template(SubjectPrefix(k) + About(title, userId),
             BodyHead(k, staff, title, componentString) + IncludedPost(k, userId, content))
  }

  /** Subject and body for an event type given as a string; any other type is an error. */
  function Compose(eventType: string, staff: bool, title: string, componentString: string,
                   userId: string, content: string): (r: Result<Template, string>)
    ensures r.Failure? <==> eventType != "new" && eventType != "reply" && eventType != "resolve" && eventType != "reopen"
    ensures r.Failure? ==> r.error == "Invalid grade inquiry event type: " + eventType
    ensures r.Success? ==> r.value == Render(ParseEventType(eventType).value, staff, title, componentString, userId, content)
  {
    match ParseEventType(eventType)
    case None => Failure("Invalid grade inquiry event type: " + eventType)
    case Some(k) => Success(Render(k, staff, title, componentString, userId, content))
  }

  /** The subject depends on the event kind, title and actor only: not on staff, component or content. */
  lemma SubjectIgnoresStaffComponentAndContent(k: EventKind, staff1: bool, staff2: bool, title: string,
                                               cs1: string, cs2: string, uid: string, c1: string, c2: string)
    ensures Render(k, staff1, title, cs1, uid, c1).subject == Render(k, staff2, title, cs2, uid, c2).subject
  {
  }

  /** Different event kinds give different subjects. */
  lemma {:induction false} SubjectsDistinguishEventKinds(k1: EventKind, k2: EventKind, staff: bool, title: string,
                                                         cs: string, uid: string, content: string)
    requires k1 != k2
    ensures Render(k1, staff, title, cs, uid, content).subject != Render(k2, staff, title, cs, uid, content).subject
  {
    var p1, p2 := SubjectPrefix(k1), SubjectPrefix(k2);
    var rest := About(title, uid);
    assert p1 != p2 by {
      match (k1, k2)
      case (New, _) =>
      case (Reply, _) =>
      case (Resolve, _) =>
      case (Reopen, _) =>
    }
    if |p1| == |p2| {
      // Equal subjects would have equal prefixes of that length.
      TakePrefix(p1, rest);
      TakePrefix(p2, rest);
    }
  }

  /**
   * The staff flag changes only the body's opening phrase: what follows it is
   * the same, and the two bodies differ.
   */
  lemma {:induction false} StaffChangesOnlyOpening(k: EventKind, title: string, cs: string, uid: string, content: string)
    ensures var staffBody := Render(k, true, title, cs, uid, content).body;
      var studentBody := Render(k, false, title, cs, uid, content).body;
      |Opening(k, true)| <= |staffBody| && |Opening(k, false)| <= |studentBody| &&
      staffBody[|Opening(k, true)|..] == studentBody[|Opening(k, false)|..] &&
      staffBody != studentBody
  {
    var rest := ForGradeable(title, cs);
    var quote := IncludedPost(k, uid, content);
    var o1, o2 := Opening(k, true), Opening(k, false);
    Assoc(o1, rest, quote);
    Assoc(o2, rest, quote);
    DropPrefix(o1, rest + quote);
    DropPrefix(o2, rest + quote);
    // The staff phrase is the longer one, so the bodies differ in length.
    assert |o1| != |o2| by {
      match k
      case New =>
      case Reply =>
      case Resolve =>
      case Reopen =>
    }
  }

  /** For new and reply, the content is always appended verbatim after "<user> writes:\n". */
  lemma {:induction false} NewAndReplyAlwaysQuote(k: EventKind, staff: bool, title: string, cs: string, uid: string, content: string)
    requires k == New || k == Reply
    ensures Render(k, staff, title, cs, uid, content).body == Render(k, staff, title, cs, uid, "").body + content
    ensures EndsWithWrites(Render(k, staff, title, cs, uid, content).body, uid, content)
  {
    var head := BodyHead(k, staff, title, cs);
    assert Writes(uid, "") + content == Writes(uid, content);
    Assoc(head, Writes(uid, ""), content);
    DropPrefix(head, Writes(uid, content));
  }

  /**
   * For resolve and reopen, "<user> writes:\n<content>" ends the body exactly
   * when the content is not empty in PHP's sense ("0" counts as empty);
   * otherwise the body is the one an empty content gives.
   */
  lemma {:induction false} ResolveAndReopenQuoteUnlessEmpty(k: EventKind, staff: bool, title: string, cs: string, uid: string, content: string)
    requires k == Resolve || k == Reopen
    ensures var base := Render(k, staff, title, cs, uid, "").body;
      var b := Render(k, staff, title, cs, uid, content).body;
      (PhpEmpty(content) ==> b == base) &&
      (!PhpEmpty(content) ==> b == base + Writes(uid, content))
    ensures PhpEmpty(content) <==> !EndsWithWrites(Render(k, staff, title, cs, uid, content).body, uid, content)
  {
    var head := BodyHead(k, staff, title, cs);
    assert head + "" == head;
    if PhpEmpty(content) {
      HeadEndsWithBlankLine(k, staff, title, cs);
      NotEndsWithWrites(head, uid, content);
    } else {
      DropPrefix(head, Writes(uid, content));
    }
  }

  predicate EndsWithWrites(b: string, uid: string, content: string)
  {
    |Writes(uid, content)| <= |b| && b[|b| - |Writes(uid, content)|..] == Writes(uid, content)
  }

  lemma HeadEndsWithBlankLine(k: EventKind, staff: bool, title: string, cs: string)
    ensures var h := BodyHead(k, staff, title, cs);
      |h| >= 2 && h[|h| - 1] == '\n' && h[|h| - 2] == '\n'
  {
    var o, f := Opening(k, staff), ForGradeable(title, cs);
    var front := " for gradeable, " + title + cs;
    assert f == front + ".\n\n";
    assert f[|f| - 1] == '\n' && f[|f| - 2] == '\n';
    assert (o + f)[|o + f| - 1] == f[|f| - 1];
    assert (o + f)[|o + f| - 2] == f[|f| - 2];
  }

  /** A quote of empty content ends in ":\n", a quote of "0" in "0": neither ends in a blank line. */
  lemma NotEndsWithWrites(h: string, uid: string, content: string)
    requires |h| >= 2 && h[|h| - 1] == '\n' && h[|h| - 2] == '\n'
    requires PhpEmpty(content)
    ensures !EndsWithWrites(h, uid, content)
  {
    var w := Writes(uid, content);
    var lead := uid + " writes:\n";
    assert w == lead + content;
    assert lead[|lead| - 1] == '\n' && lead[|lead| - 2] == ':';
    if |w| <= |h| {
      var suffix := h[|h| - |w|..];
      assert suffix[|w| - 1] == h[|h| - 1];
      assert suffix[|w| - 2] == h[|h| - 2];
      if content == "" {
        assert w == lead;
        assert w[|w| - 2] != suffix[|w| - 2];
      } else {
        assert w[|w| - 1] == '0';
        assert w[|w| - 1] != suffix[|w| - 1];
      }
    }
  }

  lemma DropPrefix(a: string, b: string)
    ensures (a + b)[|a|..] == b
  {
  }

  lemma TakePrefix(a: string, b: string)
    ensures (a + b)[..|a|] == a
  {
  }

  lemma Assoc(a: string, b: string, c: string)
    ensures (a + b) + c == a + (b + c)
  {
  }
}
