# Grade inquiry controller — a Dafny model

Students use a grade inquiry to ask course staff to review a grade. The
controller `GradeInquiryController` handles three state-changing POST requests:
open an inquiry, post a reply, and toggle the inquiry between open and
resolved. It also builds a notification and e-mail plan for each of these
events. This project models the decision logic of the controller. Its
collaborators become inputs:

- The query layer, the policy engine (`canI`, `accessGrading`,
  `accessFullGrading`) and `hasUser` become booleans and values.
- Each query-layer call becomes an `Effect` in a list.
- Query-layer exceptions become `Fault` inputs.

Modules, one file each:

- `Basics` (basics.dfy): `Option` and `Result`.
- `Templates` (templates.dfy): the subject and body templates, keyed by event type and by the actor's staff flag.
- `Notifier` (notifier.dfy): `notifyGradeInquiryEvent`. It picks the graders, builds notifications and e-mails for graders, resets the notification list, then fans out to the submitter. The method `NotifyGradeInquiryEvent` runs the source's loops and is proved equal to the pure specification `NotifySpec`. The lemmas are proved about `NotifySpec`.
- `InquiryStatus` (status.dfy): the status toggle (-1 is open, 0 is resolved) and the `GradeInquiry` record whose status is set in place.
- `Guards` (guards.dfy): the ordered checks of each endpoint and its permission rule.
- `Controller` (controller.dfy): the three endpoints. Each returns its response and the effects it performed, in order.

Three behaviours of the code worth knowing:

- Toggling is not a strict two-value flip. Every status other than -1, including values other than 0, becomes -1.
- Without a component, the TA graders are used, not all graders. All graders are used only as a fallback when the chosen list is empty.
- Graders get e-mails but no notifications, because the notification list is reset after the loop over graders.

## Model

| member | source | states |
|---|---|---|
| `InquiryStatus.Toggle` | site/app/controllers/student/GradeInquiryController.php:249-258 | the new status is always -1 or 0 and always differs from the old one; the event is "resolve" exactly when the old status was -1 (open), i.e. exactly when the new one is 0; otherwise "reopen" |
| `InquiryStatus.ToggleTwiceRestores` | site/app/controllers/student/GradeInquiryController.php:250-258 | from -1 or 0, two toggles restore the status and report opposite events |
| `InquiryStatus.ToggleTwiceFromOtherStatus` | site/app/controllers/student/GradeInquiryController.php:250-258 | from any other status, the toggles give -1 ("reopen") and then 0 ("resolve"), so the original value is not restored |
| `InquiryStatus.GradeInquiry.SetStatus` | site/app/controllers/student/GradeInquiryController.php:261 | the inquiry's status is replaced in place |
| `Templates.Compose` | site/app/controllers/student/GradeInquiryController.php:339-385 | exactly the four types new/reply/resolve/reopen give a template; any other type is the error "Invalid grade inquiry event type: <type>" |
| `Templates.SubjectIgnoresStaffComponentAndContent` | site/app/controllers/student/GradeInquiryController.php:341-374 | the subject depends on the event type, the gradeable title and the actor id only: not on the staff flag, the component or the content |
| `Templates.SubjectsDistinguishEventKinds` | site/app/controllers/student/GradeInquiryController.php:341-374 | the four event types give four different subjects |
| `Templates.StaffChangesOnlyOpening` | site/app/controllers/student/GradeInquiryController.php:339-382 | for every event type, the staff and student bodies differ, and they are equal after their opening phrases |
| `Templates.NewAndReplyAlwaysQuote` | site/app/controllers/student/GradeInquiryController.php:339-358 | for new and reply, the body always ends with "<user> writes:\n<content>", and the content is appended verbatim |
| `Templates.ResolveAndReopenQuoteUnlessEmpty` | site/app/controllers/student/GradeInquiryController.php:359-382 | for resolve and reopen, the body ends with "<user> writes:\n<content>" if and only if the content is non-empty in PHP's sense ("" and "0" are empty); otherwise the body is the one an empty reply gives |
| `Notifier.ComponentGradersWithoutMatch` | site/app/controllers/student/GradeInquiryController.php:328-333 | with no container of the component, the component grader list stays empty |
| `Notifier.ComponentGradersIsLastMatch` | site/app/controllers/student/GradeInquiryController.php:328-333 | with several containers of the component, the visible graders of the last one are used |
| `Notifier.ComponentGradersFromMatch` | site/app/controllers/student/GradeInquiryController.php:328-333 | a non-empty component grader list is the visible-grader list of some container of that component |
| `Notifier.SelectGraders` | site/app/controllers/student/GradeInquiryController.php:322-337 | the chosen graders are empty only when the whole roster is empty; without a component, non-empty TA graders are used; with a component, anything but the full roster is the visible graders of a container of that component |
| `Notifier.FallsBackToAllGraders` | site/app/controllers/student/GradeInquiryController.php:390-392 | without a component and without TA graders, or when the last container of the component has no visible graders, the whole roster of graders is told |
| `Notifier.FallsBackWithoutMatch` | site/app/controllers/student/GradeInquiryController.php:390-392 | with a component that no container grades, the whole roster of graders is told |
| `Notifier.GraderEmails` | site/app/controllers/student/GradeInquiryController.php:393-399 | grader messages are all on the grading side, no more messages than graders; a single grader gets one message exactly when it has full-grading access |
| `Notifier.GraderEmailsAppend` | site/app/controllers/student/GradeInquiryController.php:393-399 | messages for a roster are those for its two parts, concatenated in roster order |
| `Notifier.GraderEmailsAreFullGraders` | site/app/controllers/student/GradeInquiryController.php:393-399 | a grader message goes to a grader if and only if that grader has full-grading access |
| `Notifier.TeamMessages` | site/app/controllers/student/GradeInquiryController.php:404-411 | one student-side message per team member, in member order |
| `Notifier.SubmitterMessages` | site/app/controllers/student/GradeInquiryController.php:404-416 | a team gets one message per member; an individual gets exactly one, addressed to that user; all are on the student side |
| `Notifier.NotifySpec` | site/app/controllers/student/GradeInquiryController.php:312-422 | nothing happens without TA grading info; an unknown event type raises; otherwise an e-mail batch exists exactly when e-mail is enabled |
| `Notifier.FindComponentGraders` | site/app/controllers/student/GradeInquiryController.php:328-333 | the foreach, which overwrites the graders on each match, yields the component graders of the last match |
| `Notifier.GraderFanOut` | site/app/controllers/student/GradeInquiryController.php:393-399 | the loop over graders builds one notification and one e-mail per full-grading grader |
| `Notifier.SubmitterFanOut` | site/app/controllers/student/GradeInquiryController.php:404-416 | the submitter branch appends the submitter fan-out to both lists |
| `Notifier.NotifyGradeInquiryEvent` | site/app/controllers/student/GradeInquiryController.php:312-422 | the method, which appends grader notifications and then resets the list, yields exactly the plan of `NotifySpec` |
| `Notifier.GradersGetNoNotification` | site/app/controllers/student/GradeInquiryController.php:393-417 | notifications built for graders are discarded: the notification batch is exactly the submitter fan-out, and no selected grader is notified |
| `Notifier.EmailRecipients` | site/app/controllers/student/GradeInquiryController.php:393-420 | with e-mail enabled, grading-side e-mail goes exactly to the selected graders with full-grading access; student-side e-mail goes exactly to the submitter-side recipients; every grading-side e-mail comes before every student-side one; the batch holds one e-mail per grader message plus one per submitter message |
| `Notifier.SubmitterFanOutCounts` | site/app/controllers/student/GradeInquiryController.php:404-417 | the notification batch has one message per team member, in order, or a single message to an individual submitter |
| `Notifier.ComponentGradersTakePrecedence` | site/app/controllers/student/GradeInquiryController.php:323-337 | when the last container of the component has visible graders, exactly those graders are chosen, whatever the TA graders and the roster are |
| `Guards.ReplyRuleIsWeaker` | site/app/controllers/student/GradeInquiryController.php:50-51 | the permission to create ("member OR (canI AND accessGrading)") implies the permission to reply ("member OR canI"); a non-member whom the policy allows but who has no grading access may reply and may not create |
| `Guards.RequestGuard` | site/app/controllers/student/GradeInquiryController.php:30-55 | creation proceeds if and only if the submitter, the gradeable and the graded gradeable are found, inquiries are open, and the creation rule holds; every stop is a JSON failure |
| `Guards.PostGuard` | site/app/controllers/student/GradeInquiryController.php:87-124 | a reply proceeds if and only if every look-up succeeds, an inquiry exists, the reply rule holds and the component's inquiry is found; a missing gradeable or graded gradeable, after the submitter is found, gives no response |
| `Guards.ToggleGuardAsWritten` | site/app/controllers/student/GradeInquiryController.php:221-250 | as written: a permitted request whose component inquiry is missing goes on to a call on null (a crash), and only that request does |
| `Guards.ToggleGuard` | site/app/controllers/student/GradeInquiryController.php:221-248 | corrected: never crashes; the toggle proceeds if and only if every check passes and the inquiry is found; a missing gradeable or graded gradeable gives no response |
| `Guards.MissingInquiryCrashesAsWritten` | site/app/controllers/student/GradeInquiryController.php:245-250 | a concrete request (all look-ups found, a member, no inquiry for the component) makes the as-written chain crash |
| `Guards.ToggleGuardCorrectsOnlyTheCrash` | site/app/controllers/student/GradeInquiryController.php:245-248 | the corrected chain answers "Cannot find grade inquiry" where the as-written chain crashes, and agrees with it everywhere else |
| `Guards.RequestGuardOrder` | site/app/controllers/student/GradeInquiryController.php:30-55 | creation answers with the failure of its first failing check, in the order submitter, gradeable, inquiries open, graded gradeable, permission, each with its own message |
| `Guards.PostGuardOrder` | site/app/controllers/student/GradeInquiryController.php:87-124 | a reply answers with the stop of its first failing check, in the order submitter, gradeable, graded gradeable, inquiry exists, permission, component inquiry; so a user without permission is never told whether the component's inquiry exists |
| `Guards.ToggleGuardOrder` | site/app/controllers/student/GradeInquiryController.php:221-250 | both toggle chains answer with the stop of their first failing check, in the order gradeable, graded gradeable, inquiry exists, submitter, permission, component inquiry; as written, only the last check crashes instead of failing |
| `Guards.PermissionCheckedAfterLookups` | site/app/controllers/student/GradeInquiryController.php:30-55 | on every endpoint, when a look-up before the permission check fails, the membership and policy answers do not change the verdict |
| `Controller.FaultResponse` | site/app/controllers/student/GradeInquiryController.php:64-73 | an InvalidArgumentException becomes a failure and any other exception an error, each carrying the exception's message |
| `Controller.ComponentOf` | site/app/controllers/student/GradeInquiryController.php:25 | a gc_id of 0 means no component; any other value names that component |
| `Controller.StripCR` | site/app/controllers/student/GradeInquiryController.php:82 | the result has no carriage return and is never longer than the input; text without carriage returns is unchanged; the result is empty if and only if the input holds nothing but carriage returns |
| `Controller.StripCRAppend` | site/app/controllers/student/GradeInquiryController.php:82 | stripping works piecewise; with the one-character case of `StripCR`, every character other than a carriage return is kept, in order |
| `Controller.RequestGradeInquiry` | site/app/controllers/student/GradeInquiryController.php:22-74 | a failed check or a failed insert performs no effect; an exception inside the notifier is answered like a failed insert, with the inquiry already inserted; otherwise, in order: insert the inquiry, notify "new", push "open_grade_inquiry", answer success; the inquiry is inserted exactly when the checks and the insert succeed |
| `Controller.MakeGradeInquiryPost` | site/app/controllers/student/GradeInquiryController.php:81-145 | a failed check or a failed insert performs no effect; an exception inside the notifier is answered like a failed insert, with the post already inserted; otherwise, in order: insert the CR-stripped post into the component's inquiry, notify "reply", push "new_post", answer success |
| `Controller.ChangeGradeInquiryStatus` | site/app/controllers/student/GradeInquiryController.php:214-278 | a failed check changes nothing; otherwise the status is toggled in place and stays toggled even when the save fails; the save comes first; a post is inserted only when the CR-stripped text is non-empty; then notify with the toggle's event and push "toggle_status"; an exception inside the notifier is answered as a failure or error, with the save and the post already persisted |
| `Controller.EndpointEventsNeverRaise` | site/app/controllers/student/GradeInquiryController.php:383-385 | the event types the endpoints pass ("new", "reply" and the toggle's event) never reach the invalid-type error |
| `Controller.ZeroReplyIsPostedButNotQuoted` | site/app/controllers/student/GradeInquiryController.php:263-267 | a reply text of "0" passes the `!= ""` test, so it is saved as a post, but PHP's `empty` holds of it, so the resolve/reopen body does not quote it |

## Findings

| source | as written | input that shows it | evidently intended | confidence | as-written member | corrected member |
|---|---|---|---|---|---|---|
| site/app/controllers/student/GradeInquiryController.php:245-250 | when no inquiry exists for the component, the failure response is built but not returned, and `getStatus()` is then called on null | a permitted toggle request by a submitter member, where every look-up succeeds but the graded gradeable has no inquiry for the given gc_id | return the failure "Cannot find grade inquiry" | high (not executed) | `Guards.MissingInquiryCrashesAsWritten` | `Guards.ToggleGuard` |

## Left out

- `getSingleGradeInquiryPost` and `getGradeInquiryDiscussion` are left out. They only render views.
- `sendSocketMessage` is left out. Its payload keys beyond the message type are not modelled, nor the page key, the acting user id, or how a down WebSocket server becomes a notice. A push is recorded only as `Push(type)`.
- Notification and Email objects are reduced to a side and a recipient id. Their metadata URLs (`buildCourseUrl`, `json_encode`) and the `content` key of student details are not modelled.
- An exception inside `notifyGradeInquiryEvent` is one optional `Fault` input to each endpoint. It may come from `getComponent`, `getAllGraders`, `sendNotifications` or `sendEmails`. When it happens, the model records no `Notify` effect. A partial delivery is not modelled, for example notifications sent before `sendEmails` throws.
- Query-layer calls are not modelled. Each look-up (`getSubmitterById`, `tryGetGradeable`, `tryGetGradedGradeable`, `getGradeInquiryByGcId`, `getAllGraders`) is an input. Each write is an `Effect`. A write's exception is an optional `Fault` input. A failed write performs no effect.
- The policy engine is not modelled. `canI`, `accessGrading`, `accessFullGrading` and `hasUser` are booleans.
- `getComponent($gc_id)->getTitle()` is not modelled. The component title is an input.
- The TA visible graders read at line 318 are not modelled, because line 322 overwrites them before any use.
- `$_POST` parsing is not modelled. `gc_id` arrives as an integer, and PHP's loose comparison and `intval` on arbitrary strings are not modelled. Route attributes are not modelled.
- The response wrappers are not modelled. `MultiResponse` and plain `JsonResponse` are one `Response`. A `null` return is `NoResponse`.
- `Controller.ChangeGradeInquiryStatus` uses the corrected guard. The crash of the code as written is modelled only by `Guards.ToggleGuardAsWritten`. See Findings.
- The invalid-type `RuntimeException`, caught as a generic error by the endpoints, is not modelled in the endpoints. No endpoint can trigger it (`Controller.EndpointEventsNeverRaise`).
