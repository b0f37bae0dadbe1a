/**
 * The five security voters (src/Security/Voter/).  Each voter first says
 * whether it `supports` an attribute on a subject; only then does it vote,
 * and a vote is true or false.  A voter that does not support the request
 * abstains.  `isAdmin` is the answer of `isGranted('ROLE_ADMIN')`, which the
 * voters consult after finding an application user in the token.
 */
module Voters {
  import opened Domain

  /** The subject passed to `isGranted`, by its PHP class. */
  datatype Subject =
    | TicketSubject(ticket: Ticket)
    | CommentSubject(comment: Comment)
    | OrganizationSubject(organization: Organization)
    | TimeEntrySubject(entry: TimeEntryRow)
    | ActivitySubject(activity: Activity)
    | OtherSubject

  datatype Vote = Abstain | Granted | Denied

  const TicketEdit := "TICKET_EDIT"
  const TicketDelete := "TICKET_DELETE"
  const CommentEdit := "COMMENT_EDIT"
  const CommentDelete := "COMMENT_DELETE"
  const OrganizationAccess := "ORGANIZATION_ACCESS"
  const TimeEntryEdit := "TIMEENTRY_EDIT"
  const TimeEntryDelete := "TIMEENTRY_DELETE"
  const ActivityEdit := "ACTIVITY_EDIT"
  const ActivityDelete := "ACTIVITY_DELETE"

  /** The verdict of a voter that supports the request and answers `granted`. */
  function Verdict(granted: bool): Vote
  {
    if granted then Granted else Denied
  }

  // TicketVoter

  predicate TicketSupports(attribute: string, subject: Subject)
  {
    (attribute == TicketEdit || attribute == TicketDelete) && subject.TicketSubject?
  }

  function TicketVoteOnAttribute(ticket: Ticket, principal: Principal, isAdmin: bool): bool
  {
    match principal
    case AppUser(user) => if isAdmin then true else user.organization == ticket.organization
    case _ => false
  }

  function TicketVote(attribute: string, subject: Subject, principal: Principal, isAdmin: bool): (v: Vote)
    ensures v == Abstain <==> !TicketSupports(attribute, subject)
    ensures v == Granted <==>
              TicketSupports(attribute, subject) && principal.AppUser?
              && (isAdmin || principal.user.organization == subject.ticket.organization)
  {
    if !TicketSupports(attribute, subject) then Abstain
    else Verdict(TicketVoteOnAttribute(subject.ticket, principal, isAdmin))
  }

  // CommentVoter

  predicate CommentSupports(attribute: string, subject: Subject)
  {
    (attribute == CommentEdit || attribute == CommentDelete) && subject.CommentSubject?
  }

  function CommentVoteOnAttribute(comment: Comment, principal: Principal, isAdmin: bool): bool
  {
    match principal
    case AppUser(user) => if isAdmin then true else comment.author == user.id
    case _ => false
  }

  function CommentVote(attribute: string, subject: Subject, principal: Principal, isAdmin: bool): (v: Vote)
    ensures v == Abstain <==> !CommentSupports(attribute, subject)
    ensures v == Granted <==>
              CommentSupports(attribute, subject) && principal.AppUser?
              && (isAdmin || subject.comment.author == principal.user.id)
  {
    if !CommentSupports(attribute, subject) then Abstain
    else Verdict(CommentVoteOnAttribute(subject.comment, principal, isAdmin))
  }

  // OrganizationVoter

  predicate OrganizationSupports(attribute: string, subject: Subject)
  {
    attribute == OrganizationAccess && subject.OrganizationSubject?
  }

  function OrganizationVoteOnAttribute(organization: Organization, principal: Principal, isAdmin: bool): bool
  {
    match principal
    case AppUser(user) => if isAdmin then true else user.organization == organization.id
    case _ => false
  }

  function OrganizationVote(attribute: string, subject: Subject, principal: Principal, isAdmin: bool): (v: Vote)
    ensures v == Abstain <==> !OrganizationSupports(attribute, subject)
    ensures v == Granted <==>
              OrganizationSupports(attribute, subject) && principal.AppUser?
              && (isAdmin || principal.user.organization == subject.organization.id)
  {
    if !OrganizationSupports(attribute, subject) then Abstain
    else Verdict(OrganizationVoteOnAttribute(subject.organization, principal, isAdmin))
  }

  // TimeEntryVoter

  predicate TimeEntrySupports(attribute: string, subject: Subject)
  {
    (attribute == TimeEntryEdit || attribute == TimeEntryDelete) && subject.TimeEntrySubject?
  }

  /** The creator rule is not in force: after the admin check the answer is always no. */
  function TimeEntryVoteOnAttribute(entry: TimeEntryRow, principal: Principal, isAdmin: bool): bool
  {
    match principal
    case AppUser(_) => if isAdmin then true else false
    case _ => false
  }

  function TimeEntryVote(attribute: string, subject: Subject, principal: Principal, isAdmin: bool): (v: Vote)
    ensures v == Abstain <==> !TimeEntrySupports(attribute, subject)
    ensures v == Granted <==> TimeEntrySupports(attribute, subject) && principal.AppUser? && isAdmin
  {
    if !TimeEntrySupports(attribute, subject) then Abstain
    else Verdict(TimeEntryVoteOnAttribute(subject.entry, principal, isAdmin))
  }

  // ActivityVoter

  predicate ActivitySupports(attribute: string, subject: Subject)
  {
    (attribute == ActivityEdit || attribute == ActivityDelete) && subject.ActivitySubject?
  }

  /** The creator rule is not in force: after the admin check the answer is always no. */
  function ActivityVoteOnAttribute(activity: Activity, principal: Principal, isAdmin: bool): bool
  {
    match principal
    case AppUser(_) => if isAdmin then true else false
    case _ => false
  }

  function ActivityVote(attribute: string, subject: Subject, principal: Principal, isAdmin: bool): (v: Vote)
    ensures v == Abstain <==> !ActivitySupports(attribute, subject)
    ensures v == Granted <==> ActivitySupports(attribute, subject) && principal.AppUser? && isAdmin
  {
    if !ActivitySupports(attribute, subject) then Abstain
    else Verdict(ActivityVoteOnAttribute(subject.activity, principal, isAdmin))
  }

  /** Every voter: an admin user is granted whatever the voter supports. */
  lemma AdminAlwaysGranted(attribute: string, subject: Subject, user: User)
    ensures TicketSupports(attribute, subject) ==> TicketVote(attribute, subject, AppUser(user), true) == Granted
    ensures CommentSupports(attribute, subject) ==> CommentVote(attribute, subject, AppUser(user), true) == Granted
    ensures OrganizationSupports(attribute, subject) ==> OrganizationVote(attribute, subject, AppUser(user), true) == Granted
    ensures TimeEntrySupports(attribute, subject) ==> TimeEntryVote(attribute, subject, AppUser(user), true) == Granted
    ensures ActivitySupports(attribute, subject) ==> ActivityVote(attribute, subject, AppUser(user), true) == Granted
  {
  }

  /** Every voter: a token without an application user is never granted anything, admin role or not. */
  lemma NonUserNeverGranted(attribute: string, subject: Subject, principal: Principal, isAdmin: bool)
    requires !principal.AppUser?
    ensures TicketVote(attribute, subject, principal, isAdmin) != Granted
    ensures CommentVote(attribute, subject, principal, isAdmin) != Granted
    ensures OrganizationVote(attribute, subject, principal, isAdmin) != Granted
    ensures TimeEntryVote(attribute, subject, principal, isAdmin) != Granted
    ensures ActivityVote(attribute, subject, principal, isAdmin) != Granted
  {
  }

  /** The edit and delete attributes get the same verdict on every subject. */
  lemma EditAndDeleteAgree(subject: Subject, principal: Principal, isAdmin: bool)
    ensures TicketVote(TicketEdit, subject, principal, isAdmin) == TicketVote(TicketDelete, subject, principal, isAdmin)
    ensures CommentVote(CommentEdit, subject, principal, isAdmin) == CommentVote(CommentDelete, subject, principal, isAdmin)
    ensures TimeEntryVote(TimeEntryEdit, subject, principal, isAdmin) == TimeEntryVote(TimeEntryDelete, subject, principal, isAdmin)
    ensures ActivityVote(ActivityEdit, subject, principal, isAdmin) == ActivityVote(ActivityDelete, subject, principal, isAdmin)
  {
  }

  /** A non-admin may not manage a time entry or an activity, not even one they created. */
  lemma CreatorIsNotEnough(attribute: string, entry: TimeEntryRow, activity: Activity, user: User)
    requires entry.createdBy == user.id && activity.createdBy == user.id
    ensures TimeEntryVote(attribute, TimeEntrySubject(entry), AppUser(user), false) != Granted
    ensures ActivityVote(attribute, ActivitySubject(activity), AppUser(user), false) != Granted
  {
  }

  /** No two voters support the same request, so each request gets at most one non-abstaining vote. */
  lemma SupportsDisjoint(attribute: string, subject: Subject)
    ensures
      (if TicketSupports(attribute, subject) then 1 else 0)
      + (if CommentSupports(attribute, subject) then 1 else 0)
      + (if OrganizationSupports(attribute, subject) then 1 else 0)
      + (if TimeEntrySupports(attribute, subject) then 1 else 0)
      + (if ActivitySupports(attribute, subject) then 1 else 0) <= 1
  {
  }
}
