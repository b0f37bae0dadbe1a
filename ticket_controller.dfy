/**
 * The guard sequences of the ticket controller
 * (src/Controller/TicketController.php) and the rule by which `new` and
 * `edit` undo what a non-admin's form may have written to the ticket.
 *
 * Each action first asks for ORGANIZATION_ACCESS on the route's
 * organization, then compares the addressed ticket, comment or attachment
 * with the route, then asks the entity's own voter.  A failed
 * `denyAccessUnlessGranted` or `createAccessDeniedException` is `Deny`
 * (403), a `createNotFoundException` is `Missing` (404), and a call on a
 * null association is `Crash` (500).  The route's
 * organization has already been resolved from its slug.  Since no other
 * voter supports these attributes (Voters.SupportsDisjoint), a request is
 * granted exactly when its one voter grants it.
 */
module TicketController {
  import opened Wrappers
  import opened Domain
  import opened Voters

  /** `Crash` is a PHP Error thrown by a method call on null: a 500 response. */
  datatype Guard = Pass | Deny | Missing | Crash

  /** `denyAccessUnlessGranted('ORGANIZATION_ACCESS', $organization)`. */
  function OrganizationGuard(principal: Principal, isAdmin: bool, route: Organization): Guard
  {
    if OrganizationVote(OrganizationAccess, OrganizationSubject(route), principal, isAdmin) == Granted then Pass else Deny
  }

  /** The attribute `show` (none), `edit` and `delete` ask the ticket voter for. */
  datatype TicketAction = ShowAction | EditAction | DeleteAction

  function TicketAttribute(action: TicketAction): Option<string>
  {
    match action
    case ShowAction => None
    case EditAction => Some(TicketEdit)
    case DeleteAction => Some(TicketDelete)
  }

  /**
   * The guards of `show`, `edit` and `delete`: an admin reaches every
   * ticket; anyone else only tickets of the route's organization, and only
   * as a member of it.  The ticket voter never refuses a request that got
   * this far.
   */
  function TicketGuard(principal: Principal, isAdmin: bool, route: Organization, ticket: Ticket, action: TicketAction): (g: Guard)
    ensures g == Pass <==>
              principal.AppUser?
              && (isAdmin || (principal.user.organization == route.id && ticket.organization == route.id))
    ensures g == Missing <==>
              principal.AppUser? && !isAdmin
              && principal.user.organization == route.id && ticket.organization != route.id
  {
    if OrganizationGuard(principal, isAdmin, route) != Pass then Deny
    else if !isAdmin && ticket.organization != route.id then Missing
    else
      match TicketAttribute(action)
      case None => Pass
      case Some(attribute) =>
        if TicketVote(attribute, TicketSubject(ticket), principal, isAdmin) == Granted then Pass else Deny
  }

  /**
   * The guards of `editComment` and `deleteComment`.  Past the
   * ORGANIZATION_ACCESS check, the comment must belong to the route's ticket
   * (checked for admins too, and before the ticket-organization check), a
   * non-admin must be in the ticket's organization, and the comment voter
   * lets only its author or an admin through.
   */
  function CommentGuard(principal: Principal, isAdmin: bool, route: Organization, ticketId: TicketId,
                        comment: Comment, attribute: string): (g: Guard)
    requires attribute == CommentEdit || attribute == CommentDelete
    ensures g == Pass <==>
              principal.AppUser? && comment.ticket.id == ticketId
              && (isAdmin
                  || (principal.user.organization == route.id && comment.ticket.organization == route.id
                      && comment.author == principal.user.id))
    ensures g == Missing <==>
              principal.AppUser? && (isAdmin || principal.user.organization == route.id)
              && (comment.ticket.id != ticketId || (!isAdmin && comment.ticket.organization != route.id))
  {
    if OrganizationGuard(principal, isAdmin, route) != Pass then Deny
    else if comment.ticket.id != ticketId then Missing
    else if !isAdmin && comment.ticket.organization != route.id then Missing
    else if CommentVote(attribute, CommentSubject(comment), principal, isAdmin) == Granted then Pass
    else Deny
  }

  /**
   * The guards of `deleteAttachment`: the attachment's ticket must be the
   * route's ticket and (for non-admins) of the route's organization, and
   * only the user who uploaded the attachment may delete it, whatever their
   * role.  An attachment uploaded with a comment has no ticket (`show` sets
   * only its comment), and `getTicket()->getId()` then fails on null.
   */
  function AttachmentGuard(principal: Principal, isAdmin: bool, route: Organization, ticketId: TicketId,
                           attachment: Attachment): (g: Guard)
    ensures g == Pass <==>
              principal.AppUser? && attachment.ticket.Some? && attachment.ticket.value.id == ticketId
              && (isAdmin || (principal.user.organization == route.id && attachment.ticket.value.organization == route.id))
              && attachment.uploadedBy == Some(principal.user.id)
    ensures g == Missing <==>
              principal.AppUser? && (isAdmin || principal.user.organization == route.id) && attachment.ticket.Some?
              && (attachment.ticket.value.id != ticketId || (!isAdmin && attachment.ticket.value.organization != route.id))
    ensures g == Crash <==>
              principal.AppUser? && (isAdmin || principal.user.organization == route.id) && attachment.ticket.None?
  {
    if OrganizationGuard(principal, isAdmin, route) != Pass then Deny
    else if attachment.ticket.None? then Crash
    else if attachment.ticket.value.id != ticketId then Missing
    else if !isAdmin && attachment.ticket.value.organization != route.id then Missing
    else if attachment.uploadedBy != Some(principal.user.id) then Deny
    else Pass
  }

  /** What a removal action does: refuse, or redirect having removed the entity or not. */
  datatype Removal = Refused(guard: Guard) | Redirected(removed: bool)

  /** A removal action removes only past its guards and with a valid CSRF token. */
  function Remove(guard: Guard, csrfValid: bool): (r: Removal)
    ensures r.Refused? <==> guard != Pass
    ensures r.Refused? ==> r.guard == guard
    ensures r == Redirected(true) <==> guard == Pass && csrfValid
  {
    if guard != Pass then Refused(guard) else Redirected(csrfValid)
  }

  /** `delete`: an admin removes any ticket, a member only a ticket of the route's organization, and only with a valid CSRF token. */
  function DeleteTicket(principal: Principal, isAdmin: bool, route: Organization, ticket: Ticket, csrfValid: bool): (r: Removal)
    ensures r.Redirected? <==>
              principal.AppUser? && (isAdmin || (principal.user.organization == route.id && ticket.organization == route.id))
    ensures r == Redirected(true) <==> r.Redirected? && csrfValid
    ensures r == Refused(Missing) <==>
              principal.AppUser? && !isAdmin && principal.user.organization == route.id && ticket.organization != route.id
  {
    Remove(TicketGuard(principal, isAdmin, route, ticket, DeleteAction), csrfValid)
  }

  /** `deleteComment`: the comment must be under the route's ticket; then an admin, or its author within the route's organization, removes it with a valid CSRF token. */
  function DeleteComment(principal: Principal, isAdmin: bool, route: Organization, ticketId: TicketId,
                         comment: Comment, csrfValid: bool): (r: Removal)
    ensures r.Redirected? <==>
              principal.AppUser? && comment.ticket.id == ticketId
              && (isAdmin
                  || (principal.user.organization == route.id && comment.ticket.organization == route.id
                      && comment.author == principal.user.id))
    ensures r == Redirected(true) <==> r.Redirected? && csrfValid
    ensures r == Refused(Missing) <==>
              principal.AppUser? && (isAdmin || principal.user.organization == route.id)
              && (comment.ticket.id != ticketId || (!isAdmin && comment.ticket.organization != route.id))
  {
    Remove(CommentGuard(principal, isAdmin, route, ticketId, comment, CommentDelete), csrfValid)
  }

  /** `deleteAttachment`: only the uploader removes a ticket attachment of the route's ticket, with a valid CSRF token. */
  function DeleteAttachment(principal: Principal, isAdmin: bool, route: Organization, ticketId: TicketId,
                            attachment: Attachment, csrfValid: bool): (r: Removal)
    ensures r.Redirected? <==>
              principal.AppUser? && attachment.ticket.Some? && attachment.ticket.value.id == ticketId
              && (isAdmin || (principal.user.organization == route.id && attachment.ticket.value.organization == route.id))
              && attachment.uploadedBy == Some(principal.user.id)
    ensures r == Redirected(true) <==> r.Redirected? && csrfValid
    ensures r == Refused(Crash) <==>
              principal.AppUser? && (isAdmin || principal.user.organization == route.id) && attachment.ticket.None?
  {
    Remove(AttachmentGuard(principal, isAdmin, route, ticketId, attachment), csrfValid)
  }

  /**
   * The guards of `deleteCommentAttachment`: past the ORGANIZATION_ACCESS
   * check, the attachment must belong to the route's comment, the comment
   * to the route's ticket, and (for non-admins) the ticket to the route's
   * organization.  Unlike `deleteAttachment`, who uploaded it is not asked.
   */
  function CommentAttachmentGuard(principal: Principal, isAdmin: bool, route: Organization, ticketId: TicketId,
                                  commentId: int, attachment: Attachment): (g: Guard)
    ensures g == Pass <==>
              principal.AppUser? && attachment.comment.Some? && attachment.comment.value.id == commentId
              && attachment.comment.value.ticket.id == ticketId
              && (isAdmin || (principal.user.organization == route.id && attachment.comment.value.ticket.organization == route.id))
    ensures g == Missing <==>
              principal.AppUser? && (isAdmin || principal.user.organization == route.id)
              && (attachment.comment.None? || attachment.comment.value.id != commentId
                  || attachment.comment.value.ticket.id != ticketId
                  || (!isAdmin && attachment.comment.value.ticket.organization != route.id))
  {
    if OrganizationGuard(principal, isAdmin, route) != Pass then Deny
    else if attachment.comment.None? || attachment.comment.value.id != commentId then Missing
    else if attachment.comment.value.ticket.id != ticketId then Missing
    else if !isAdmin && attachment.comment.value.ticket.organization != route.id then Missing
    else Pass
  }

  /** `deleteCommentAttachment`. */
  function DeleteCommentAttachment(principal: Principal, isAdmin: bool, route: Organization, ticketId: TicketId,
                                   commentId: int, attachment: Attachment, csrfValid: bool): (r: Removal)
    ensures r == Redirected(true) <==>
              CommentAttachmentGuard(principal, isAdmin, route, ticketId, commentId, attachment) == Pass && csrfValid
    ensures r.Refused? ==> r.guard != Crash
  {
    Remove(CommentAttachmentGuard(principal, isAdmin, route, ticketId, commentId, attachment), csrfValid)
  }

  /**
   * Any member of the route's organization removes a comment's attachment
   * under that organization's ticket, whoever uploaded it and whoever wrote
   * the comment.
   */
  lemma AnyMemberRemovesCommentAttachment(user: User, route: Organization, ticketId: TicketId, comment: Comment,
                                          attachment: Attachment)
    requires user.organization == route.id && comment.ticket.id == ticketId && comment.ticket.organization == route.id
    requires attachment.comment == Some(comment)
    ensures DeleteCommentAttachment(AppUser(user), false, route, ticketId, comment.id, attachment, true) == Redirected(true)
  {
  }

  /** Without a valid CSRF token no ticket, comment or attachment is removed, whoever asks. */
  lemma NoRemovalWithoutCsrf(principal: Principal, isAdmin: bool, route: Organization, ticket: Ticket,
                             comment: Comment, attachment: Attachment, ticketId: TicketId)
    ensures DeleteTicket(principal, isAdmin, route, ticket, false) != Redirected(true)
    ensures DeleteComment(principal, isAdmin, route, ticketId, comment, false) != Redirected(true)
    ensures DeleteAttachment(principal, isAdmin, route, ticketId, attachment, false) != Redirected(true)
  {
  }

  /** A non-admin removes only what lives in their own organization, which is the route's. */
  lemma NonAdminRemovesOnlyInOwnOrganization(user: User, route: Organization, ticket: Ticket,
                                              comment: Comment, ticketId: TicketId, csrfValid: bool)
    ensures DeleteTicket(AppUser(user), false, route, ticket, csrfValid) == Redirected(true) ==>
              ticket.organization == route.id == user.organization
    ensures DeleteComment(AppUser(user), false, route, ticketId, comment, csrfValid) == Redirected(true) ==>
              comment.ticket.organization == route.id == user.organization && comment.author == user.id
  {
  }

  /** Through `deleteAttachment` a ticket attachment is removed only by its uploader: an admin is refused another user's attachment. */
  lemma OnlyUploaderRemovesAttachment(user: User, isAdmin: bool, route: Organization, ticketId: TicketId,
                                      attachment: Attachment, csrfValid: bool)
    requires attachment.uploadedBy != Some(user.id)
    ensures DeleteAttachment(AppUser(user), isAdmin, route, ticketId, attachment, csrfValid).Refused?
    ensures attachment.ticket.Some? && attachment.ticket.value.id == ticketId
            && (isAdmin || (user.organization == route.id && attachment.ticket.value.organization == route.id)) ==>
              DeleteAttachment(AppUser(user), isAdmin, route, ticketId, attachment, csrfValid) == Refused(Deny)
  {
  }

  /**
   * Addressed to `deleteAttachment`, a comment's attachment, which has no
   * ticket, fails with a server error for anyone allowed into the
   * organization, its uploader included, whatever the CSRF token.
   */
  lemma DeleteAttachmentCrashesOnCommentAttachment(user: User, isAdmin: bool, route: Organization, ticketId: TicketId,
                                                   attachment: Attachment, csrfValid: bool)
    requires attachment.ticket.None?
    requires isAdmin || user.organization == route.id
    ensures DeleteAttachment(AppUser(user), isAdmin, route, ticketId, attachment, csrfValid) == Refused(Crash)
  {
  }

  /** A comment addressed under the wrong ticket is a 404 for everyone past the ORGANIZATION_ACCESS check, admins included, before the ticket-organization check. */
  lemma MisaddressedCommentNotFound(principal: Principal, isAdmin: bool, route: Organization, ticketId: TicketId,
                                    comment: Comment, attribute: string)
    requires attribute == CommentEdit || attribute == CommentDelete
    requires OrganizationGuard(principal, isAdmin, route) == Pass
    requires comment.ticket.id != ticketId
    ensures CommentGuard(principal, isAdmin, route, ticketId, comment, attribute) == Missing
  {
  }

  // The form-bound ticket of `new` and `edit`.

  /** What a submitted ticket form writes into the ticket: `None` where it writes nothing. */
  datatype Submission = Submission(organization: Option<OrganizationId>, status: Option<Status>)

  /** The fields of the Ticket entity the actions and the form change. */
  class BoundTicket {
    var organization: Option<OrganizationId>
    var status: Option<Status>
    var createdBy: Option<UserId>

    /** `new Ticket()`. */
    constructor ()
      ensures organization == None && status == None && createdBy == None
    {
      organization := None;
      status := None;
      createdBy := None;
    }

    /** The ticket as the ORM loads it for `edit`. */
    constructor Load(t: Ticket)
      ensures organization == Some(t.organization) && status == Some(t.status) && createdBy == Some(t.createdBy)
    {
      organization := Some(t.organization);
      status := Some(t.status);
      createdBy := Some(t.createdBy);
    }

    method SetOrganization(org: Option<OrganizationId>)
      modifies this`organization
      ensures organization == org
    {
      organization := org;
    }

    method SetStatus(s: Option<Status>)
      modifies this`status
      ensures status == s
    {
      status := s;
    }

    method SetCreatedBy(user: Option<UserId>)
      modifies this`createdBy
      ensures createdBy == user
    {
      createdBy := user;
    }

    /** `$form->handleRequest()`: the submitted fields overwrite the ticket's. */
    method Bind(submission: Submission)
      modifies this`organization, this`status
      ensures organization == (if submission.organization.Some? then submission.organization else old(organization))
      ensures status == (if submission.status.Some? then submission.status else old(status))
    {
      if submission.organization.Some? {
        organization := submission.organization;
      }
      if submission.status.Some? {
        status := submission.status;
      }
    }
  }

  /** `findOneBy(['slug' => 'open'])` on the statuses. */
  function DefaultStatus(statuses: seq<Status>): (s: Option<Status>)
    ensures s.Some? ==> s.value in statuses && s.value.slug == "open"
    ensures s.None? <==> forall t :: t in statuses ==> t.slug != "open"
  {
    if statuses == [] then None
    else if statuses[0].slug == "open" then Some(statuses[0])
    else DefaultStatus(statuses[1..])
  }

  datatype Response =
    | AccessDenied
    | NotFound
    | ServerError
    | ShowForm
    | RedirectToTicketIndex
    | RedirectToAdminDashboard
    | RedirectToTicket

  function Refusal(g: Guard): Response
  {
    match g
    case Missing => NotFound
    case Crash => ServerError
    case _ => AccessDenied
  }

  /**
   * `new`, with `submission` the valid submitted form, if any.  A
   * non-admin's ticket is always stored in the route's organization; an
   * admin who files it under another organization is sent to the admin
   * dashboard.
   */
  method New(principal: Principal, isAdmin: bool, route: Organization, statuses: seq<Status>, submission: Option<Submission>)
    returns (response: Response, ticket: BoundTicket?)
    ensures OrganizationGuard(principal, isAdmin, route) != Pass ==> response == AccessDenied && ticket == null
    ensures OrganizationGuard(principal, isAdmin, route) == Pass ==>
              ticket != null && principal.AppUser?
              && ticket.createdBy == Some(principal.user.id)
              && ticket.status == (if submission.Some? && submission.value.status.Some? then submission.value.status
                                   else DefaultStatus(statuses))
    ensures OrganizationGuard(principal, isAdmin, route) == Pass && submission.None? ==>
              response == ShowForm && ticket.organization == Some(route.id)
    ensures OrganizationGuard(principal, isAdmin, route) == Pass && submission.Some? ==>
              ticket.organization == (if isAdmin && submission.value.organization.Some? then submission.value.organization
                                      else Some(route.id))
              && (response == RedirectToAdminDashboard <==> isAdmin && ticket.organization != Some(route.id))
              && (response == RedirectToTicketIndex <==> !(isAdmin && ticket.organization != Some(route.id)))
  {
    if OrganizationGuard(principal, isAdmin, route) != Pass {
      return AccessDenied, null;
    }
    ticket := new BoundTicket();
    ticket.SetOrganization(Some(route.id));
    ticket.SetCreatedBy(Some(principal.user.id));
    var defaultStatus := DefaultStatus(statuses);
    if defaultStatus.Some? {
      ticket.SetStatus(defaultStatus);
    }
    if submission.None? {
      return ShowForm, ticket;
    }
    ticket.Bind(submission.value);
    if !isAdmin {
      ticket.SetOrganization(Some(route.id));
    }
    if isAdmin && ticket.organization != Some(route.id) {
      response := RedirectToAdminDashboard;
    } else {
      response := RedirectToTicketIndex;
    }
  }

  /**
   * `edit` on the stored ticket `stored`.  Whatever the form wrote, a
   * non-admin leaves the ticket's status and organization as they were;
   * only an admin's form changes them.
   */
  method Edit(principal: Principal, isAdmin: bool, route: Organization, stored: Ticket, submission: Option<Submission>)
    returns (response: Response, ticket: BoundTicket?)
    ensures TicketGuard(principal, isAdmin, route, stored, EditAction) != Pass ==>
              response == Refusal(TicketGuard(principal, isAdmin, route, stored, EditAction)) && ticket == null
    ensures TicketGuard(principal, isAdmin, route, stored, EditAction) == Pass && submission.None? ==>
              response == ShowForm && ticket != null
              && ticket.organization == Some(stored.organization) && ticket.status == Some(stored.status)
    ensures TicketGuard(principal, isAdmin, route, stored, EditAction) == Pass && submission.Some? ==>
              response == RedirectToTicket && ticket != null
              && (!isAdmin ==> ticket.organization == Some(stored.organization) && ticket.status == Some(stored.status))
              && (isAdmin ==>
                    ticket.organization == (if submission.value.organization.Some? then submission.value.organization
                                            else Some(stored.organization))
                    && ticket.status == (if submission.value.status.Some? then submission.value.status
                                         else Some(stored.status)))
  {
    var guard := TicketGuard(principal, isAdmin, route, stored, EditAction);
    if guard != Pass {
      return Refusal(guard), null;
    }
    ticket := new BoundTicket.Load(stored);
    var originalStatus := ticket.status;
    var originalOrganization := ticket.organization;
    if submission.None? {
      return ShowForm, ticket;
    }
    ticket.Bind(submission.value);
    if !isAdmin && ticket.status != originalStatus {
      ticket.SetStatus(originalStatus);
    }
    if !isAdmin {
      ticket.SetOrganization(originalOrganization);
    }
    response := RedirectToTicket;
  }
}
