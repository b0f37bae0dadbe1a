# TicketSync core in Dafny

TicketSync is a Symfony helpdesk. Organizations (clients) file tickets,
comment on them and log billable time. Administrators can see every
organization, manage users and send invitations. This project models the
application's core rules as verified Dafny:

- **Billing.** A time entry's hours are rounded up to the next half hour.
  The billed amount is the rounded hours times the hourly-rate snapshot.
- **Alerts.** When a time entry is created or its billed amount changes,
  the organization's month-to-date total is recomputed. Every subscribed
  user whose threshold was crossed by that change gets a mail.
- **Notifications.** Ticket, comment and status-change mails go to every
  admin and every member of the ticket's organization, except the actor.
  Each recipient gets one mail.
- **Repository queries.** The repository queries are filters with an
  ORDER BY, and the monthly total is a sum over a date window.
- **Admin activities report.** Activities are grouped by month.
- **Invitations.** The invitation entity has a random 64-hex-digit token
  and a 48-hour lifetime. The model also covers "find valid by token",
  "delete expired", accepting an invitation, and the admin actions that
  create users, resend invitations and delete users.
- **Access control.** The model covers the five security voters, the
  organization-slug argument resolver, and the access guards of the
  ticket controller, including its rule that undoes a non-admin's change
  of status or organization.

Modelling conventions:

- **Numbers and time.** Money and hours are int hundredths, matching the
  DECIMAL(·, 2) columns. Instants are int seconds. Dates are
  `Calendar.Date`.
- **Outside inputs as parameters.** The clock, random bytes, password
  hashes, CSRF verdicts, submitted forms and the `ROLE_ADMIN` check are all
  parameters.
- **Outgoing mail.** The mails a step sends are returned as a `seq<Mail>`.
- **Tables.** Tables are sequences of row datatypes.
- **Classes.** `TimeEntry`, `UserInvitation`, the form-bound ticket and the
  user/invitation store are classes whose methods update their fields in
  place.

Choices made where the sources leave a question open:

- **Where the intended design and the code disagree, the code is followed.**
  - `TimeEntry` does not keep `billedHours`/`billedAmount` in step with
    `hours` and the rate; it only offers the `calculate*` helpers. The model
    keeps the setters independent: `Billing.TimeEntry.SetHours` leaves the
    billed amount untouched.
  - The threshold alert always totals the clock's current month, whatever
    the entry's `workDate` (src/EventSubscriber/AlertSubscriber.php:72 calls
    `calculateMonthlyTotal` without a year or month), and derives the
    previous total by subtracting the entry's own amount. For an entry dated
    in another month that subtraction is from a total the entry is not part
    of, so an alert already sent this month is sent again.
    `AlertSubscriber.BackdatedEntryAlertsAgain` exhibits such a case. This
    is modelled as written.
- **Expiry instant.** The entity's `isExpired` is `now > expiresAt`.
  `findValidByToken` asks for `expiresAt > now`. At `now == expiresAt` the
  entity still calls the invitation valid, but the query no longer finds
  it. `UserInvitationRepository.ExpiryInstantMismatch` states this.
- **Deleting a user.** The user mapping (src/Entity/User.php) is not part of
  this model. Deleting a user is modelled as also removing their invitation,
  as a cascading inverse one-to-one side does. That is an assumption. If
  the mapping does not cascade, two outcomes are possible, and the model
  captures neither. When SQLite leaves foreign keys unenforced (its default
  without `PRAGMA foreign_keys=ON`, which nothing here turns on), the
  delete succeeds and leaves an orphaned invitation. When foreign keys are
  enforced, the delete is refused: by the invitation's key
  (migrations/Version20251213153334.php:23), and for any user who created a
  ticket or time entry by their NOT NULL `created_by_id` keys as well.
- **Comment attachments.** `show` stores a comment's attachments with
  their comment but no ticket (src/Controller/TicketController.php:162-168).
  Addressed to `deleteAttachment`, such an attachment makes it call a method
  on a null ticket, which is modelled as the `Crash` guard, a server error.
  Comment attachments are removed through `deleteCommentAttachment`, whose
  guards check the comment, its ticket and the organization but not who
  uploaded the attachment.

## Model

| member | source | states |
|---|---|---|
| Billing.RoundUpToHalfHour | src/Entity/TimeEntry.php:207-211 | the billed hours are a multiple of 0.50 and lie in [hours, hours + 0.50) |
| Billing.RoundUpIsLeast | src/Entity/TimeEntry.php:207-211 | no multiple of 0.50 that is at least the hours is smaller than the rounded value (it is the ceiling) |
| Billing.RoundUpKeepsHalfHours | src/Entity/TimeEntry.php:207-211 | hours that are already a whole number of half hours are billed unchanged |
| Billing.RoundUpIdempotent | src/Entity/TimeEntry.php:207-211 | rounding twice equals rounding once |
| Billing.RoundUpMonotone | src/Entity/TimeEntry.php:207-211 | more hours are never billed as fewer |
| Billing.RoundToHundredths | src/Entity/TimeEntry.php:216-221 | `round(x, 2)`: the result is within half a hundredth of x, with halves going away from zero |
| Billing.RoundToHundredthsUnique | src/Entity/TimeEntry.php:216-221 | the rounding bounds determine the rounded amount uniquely |
| Billing.BilledAmount | src/Entity/TimeEntry.php:216-221 | billed hours × rate, rounded half away from zero to hundredths |
| Billing.BillingExample | src/Entity/TimeEntry.php:207-221 | 1.10 h is billed as 1.50 h; 1.50 h at 80.00 is 120.00 |
| Billing.TimeEntry.CalculateBilledHours | src/Entity/TimeEntry.php:207-211 | the entry's hours (0 when unset) rounded up to a multiple of 0.50 |
| Billing.TimeEntry.CalculateBilledAmount | src/Entity/TimeEntry.php:216-221 | the amount lies within half a hundredth of the exact product of the stored billed hours and rate snapshot (0 when unset), halves going away from zero, so by Billing.RoundToHundredthsUnique it is that product rounded to two decimals |
| Billing.TimeEntry.SetHours | src/Entity/TimeEntry.php:76-81 | only `hours` changes; the billed amount computed from the stored billed hours is unchanged |
| Billing.TimeEntry.SetDescription | src/Entity/TimeEntry.php:64-69 | `description` becomes the given value and no other field of the entry changes |
| Billing.TimeEntry.SetHourlyRateSnapshot | src/Entity/TimeEntry.php:100-105 | `hourlyRateSnapshot` becomes the given value and no other field of the entry changes |
| Billing.TimeEntry.SetBilledAmount | src/Entity/TimeEntry.php:112-117 | `billedAmount` becomes the given value and no other field of the entry changes |
| Billing.TimeEntry.SetWorkDate | src/Entity/TimeEntry.php:124-129 | `workDate` becomes the given value and no other field of the entry changes |
| Billing.TimeEntry.SetCreatedAt | src/Entity/TimeEntry.php:136-141 | `createdAt` becomes the given value and no other field of the entry changes |
| Billing.TimeEntry.SetUpdatedAt | src/Entity/TimeEntry.php:148-153 | `updatedAt` becomes the given value and no other field of the entry changes |
| Billing.TimeEntry.SetTicket | src/Entity/TimeEntry.php:160-165 | `ticket` becomes the given value and no other field of the entry changes |
| Billing.TimeEntry.SetCreatedBy | src/Entity/TimeEntry.php:172-177 | `createdBy` becomes the given value and no other field of the entry changes |
| Billing.TimeEntry.SetOrganization | src/Entity/TimeEntry.php:184-189 | `organization` becomes the given value and no other field of the entry changes |
| Billing.TimeEntry.SetBilledHours | src/Entity/TimeEntry.php:88-93 | only `billedHours` changes; the billed-hours computation from `hours` is unchanged |
| Billing.TimeEntry.SetCreatedAtValue | src/Entity/TimeEntry.php:191-196 | the pre-persist hook sets `createdAt` and `updatedAt` from the clock and nothing else |
| Billing.TimeEntry.SetUpdatedAtValue | src/Entity/TimeEntry.php:198-202 | the pre-update hook sets only `updatedAt` |
| Calendar.MonthWindowIsMonth | src/Repository/TimeEntryRepository.php:122-142 | a valid date lies between the first and the last day of a month exactly when it has that year and month |
| Domain.OrganizationUsers | src/EventSubscriber/AlertSubscriber.php:63 | a user is an organization's member exactly when their organization is it |
| Domain.RecencyKeyOrder | src/Repository/TimeEntryRepository.php:64-74 | the sort key orders rows by work date descending, then creation time descending |
| Domain.NewestFirst | src/Repository/TimeEntryRepository.php:64-74 | the listing is a permutation of its input, ordered newest first |
| Domain.RecencyQuery | src/Repository/ActivityRepository.php:27-36 | the selected rows, each as often as stored, none other, ordered newest first |
| TimeEntryRepository.FindByTicket | src/Repository/TimeEntryRepository.php:27-36 | exactly the ticket's entries (with multiplicity), newest first |
| TimeEntryRepository.FindByOrganization | src/Repository/TimeEntryRepository.php:45-56 | exactly the organization's entries, newest first |
| TimeEntryRepository.FindAllOrderedByDate | src/Repository/TimeEntryRepository.php:64-74 | every entry exactly once, newest first |
| TimeEntryRepository.FindByDateRange | src/Repository/TimeEntryRepository.php:84-112 | exactly the entries inside the optional bounds (inclusive) and of the optional organization, newest first |
| TimeEntryRepository.DateRangeUnbounded | src/Repository/TimeEntryRepository.php:84-112 | without bounds or organization the range query equals the full listing |
| TimeEntryRepository.DateRangeOrganizationOnly | src/Repository/TimeEntryRepository.php:84-112 | with only an organization it equals the organization listing |
| TimeEntryRepository.CalculateMonthlyTotal | src/Repository/TimeEntryRepository.php:122-142 | the total is the sum over all stored rows of each row's billed amount when it is the organization's and dated within the month, and 0 for every other row, the year and month defaulting to today's; MonthlyTotalNoMatch, MonthlyTotalAppend, MonthlyTotalIsRangeSum and MonthlyTotalDefaultsToToday state its consequences |
| TimeEntryRepository.MonthlyTotalNoMatch | src/Repository/TimeEntryRepository.php:122-142 | the total is zero when no entry of the organization lies in the month (`?? 0`) |
| TimeEntryRepository.MonthlyTotalAppend | src/Repository/TimeEntryRepository.php:122-142 | adding an entry adds its billed amount if it lies in the month, nothing otherwise |
| TimeEntryRepository.MonthlyTotalOrderFree | src/Repository/TimeEntryRepository.php:122-142 | the total does not depend on the order of the stored rows |
| TimeEntryRepository.MonthlyTotalDefaultsToToday | src/Repository/TimeEntryRepository.php:124-125 | a missing year or month is taken from today's date |
| TimeEntryRepository.MonthlyTotalIsRangeSum | src/Repository/TimeEntryRepository.php:122-142 | the total is the sum of billed amounts over the range query from the month's first to last day |
| ActivityRepository.FindByTicket | src/Repository/ActivityRepository.php:27-36 | exactly the ticket's activities, newest first |
| ActivityRepository.FindByOrganization | src/Repository/ActivityRepository.php:45-56 | exactly the organization's activities, newest first |
| ActivityRepository.FindAllOrderedByDate | src/Repository/ActivityRepository.php:64-74 | every activity exactly once, newest first |
| ActivityRepository.FindByDateRange | src/Repository/ActivityRepository.php:84-112 | exactly the activities inside the optional bounds and of the optional organization, newest first |
| ActivityRepository.DateRangeUnbounded | src/Repository/ActivityRepository.php:84-112 | without bounds or organization the range query equals the full listing |
| ActivityRepository.DateRangeOrganizationOnly | src/Repository/ActivityRepository.php:84-112 | with only an organization it equals the organization listing |
| TicketRepository.PriorityKeyOrder | src/Repository/TicketRepository.php:43-47 | the sort key orders unresolved before resolved, then priority descending, then newest first |
| TicketRepository.FindAllOrderedByPriority | src/Repository/TicketRepository.php:59-79 | exactly the tickets shown (resolved ones only when asked), in priority order |
| TicketRepository.FindByOrganizationOrderedByPriority | src/Repository/TicketRepository.php:28-50 | exactly the organization's shown tickets, in priority order |
| TicketRepository.ResolvedLast | src/Repository/TicketRepository.php:43-47 | no resolved ticket is listed before an unresolved one |
| TicketRepository.ListingMembership | src/Repository/TicketRepository.php:28-50 | a ticket is listed iff it is the organization's and either resolved tickets are included or its status slug is not "resolved" |
| TicketRepository.ClosedTicketsListed | src/Repository/TicketRepository.php:36-40 | only the slug "resolved" is excluded: a "closed" ticket is still listed |
| TicketRepository.IncludeResolvedIsPermutation | src/Repository/TicketRepository.php:28-50 | with resolved tickets included the listing is a permutation of the organization's tickets |
| TicketRepository.OrganizationListingIsRestriction | src/Repository/TicketRepository.php:28-79 | the organization listing equals the global listing over that organization's tickets |
| AlertSubscriber.Subscribers | src/EventSubscriber/AlertSubscriber.php:62-65 | a user receives alerts iff they are a member with alerts enabled and a threshold set |
| AlertSubscriber.SendAlerts | src/EventSubscriber/AlertSubscriber.php:84-91 | the loop sends exactly the expected alert of every subscriber whose threshold was crossed, in subscriber order |
| AlertSubscriber.CheckThresholdExceeded | src/EventSubscriber/AlertSubscriber.php:58-92 | the total is queried iff someone is subscribed, and the mails sent are the expected alerts of every subscriber, in order |
| AlertSubscriber.PostPersist | src/EventSubscriber/AlertSubscriber.php:26-33 | a created time entry is checked with previous total = current − its amount; other entities send nothing |
| AlertSubscriber.PostUpdate | src/EventSubscriber/AlertSubscriber.php:38-53 | only a time entry whose billed amount changed is checked, with the old amount from the change set |
| AlertSubscriber.AlertsSound | src/EventSubscriber/AlertSubscriber.php:84-91 | every alert goes to a subscriber whose threshold lies in (previous, current] and carries the current total and that threshold |
| AlertSubscriber.AlertsComplete | src/EventSubscriber/AlertSubscriber.php:84-91 | every subscriber whose threshold was crossed gets an alert |
| AlertSubscriber.AlertedIffCrossed | src/EventSubscriber/AlertSubscriber.php:84-91 | a subscriber is alerted iff previous < threshold ≤ current |
| AlertSubscriber.NoAlertWithoutIncrease | src/EventSubscriber/AlertSubscriber.php:84-91 | when the total did not grow, nobody is alerted |
| AlertSubscriber.AtMostOneAlertPerUser | src/EventSubscriber/AlertSubscriber.php:84-91 | distinct subscribers get at most one alert each |
| AlertSubscriber.OnlySubscribersAlerted | src/EventSubscriber/AlertSubscriber.php:58-92 | every alert of a check goes to a subscribed member of the entry's organization |
| AlertSubscriber.PreviousTotalOnCreate | src/EventSubscriber/AlertSubscriber.php:75-81 | for a new entry in the month, the derived previous total is the month's total before it was stored |
| AlertSubscriber.PreviousTotalOnUpdate | src/EventSubscriber/AlertSubscriber.php:75-81 | for an updated entry in the month, the derived previous total is the total with the old amount |
| AlertSubscriber.ExampleTotals | src/Repository/TimeEntryRepository.php:122-142 | in the example store, the current month totals 150.00 with or without an entry dated the previous month |
| AlertSubscriber.ExampleSubscribers | src/EventSubscriber/AlertSubscriber.php:62-65 | in the example, exactly the one subscribed member is selected |
| AlertSubscriber.BackdatedEntryAlertsAgain | src/EventSubscriber/AlertSubscriber.php:72-91 | adding an entry dated last month leaves this month's total unchanged yet sends the alert again, since its amount is subtracted from a total it is not part of |
| AlertSubscriber.UpdateScenario | src/EventSubscriber/AlertSubscriber.php:38-53 | an update from 40.00 to 70.00 that brings the month to 110.00 derives a previous total of 80.00 and so crosses a 100.00 threshold |
| NotificationSubscriber.PutMembership | src/EventSubscriber/NotificationSubscriber.php:74-86 | after `$recipients[$id] = $u`, the array holds u and every earlier user with another id |
| NotificationSubscriber.PutAllMembership | src/EventSubscriber/NotificationSubscriber.php:74-86 | adding a list keyed by id holds exactly the old and the new users and keeps ids distinct |
| NotificationSubscriber.PutAllDistinct | src/EventSubscriber/NotificationSubscriber.php:74-86 | the keyed array never holds two users with one id |
| NotificationSubscriber.RecipientsMembership | src/EventSubscriber/NotificationSubscriber.php:70-91 | a user is a recipient iff they are an admin or an organization member, and are not the excluded user |
| NotificationSubscriber.RecipientsDistinct | src/EventSubscriber/NotificationSubscriber.php:70-91 | recipients have distinct ids, and the excluded user is absent |
| NotificationSubscriber.GetNotificationRecipients | src/EventSubscriber/NotificationSubscriber.php:70-91 | the loops build exactly the keyed union of admins and members, minus the excluded id |
| NotificationSubscriber.NotifyTicketCreated | src/EventSubscriber/NotificationSubscriber.php:93-103 | one ticket-created mail per recipient (the creator excluded), in recipient order |
| NotificationSubscriber.NotifyCommentAdded | src/EventSubscriber/NotificationSubscriber.php:105-115 | one comment mail per recipient (the author excluded), in recipient order |
| NotificationSubscriber.NotifyStatusChanged | src/EventSubscriber/NotificationSubscriber.php:117-130 | nothing without an application user; otherwise one status mail with the old and new status per recipient except the actor |
| NotificationSubscriber.PostPersist | src/EventSubscriber/NotificationSubscriber.php:31-44 | new tickets and comments notify; other entities send nothing |
| NotificationSubscriber.PostUpdate | src/EventSubscriber/NotificationSubscriber.php:49-65 | only a ticket whose status changed notifies, with the status pair from the change set |
| AdminController.Find | src/Controller/AdminController.php:45 | `isset`: a position whose group has the key, or -1 exactly when no group has it |
| AdminController.OpenGroup | src/Controller/AdminController.php:45-54 | opening the group of a month not seen yet, with the activity in it, keeps every group summarizing its month |
| AdminController.ExtendGroup | src/Controller/AdminController.php:53-54 | appending an activity to its month's existing group keeps every group summarizing its month |
| AdminController.AddSummarizes | src/Controller/AdminController.php:43-57 | one pass of the loop turns a summary of the activities so far into a summary of them plus the next one |
| AdminController.GroupedSummarizes | src/Controller/AdminController.php:41-58 | the loop's groups hold exactly each month's activities in order, labelled by the first, with their hours; months are distinct and every activity's month is present; sizes and hours add up to the listing's |
| AdminController.GroupByMonth | src/Controller/AdminController.php:38-58 | the loop computes the grouping of the listing and the sum of all its hours |
| AdminController.SortLatestFirst | src/Controller/AdminController.php:61 | `krsort`: the groups are a permutation, ordered by month strictly latest first |
| AdminController.Activities | src/Controller/AdminController.php:31-68 | each group holds exactly the listed activities of its month, in listing order, with their hour total; every month appears once, latest first; the entry and hour totals are those of all activities |
| InvitationEntity.Hex | src/Entity/UserInvitation.php:137-140 | `bin2hex`: twice as many characters, all lower-case hex digits |
| InvitationEntity.UnhexHex | src/Entity/UserInvitation.php:137-140 | decoding a token gives back its bytes |
| InvitationEntity.HexUnhex | src/Entity/UserInvitation.php:137-140 | every even-length lower-case hex string is the encoding of its decoding |
| InvitationEntity.HexInjective | src/Entity/UserInvitation.php:137-140 | distinct random byte strings give distinct tokens |
| InvitationEntity.UserInvitation.constructor | src/Entity/UserInvitation.php:33-37 | a new invitation has the 64-character token of its 32 random bytes and expires 48 hours after now |
| InvitationEntity.UserInvitation.IsExpired | src/Entity/UserInvitation.php:113-116 | expired iff now is after the expiry instant |
| InvitationEntity.UserInvitation.IsAccepted | src/Entity/UserInvitation.php:121-124 | accepted iff an acceptance instant is set |
| InvitationEntity.UserInvitation.IsValid | src/Entity/UserInvitation.php:129-132 | valid iff neither expired nor accepted |
| InvitationEntity.UserInvitation.SetUser | src/Entity/UserInvitation.php:49-54 | `user` becomes the given value and no other field of the invitation changes |
| InvitationEntity.UserInvitation.SetToken | src/Entity/UserInvitation.php:61-66 | `token` becomes the given value and no other field of the invitation changes |
| InvitationEntity.UserInvitation.SetExpiresAt | src/Entity/UserInvitation.php:73-78 | `expiresAt` becomes the given value and no other field of the invitation changes |
| InvitationEntity.UserInvitation.SetCreatedAt | src/Entity/UserInvitation.php:85-90 | `createdAt` becomes the given value and no other field of the invitation changes |
| InvitationEntity.UserInvitation.SetAcceptedAt | src/Entity/UserInvitation.php:97-102 | once accepted, the invitation is invalid at every instant |
| InvitationEntity.UserInvitation.SetCreatedAtValue | src/Entity/UserInvitation.php:104-108 | the pre-persist hook sets only `createdAt` |
| UserInvitationRepository.FindValidByToken | src/Repository/UserInvitationRepository.php:22-32 | a found row carries the token, is unaccepted and has expiresAt > now; nothing is found iff no such row exists |
| UserInvitationRepository.FoundIsValid | src/Repository/UserInvitationRepository.php:22-32 | a found invitation is valid by the entity's rule |
| UserInvitationRepository.ExpiryInstantMismatch | src/Entity/UserInvitation.php:113-116 | at now == expiresAt the entity says valid but the query finds nothing |
| UserInvitationRepository.Unexpired | src/Repository/UserInvitationRepository.php:37-45 | kept rows are exactly those with expiresAt ≥ now (accepted or not), and the count removed is the number with expiresAt < now |
| UserInvitationRepository.Database.DeleteExpired | src/Repository/UserInvitationRepository.php:37-45 | the store keeps exactly the unexpired rows and returns how many it deleted |
| UserInvitationRepository.FoundAtTokenIndex | src/Repository/UserInvitationRepository.php:22-32 | a found invitation is the stored row with that token |
| InvitationController.AcceptedTokenNeverFound | src/Controller/InvitationController.php:28-33 | once accepted, a token is never found again at any instant |
| InvitationController.Accept | src/Controller/InvitationController.php:19-66 | unknown or invalid token redirects to login with nothing changed; without a valid form the invitation is shown; on submit the user's password hash is replaced, the invitation is marked accepted at the clock's instant and the user is logged in; the token is then never found again |
| AdminUserController.New | src/Controller/AdminUserController.php:35-77 | non-admins are refused; without a valid form nothing changes; otherwise a verified user with a fresh id and its one invitation are stored and one invitation mail names them; a clashing token stores nothing |
| AdminUserController.ResendInvitation | src/Controller/AdminUserController.php:88-131 | unknown user 404; bad CSRF or non-admin 403; no invitation or an accepted one changes nothing; otherwise the old row is replaced by a fresh one for the same user and one mail is sent |
| AdminUserController.Delete | src/Controller/AdminUserController.php:134-145 | the user and their invitation are removed only by an admin with a valid CSRF token; otherwise nothing changes |
| AdminUserController.NewInvitationIsTheUsers | src/Controller/AdminUserController.php:54-59 | the stored invitation is the only one of its user and is valid until it expires |
| Voters.TicketVote | src/Security/Voter/TicketVoter.php:20-47 | abstains unless TICKET_EDIT/TICKET_DELETE on a ticket; grants iff an application user who is admin or in the ticket's organization |
| Voters.CommentVote | src/Security/Voter/CommentVoter.php:20-44 | abstains unless COMMENT_EDIT/COMMENT_DELETE on a comment; grants iff an application user who is admin or the author |
| Voters.OrganizationVote | src/Security/Voter/OrganizationVoter.php:19-42 | abstains unless ORGANIZATION_ACCESS on an organization; grants iff an application user who is admin or a member |
| Voters.TimeEntryVote | src/Security/Voter/TimeEntryVoter.php:20-49 | abstains unless TIMEENTRY_EDIT/TIMEENTRY_DELETE on a time entry; grants iff an admin user |
| Voters.ActivityVote | src/Security/Voter/ActivityVoter.php:20-49 | abstains unless ACTIVITY_EDIT/ACTIVITY_DELETE on an activity; grants iff an admin user |
| Voters.AdminAlwaysGranted | src/Security/Voter/TicketVoter.php:40-42 | every voter grants an admin user whatever it supports |
| Voters.NonUserNeverGranted | src/Security/Voter/TicketVoter.php:33-35 | no voter grants a token without an application user |
| Voters.EditAndDeleteAgree | src/Security/Voter/TicketVoter.php:28-47 | EDIT and DELETE get the same verdict from each voter |
| Voters.CreatorIsNotEnough | src/Security/Voter/TimeEntryVoter.php:43-48 | a non-admin creator may not edit or delete their own time entry or activity |
| Voters.SupportsDisjoint | src/Security/Voter/OrganizationVoter.php:19-22 | no two voters support the same attribute and subject |
| OrganizationValueResolver.FindOneBySlug | src/Resolver/OrganizationValueResolver.php:33 | finds an organization with the slug, and finds none only when none has it |
| OrganizationValueResolver.Resolve | src/Resolver/OrganizationValueResolver.php:18-45 | non-Organization arguments and falsy slugs (null, "", "0") yield nothing; an unknown slug is 404; a yielded organization is active and has the route's slug |
| OrganizationValueResolver.ResolvedIffActive | src/Resolver/OrganizationValueResolver.php:33-44 | with unique slugs an existing organization is yielded iff active, 404 otherwise |
| OrganizationValueResolver.NoLookupForOtherArguments | src/Resolver/OrganizationValueResolver.php:21-23 | for other argument types the table is irrelevant |
| TicketController.TicketGuard | src/Controller/TicketController.php:136-141 | show/edit/delete pass iff an application user who is admin, or a member of the route's organization addressing one of its tickets; a member addressing another organization's ticket gets 404 |
| TicketController.CommentGuard | src/Controller/TicketController.php:313-326 | pass iff the comment belongs to the route's ticket and the user is admin, or its author within the route's organization; a wrong ticket id is 404 even for admins |
| TicketController.AttachmentGuard | src/Controller/TicketController.php:464-477 | pass iff the attachment has a ticket that is the route's ticket, the organization check holds, and the user uploaded it; 404 iff it has a ticket but the wrong one or (for non-admins) one of another organization; a server error iff the organization check passes and the attachment has no ticket |
| TicketController.Remove | src/Controller/TicketController.php:288-293 | a removal happens iff the guards pass and the CSRF token is valid |
| TicketController.DeleteTicket | src/Controller/TicketController.php:274-299 | the request gets past the guards iff an application user is an admin or a member of the route's organization addressing one of its tickets; the ticket is removed iff that holds and the CSRF token is valid; a member addressing another organization's ticket gets 404 |
| TicketController.DeleteComment | src/Controller/TicketController.php:302-339 | past the guards iff the comment is under the route's ticket and the user is an admin, or is its author and a member of the route's organization, which owns the ticket; removed iff also the CSRF token is valid; 404 iff past ORGANIZATION_ACCESS with the wrong ticket or (for non-admins) another organization's ticket |
| TicketController.DeleteAttachment | src/Controller/TicketController.php:449-497 | past the guards iff the attachment has the route's ticket, the organization check holds and the user uploaded it; removed iff also the CSRF token is valid; a server error iff past ORGANIZATION_ACCESS with a ticketless (comment) attachment |
| TicketController.CommentAttachmentGuard | src/Controller/TicketController.php:552-565 | pass iff the attachment belongs to the route's comment, the comment to the route's ticket, and (for non-admins) the ticket to the user's and route's organization; 404 iff past ORGANIZATION_ACCESS and any of these fails; the uploader is never asked |
| TicketController.DeleteCommentAttachment | src/Controller/TicketController.php:536-584 | removed iff the comment-attachment guards pass and the CSRF token is valid; it never fails with a server error |
| TicketController.AnyMemberRemovesCommentAttachment | src/Controller/TicketController.php:552-576 | any member of the route's organization removes a comment attachment under that organization's ticket, whoever uploaded it |
| TicketController.NoRemovalWithoutCsrf | src/Controller/TicketController.php:329-334 | without a valid CSRF token no ticket, comment or attachment is removed |
| TicketController.NonAdminRemovesOnlyInOwnOrganization | src/Controller/TicketController.php:281-283 | what a non-admin removes belongs to the route's organization, which is theirs |
| TicketController.DeleteAttachmentCrashesOnCommentAttachment | src/Controller/TicketController.php:464-466 | addressed to `deleteAttachment`, an attachment uploaded with a comment has no ticket (`show` sets only its comment, src/Controller/TicketController.php:162-168), so the request fails with a server error for everyone past the organization check, its uploader included; such attachments are removed through `deleteCommentAttachment` instead |
| TicketController.OnlyUploaderRemovesAttachment | src/Controller/TicketController.php:475-477 | through `deleteAttachment`, a ticket attachment is refused to anyone but its uploader, admins included |
| TicketController.MisaddressedCommentNotFound | src/Controller/TicketController.php:316-318 | a comment under the wrong ticket id is 404 for everyone past the ORGANIZATION_ACCESS check, admins included, before the ticket-organization check (lines 320-323 and 364-367) |
| TicketController.BoundTicket.Bind | src/Controller/TicketController.php:74 | the submitted fields overwrite the ticket's, the others stay |
| TicketController.DefaultStatus | src/Controller/TicketController.php:66-69 | the default status, if any, is a status with slug "open" |
| TicketController.New | src/Controller/TicketController.php:54-120 | refused without organization access; a non-admin's ticket always lands in the route's organization; an admin filing it elsewhere is redirected to the admin dashboard |
| TicketController.Edit | src/Controller/TicketController.php:192-272 | refused as the guards say; a non-admin's submission leaves status and organization as stored; an admin's takes effect |

## Left out

- Floating point: PHP floats and decimal strings are exact hundredths here, and `number_format` and the `'Y-m'`/`'F Y'` date formatting are left out. The month key of the activities report is (year, month). Its `krsort` string order agrees with that for four-digit years.
- Mail delivery, templates, translations, flash messages and URL generation are left out. A sent mail is a value in the returned sequence.
- The ORM is left out: SQL joins, lazy loading, transactions and concurrent requests. Queries are pure functions over the stored rows. `getOneOrNullResult` is modelled as the first matching row, since the unique token makes it at most one.
- The SQL order among rows with equal sort keys is unspecified. The model proves the listing is sorted and a permutation of the selection, but not a particular order among ties.
- Forms: field constraints and validation are left out. A valid submission is an `Option` parameter. The ticket form's disabled or absent fields are whatever `Submission` carries, which is why the restore rule is proved for every submission.
- Password hashing and `random_bytes` are left out. The hash and the bytes are parameters.
- The admins query of the notification subscriber (`findByRole('ROLE_ADMIN')`) is left out. The admins are a parameter.
- The upload, download and file-removal steps of the ticket controller, and its other actions, are left out.
- `'+48 hours'` is modelled as 172800 seconds. Daylight-saving shifts of the server time zone are left out.
- Unique e-mail addresses of users are not modelled, so a clash on e-mail in `new` is not a case.
- TimeEntryRepository.CalculateMonthlyTotal: requires the month (given or today's) to be in 1..12, because the PHP date constructor for another month is not part of this model.
- AdminUserController.Delete: removing the user's invitation with the user is an assumption about src/Entity/User.php, which is not part of this model. The delete always succeeds here. Neither an orphaned invitation (foreign keys unenforced) nor a refused delete (foreign keys enforced, including users referenced by tickets or time entries) is modelled.
- TimeEntryRepository.FindByDateRange, TimeEntryRepository.CalculateMonthlyTotal, ActivityRepository.FindByDateRange: dates are compared as dates, so both bounds are inclusive, as the DQL reads. The ORM's parameter encoding is not modelled. If a date bound is sent as datetime text (`'2025-01-01 00:00:00'`) and compared as text with a DATE column holding `'2025-01-01'` (as SQLite would), rows dated on the start day fall out of the result and out of the monthly total. The end bound is unaffected, because a date is a prefix of its own midnight datetime text.
- InvitationEntity.UserInvitation.IsExpired, UserInvitationRepository.ExpiryInstantMismatch: instants are whole seconds, so in the model the entity and the query disagree during the whole second `now == expiresAt`. In the source the clock reading has microseconds and `expiresAt` is stored at whole seconds. During that second both already say expired, except at the exact reading `.000000`. So the real mismatch lasts one microsecond-precision instant, not one second. Sub-second clock readings are not modelled.
- The role hierarchy and firewall that answer `isGranted('ROLE_ADMIN')` are not part of this model; the answer is the `isAdmin` parameter.
