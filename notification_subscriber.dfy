/**
 * The activity notifications (src/EventSubscriber/NotificationSubscriber.php).
 * A new ticket, a new comment and a ticket status change each notify every
 * administrator and every user of the ticket's organization, once each,
 * except the user who caused the change.  The recipient list is PHP's
 * id-keyed ordered array; here a sequence of users in insertion order in
 * which an assignment under an existing id replaces that element in place.
 * `findByRole('ROLE_ADMIN')` is a query this model receives as `admins`.
 */
module NotificationSubscriber {
  import opened Wrappers
  import opened Collections
  import opened Domain

  function Id(u: User): UserId { u.id }

  /** The id identifies the user: one object per row, as the ORM hands out. */
  ghost predicate OneUserPerId(users: seq<User>)
  {
    forall a, b :: a in users && b in users && a.id == b.id ==> a == b
  }

  /** `$recipients[$u->getId()] = $u`: replaces the entry under that id where it is, or appends. */
  function Put(recipients: seq<User>, u: User): seq<User>
  {
    if recipients == [] then [u]
    else if recipients[0].id == u.id then [u] + recipients[1..]
    else [recipients[0]] + Put(recipients[1..], u)
  }

  /** A `foreach` of `Put`s. */
  function PutAll(recipients: seq<User>, users: seq<User>): seq<User>
  {
    if users == [] then recipients
    else Put(PutAll(recipients, users[..|users| - 1]), users[|users| - 1])
  }

  /** `unset($recipients[$id])`. */
  function Unset(recipients: seq<User>, id: UserId): seq<User>
  {
    Filter(recipients, (u: User) => u.id != id)
  }

  /** The array `getNotificationRecipients` returns. */
  function Recipients(admins: seq<User>, orgUsers: seq<User>, exclude: UserId): seq<User>
  {
    Unset(PutAll(PutAll([], admins), orgUsers), exclude)
  }

  /** Every element of the result is the put user or an element of the input. */
  lemma {:induction false} PutElements(recipients: seq<User>, u: User, w: User)
    requires w in Put(recipients, u)
    ensures w == u || w in recipients
    decreases |recipients|
  {
    if recipients != [] && recipients[0].id != u.id && w != recipients[0] {
      PutElements(recipients[1..], u, w);
    }
  }

  /** The put user is present, and so is every element under another id. */
  lemma {:induction false} PutKeeps(recipients: seq<User>, u: User, w: User)
    requires w == u || (w in recipients && w.id != u.id)
    ensures w in Put(recipients, u)
    decreases |recipients|
  {
    if recipients != [] && recipients[0].id != u.id && w != recipients[0] {
      if w != u { assert w in recipients[1..]; }
      PutKeeps(recipients[1..], u, w);
    }
  }

  /** Putting keeps the ids distinct. */
  lemma {:induction false} PutDistinct(recipients: seq<User>, u: User)
    requires Injective(recipients, Id)
    ensures Injective(Put(recipients, u), Id)
    decreases |recipients|
  {
    if recipients != [] {
      var t := recipients[1..];
      InjectiveRemove(recipients, 0, Id);
      assert recipients[..0] + recipients[1..] == t;
      if recipients[0].id == u.id {
        InjectiveCons(u, t, Id);
      } else {
        PutDistinct(t, u);
        forall z | z in Put(t, u) ensures z.id != recipients[0].id {
          PutElements(t, u, z);
        }
        InjectiveCons(recipients[0], Put(t, u), Id);
      }
    }
  }

  /** In a list with distinct ids, `Put` replaces exactly the entry under `u`'s id. */
  lemma PutMembership(recipients: seq<User>, u: User, w: User)
    requires Injective(recipients, Id)
    ensures w in Put(recipients, u) <==> w == u || (w in recipients && w.id != u.id)
  {
    if w in Put(recipients, u) {
      PutElements(recipients, u, w);
      if w != u && w.id == u.id {
        PutNoStale(recipients, u, w);
      }
    } else if w == u || (w in recipients && w.id != u.id) {
      PutKeeps(recipients, u, w);
    }
  }

  /** With distinct ids, no older entry under `u`'s id survives a `Put`. */
  lemma {:induction false} PutNoStale(recipients: seq<User>, u: User, w: User)
    requires Injective(recipients, Id)
    requires w != u && w.id == u.id
    ensures w !in Put(recipients, u)
    decreases |recipients|
  {
    if recipients != [] {
      var t := recipients[1..];
      InjectiveRemove(recipients, 0, Id);
      assert recipients[..0] + recipients[1..] == t;
      if recipients[0].id != u.id {
        PutNoStale(t, u, w);
      }
    }
  }

  lemma {:induction false} PutAllMembership(recipients: seq<User>, users: seq<User>, w: User)
    requires Injective(recipients, Id)
    requires OneUserPerId(recipients + users)
    ensures w in PutAll(recipients, users) <==> w in recipients || w in users
    ensures Injective(PutAll(recipients, users), Id)
    decreases |users|
  {
    if users != [] {
      var n := |users| - 1;
      var front, x := users[..n], users[n];
      assert users == front + [x];
      assert forall z :: z in recipients + front ==> z in recipients + users;
      PutAllMembership(recipients, front, w);
      var before := PutAll(recipients, front);
      PutAllDistinct(recipients, front);
      PutMembership(before, x, w);
      PutDistinct(before, x);
      if w in recipients + users {
        assert x in recipients + users;
      }
    } else {
      assert PutAll(recipients, users) == recipients;
    }
  }

  /**
   * The recipients are exactly the administrators and the organization's
   * users other than the excluded one.
   */
  lemma RecipientsMembership(admins: seq<User>, orgUsers: seq<User>, exclude: UserId, u: User)
    requires OneUserPerId(admins + orgUsers)
    ensures u in Recipients(admins, orgUsers, exclude) <==> (u in admins || u in orgUsers) && u.id != exclude
  {
    assert [] + admins == admins;
    assert forall z :: z in admins ==> z in admins + orgUsers;
    PutAllMembership([], admins, u);
    var merged := PutAll([], admins);
    forall z | z in merged + orgUsers ensures z in admins + orgUsers {
      PutAllMembership([], admins, z);
    }
    assert OneUserPerId(merged + orgUsers);
    PutAllMembership(merged, orgUsers, u);
    FilterMembership(PutAll(merged, orgUsers), (v: User) => v.id != exclude, u);
  }

  /** No id occurs twice among the recipients, and the excluded id not at all. */
  lemma RecipientsDistinct(admins: seq<User>, orgUsers: seq<User>, exclude: UserId)
    ensures Injective(Recipients(admins, orgUsers, exclude), Id)
    ensures forall u :: u in Recipients(admins, orgUsers, exclude) ==> u.id != exclude
  {
    assert Injective([], Id);
    PutAllDistinct([], admins);
    PutAllDistinct(PutAll([], admins), orgUsers);
    var merged := PutAll(PutAll([], admins), orgUsers);
    FilterInjective(merged, (v: User) => v.id != exclude, Id);
    forall u | u in Recipients(admins, orgUsers, exclude) ensures u.id != exclude {
      FilterMembership(merged, (v: User) => v.id != exclude, u);
    }
  }

  /** Every `Put` keeps the ids distinct, whatever users are put. */
  lemma {:induction false} PutAllDistinct(recipients: seq<User>, users: seq<User>)
    requires Injective(recipients, Id)
    ensures Injective(PutAll(recipients, users), Id)
    decreases |users|
  {
    if users != [] {
      var n := |users| - 1;
      PutAllDistinct(recipients, users[..n]);
      PutDistinct(PutAll(recipients, users[..n]), users[n]);
    }
  }

  /** `getNotificationRecipients`: two insertion loops, then the excluded id is removed. */
  method GetNotificationRecipients(admins: seq<User>, users: seq<User>, org: OrganizationId, exclude: UserId)
    returns (recipients: seq<User>)
    ensures recipients == Recipients(admins, OrganizationUsers(users, org), exclude)
  {
    var orgUsers := OrganizationUsers(users, org);
    recipients := [];
    var i := 0;
    while i < |admins|
      invariant 0 <= i <= |admins|
      invariant recipients == PutAll([], admins[..i])
    {
      assert admins[..i + 1][..i] == admins[..i];
      recipients := Put(recipients, admins[i]);
      i := i + 1;
    }
    assert admins[..i] == admins;
    var merged := recipients;
    var k := 0;
    while k < |orgUsers|
      invariant 0 <= k <= |orgUsers|
      invariant recipients == PutAll(merged, orgUsers[..k])
    {
      assert orgUsers[..k + 1][..k] == orgUsers[..k];
      recipients := Put(recipients, orgUsers[k]);
      k := k + 1;
    }
    assert orgUsers[..k] == orgUsers;
    recipients := Unset(recipients, exclude);
  }

  /** `notifyTicketCreated`: one mail per recipient, the creator excluded. */
  method NotifyTicketCreated(ticket: Ticket, admins: seq<User>, users: seq<User>) returns (sent: seq<Mail>)
    ensures var rs := Recipients(admins, OrganizationUsers(users, ticket.organization), ticket.createdBy);
      |sent| == |rs| && forall k :: 0 <= k < |rs| ==> sent[k] == TicketCreatedNotification(ticket.id, rs[k])
  {
    var recipients := GetNotificationRecipients(admins, users, ticket.organization, ticket.createdBy);
    sent := [];
    for i := 0 to |recipients|
      invariant |sent| == i
      invariant forall k :: 0 <= k < i ==> sent[k] == TicketCreatedNotification(ticket.id, recipients[k])
    {
      sent := sent + [TicketCreatedNotification(ticket.id, recipients[i])];
    }
  }

  /** `notifyCommentAdded`: the ticket's organization, the author excluded. */
  method NotifyCommentAdded(comment: Comment, admins: seq<User>, users: seq<User>) returns (sent: seq<Mail>)
    ensures var rs := Recipients(admins, OrganizationUsers(users, comment.ticket.organization), comment.author);
      |sent| == |rs| && forall k :: 0 <= k < |rs| ==> sent[k] == CommentAddedNotification(comment.id, rs[k])
  {
    var recipients := GetNotificationRecipients(admins, users, comment.ticket.organization, comment.author);
    sent := [];
    for i := 0 to |recipients|
      invariant |sent| == i
      invariant forall k :: 0 <= k < i ==> sent[k] == CommentAddedNotification(comment.id, recipients[k])
    {
      sent := sent + [CommentAddedNotification(comment.id, recipients[i])];
    }
  }

  /** `notifyStatusChanged`: nothing without a logged-in `User`, who is then excluded. */
  method NotifyStatusChanged(ticket: Ticket, oldStatus: Status, newStatus: Status, current: Principal, admins: seq<User>, users: seq<User>)
    returns (sent: seq<Mail>)
    ensures !current.AppUser? ==> sent == []
    ensures current.AppUser? ==>
      var rs := Recipients(admins, OrganizationUsers(users, ticket.organization), current.user.id);
      |sent| == |rs| && forall k :: 0 <= k < |rs| ==> sent[k] == StatusChangedNotification(ticket.id, rs[k], oldStatus, newStatus)
  {
    if !current.AppUser? {
      return [];
    }
    var recipients := GetNotificationRecipients(admins, users, ticket.organization, current.user.id);
    sent := [];
    for i := 0 to |recipients|
      invariant |sent| == i
      invariant forall k :: 0 <= k < i ==> sent[k] == StatusChangedNotification(ticket.id, recipients[k], oldStatus, newStatus)
    {
      sent := sent + [StatusChangedNotification(ticket.id, recipients[i], oldStatus, newStatus)];
    }
  }

  /** `postPersist`: tickets and comments notify; any other entity sends nothing. */
  method PostPersist(entity: Entity, admins: seq<User>, users: seq<User>) returns (sent: seq<Mail>)
    ensures entity.TicketEntity? ==>
      var rs := Recipients(admins, OrganizationUsers(users, entity.ticket.organization), entity.ticket.createdBy);
      |sent| == |rs| && forall k :: 0 <= k < |rs| ==> sent[k] == TicketCreatedNotification(entity.ticket.id, rs[k])
    ensures entity.CommentEntity? ==>
      var rs := Recipients(admins, OrganizationUsers(users, entity.comment.ticket.organization), entity.comment.author);
      |sent| == |rs| && forall k :: 0 <= k < |rs| ==> sent[k] == CommentAddedNotification(entity.comment.id, rs[k])
    ensures !entity.TicketEntity? && !entity.CommentEntity? ==> sent == []
  {
    sent := [];
    if entity.TicketEntity? {
      sent := NotifyTicketCreated(entity.ticket, admins, users);
    }
    if entity.CommentEntity? {
      sent := NotifyCommentAdded(entity.comment, admins, users);
    }
  }

  /**
   * `postUpdate`: `statusChange` is the change set's `status` entry (old,
   * new), None when the status did not change.
   */
  method PostUpdate(entity: Entity, statusChange: Option<(Status, Status)>, current: Principal, admins: seq<User>, users: seq<User>)
    returns (sent: seq<Mail>)
    ensures !entity.TicketEntity? || statusChange.None? || !current.AppUser? ==> sent == []
    ensures entity.TicketEntity? && statusChange.Some? && current.AppUser? ==>
      var rs := Recipients(admins, OrganizationUsers(users, entity.ticket.organization), current.user.id);
      |sent| == |rs|
      && forall k :: 0 <= k < |rs| ==>
           sent[k] == StatusChangedNotification(entity.ticket.id, rs[k], statusChange.value.0, statusChange.value.1)
  {
    sent := [];
    if entity.TicketEntity? && statusChange.Some? {
      sent := NotifyStatusChanged(entity.ticket, statusChange.value.0, statusChange.value.1, current, admins, users);
    }
  }
}
