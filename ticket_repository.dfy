/**
 * The ticket listings (src/Repository/TicketRepository.php): the tickets of
 * one organization (or of all), resolved ones left out unless asked for, in
 * the order "not resolved before resolved, then higher priority level, then
 * newer".  Status and priority are NOT NULL columns, so the joins keep every
 * ticket.
 */
module TicketRepository {
  import opened Collections
  import opened Ordering
  import opened Domain

  /** The one status slug the listings treat specially. */
  const ResolvedSlug: string := "resolved"

  predicate IsResolved(t: Ticket)
  {
    t.status.slug == ResolvedSlug
  }

  /** `ORDER BY is_resolved ASC, p.level DESC, t.createdAt DESC` as an ascending key. */
  function PriorityKey(t: Ticket): seq<int>
  {
    [if IsResolved(t) then 1 else 0, -t.priorityLevel, -t.createdAt]
  }

  /** Ticket `a` may be listed before ticket `b`. */
  predicate ListedBefore(a: Ticket, b: Ticket)
  {
    (!IsResolved(a) && IsResolved(b))
    || (IsResolved(a) == IsResolved(b)
        && (a.priorityLevel > b.priorityLevel || (a.priorityLevel == b.priorityLevel && a.createdAt >= b.createdAt)))
  }

  lemma PriorityKeyOrder(a: Ticket, b: Ticket)
    ensures LexLe(PriorityKey(a), PriorityKey(b)) <==> ListedBefore(a, b)
  {
    var ka, kb := PriorityKey(a), PriorityKey(b);
    assert ka[1..] == [-a.priorityLevel, -a.createdAt] && kb[1..] == [-b.priorityLevel, -b.createdAt];
    assert ka[1..][1..] == [-a.createdAt] && kb[1..][1..] == [-b.createdAt];
    assert LexLe([-a.createdAt], [-b.createdAt]) <==> a.createdAt >= b.createdAt by {
      assert [-a.createdAt][1..] == [] && [-b.createdAt][1..] == [];
    }
  }

  ghost predicate PriorityOrder(r: seq<Ticket>)
  {
    forall i, j :: 0 <= i < j < |r| ==> ListedBefore(r[i], r[j])
  }

  /** The ORDER BY of both listings. */
  function ByPriority(tickets: seq<Ticket>): (r: seq<Ticket>)
    ensures multiset(r) == multiset(tickets)
    ensures PriorityOrder(r)
  {
    SortPermutes(tickets, PriorityKey);
    SortSorts(tickets, PriorityKey);
    var r := SortByKey(tickets, PriorityKey);
    forall i, j | 0 <= i < j < |r| ensures ListedBefore(r[i], r[j]) {
      PriorityKeyOrder(r[i], r[j]);
    }
    r
  }

  /** The optional `s.slug != 'resolved'` condition. */
  predicate Shown(t: Ticket, includeResolved: bool)
  {
    includeResolved || !IsResolved(t)
  }

  /** `findAllOrderedByPriority`: every shown ticket, in priority order. */
  function FindAllOrderedByPriority(tickets: seq<Ticket>, includeResolved: bool): (r: seq<Ticket>)
    ensures forall t :: multiset(r)[t] == if Shown(t, includeResolved) then multiset(tickets)[t] else 0
    ensures PriorityOrder(r)
  {
    var p := (t: Ticket) => Shown(t, includeResolved);
    forall t ensures multiset(Filter(tickets, p))[t] == if p(t) then multiset(tickets)[t] else 0 {
      FilterCount(tickets, p, t);
    }
    ByPriority(Filter(tickets, p))
  }

  /** `findByOrganizationOrderedByPriority`: the organization's shown tickets, in priority order. */
  function FindByOrganizationOrderedByPriority(tickets: seq<Ticket>, org: OrganizationId, includeResolved: bool)
    : (r: seq<Ticket>)
    ensures forall t :: multiset(r)[t] == if t.organization == org && Shown(t, includeResolved) then multiset(tickets)[t] else 0
    ensures PriorityOrder(r)
  {
    var p := (t: Ticket) => t.organization == org && Shown(t, includeResolved);
    forall t ensures multiset(Filter(tickets, p))[t] == if p(t) then multiset(tickets)[t] else 0 {
      FilterCount(tickets, p, t);
    }
    ByPriority(Filter(tickets, p))
  }

  /** In any listing, no resolved ticket comes before a ticket that is not resolved. */
  lemma ResolvedLast(tickets: seq<Ticket>, org: OrganizationId, includeResolved: bool, i: int, j: int)
    requires 0 <= i < j < |FindByOrganizationOrderedByPriority(tickets, org, includeResolved)|
    ensures var r := FindByOrganizationOrderedByPriority(tickets, org, includeResolved);
      IsResolved(r[i]) ==> IsResolved(r[j])
  {
  }

  /** Only the tickets of the organization are listed, and no resolved ticket unless asked for. */
  lemma ListingMembership(tickets: seq<Ticket>, org: OrganizationId, includeResolved: bool, t: Ticket)
    ensures t in FindByOrganizationOrderedByPriority(tickets, org, includeResolved)
        <==> t in tickets && t.organization == org && (includeResolved || t.status.slug != "resolved")
  {
    var r := FindByOrganizationOrderedByPriority(tickets, org, includeResolved);
    assert t in r <==> multiset(r)[t] > 0;
    assert t in tickets <==> multiset(tickets)[t] > 0;
  }

  /** Only the slug "resolved" is hidden: a "closed" ticket is still listed. */
  lemma ClosedTicketsListed(tickets: seq<Ticket>, t: Ticket)
    requires t in tickets && t.status.slug == "closed"
    ensures t in FindByOrganizationOrderedByPriority(tickets, t.organization, false)
  {
    ListingMembership(tickets, t.organization, false, t);
  }

  /** With resolved tickets included, the listing is a permutation of the organization's tickets. */
  lemma IncludeResolvedIsPermutation(tickets: seq<Ticket>, org: OrganizationId)
    ensures multiset(FindByOrganizationOrderedByPriority(tickets, org, true))
         == multiset(Filter(tickets, (t: Ticket) => t.organization == org))
  {
    var q := (t: Ticket) => t.organization == org;
    var r := FindByOrganizationOrderedByPriority(tickets, org, true);
    forall t ensures multiset(r)[t] == multiset(Filter(tickets, q))[t] {
      FilterCount(tickets, q, t);
    }
  }

  /** The organization listing is the global listing over the organization's tickets. */
  lemma OrganizationListingIsRestriction(tickets: seq<Ticket>, org: OrganizationId, includeResolved: bool)
    ensures FindByOrganizationOrderedByPriority(tickets, org, includeResolved)
         == FindAllOrderedByPriority(Filter(tickets, (t: Ticket) => t.organization == org), includeResolved)
  {
    FilterConjunction(tickets, (t: Ticket) => t.organization == org, (t: Ticket) => Shown(t, includeResolved),
      (t: Ticket) => t.organization == org && Shown(t, includeResolved));
  }
}
