/**
 * The invitation table and its two queries
 * (src/Repository/UserInvitationRepository.php), and the part of the database
 * the invitation controllers change: the user accounts and the invitation
 * rows.  The table has unique indexes on `token` and on `user_id`
 * (migrations/Version20251213153334.php), which `Database.Valid` states.
 */
module UserInvitationRepository {
  import opened Wrappers
  import opened Collections
  import opened Domain
  import opened InvitationEntity

  /** A committed `user_invitation` row. */
  datatype InvitationRow = InvitationRow(
    id: int,
    user: UserId,
    token: string,
    expiresAt: Instant,
    createdAt: Instant,
    acceptedAt: Option<Instant>)

  function TokenOf(r: InvitationRow): string { r.token }
  function UserOf(r: InvitationRow): UserId { r.user }

  /** The WHERE clause of `findValidByToken`. */
  predicate Findable(r: InvitationRow, token: string, now: Instant)
  {
    r.token == token && r.expiresAt > now && r.acceptedAt.None?
  }

  /**
   * `findValidByToken`: the row with that token if it has not reached its
   * expiry and was not accepted, else null.  `getOneOrNullResult` would fail
   * on two matches; the unique token index rules that out, and the model
   * returns the first.
   */
  function FindValidByToken(rows: seq<InvitationRow>, token: string, now: Instant): (found: Option<InvitationRow>)
    ensures found.Some? ==> found.value in rows && Findable(found.value, token, now)
    ensures found.None? <==> forall r :: r in rows ==> !Findable(r, token, now)
  {
    var p := (r: InvitationRow) => Findable(r, token, now);
    var matches := Filter(rows, p);
    forall r ensures r in matches <==> r in rows && p(r) {
      FilterMembership(rows, p, r);
    }
    if matches == [] then None else Some(matches[0])
  }

  /** What the query returns is valid by the entity's own rule at the same instant. */
  lemma FoundIsValid(rows: seq<InvitationRow>, token: string, now: Instant)
    ensures var found := FindValidByToken(rows, token, now);
      found.Some? ==> found.value.token == token && InvitationValid(found.value.expiresAt, found.value.acceptedAt, now)
  {
  }

  /**
   * At the expiry instant itself the entity calls an unaccepted invitation
   * valid and not expired, and `deleteExpired` keeps it, but
   * `findValidByToken` no longer returns it.
   */
  lemma ExpiryInstantMismatch(rows: seq<InvitationRow>, row: InvitationRow, now: Instant)
    requires now == row.expiresAt && row.acceptedAt.None?
    ensures InvitationValid(row.expiresAt, row.acceptedAt, now) && !IsExpiredAt(row.expiresAt, now)
    ensures row in rows ==> row in Unexpired(rows, now)
    ensures FindValidByToken(rows, row.token, now) != Some(row)
  {
  }

  /** The WHERE clause of `deleteExpired`; the same as the entity's `isExpired`. */
  predicate Expired(r: InvitationRow, now: Instant)
  {
    IsExpiredAt(r.expiresAt, now)
  }

  /** The rows `deleteExpired` leaves: exactly those not yet expired, accepted or not, in their order. */
  function Unexpired(rows: seq<InvitationRow>, now: Instant): (kept: seq<InvitationRow>)
    ensures forall r :: r in kept <==> r in rows && r.expiresAt >= now
    ensures |rows| - |kept| == |Filter(rows, (r: InvitationRow) => Expired(r, now))|
  {
    var p := (r: InvitationRow) => !Expired(r, now);
    forall r ensures r in Filter(rows, p) <==> r in rows && p(r) {
      FilterMembership(rows, p, r);
    }
    FilterPartition(rows, p, (r: InvitationRow) => Expired(r, now));
    Filter(rows, p)
  }

  /** A user account as the invitation flow sees it. */
  datatype Account = Account(user: User, passwordHash: string, isVerified: bool)

  /** The `user` and `user_invitation` tables. */
  class Database {
    var accounts: map<UserId, Account>
    var invitations: seq<InvitationRow>
    var nextUserId: int
    var nextInvitationId: int

    /** Accounts are keyed by their id, ids are issued upwards, and the two unique indexes and the foreign key hold. */
    ghost predicate Valid()
      reads this
    {
      (forall id :: id in accounts ==> accounts[id].user.id == id && id < nextUserId)
      && Injective(invitations, TokenOf)
      && Injective(invitations, UserOf)
      && (forall i :: 0 <= i < |invitations| ==> invitations[i].user in accounts)
    }

    constructor ()
      ensures Valid()
      ensures accounts == map[] && invitations == []
    {
      accounts, invitations := map[], [];
      nextUserId, nextInvitationId := 1, 1;
    }

    /** `deleteExpired`: removes the expired rows and returns how many there were. */
    method DeleteExpired(now: Instant) returns (count: int)
      requires Valid()
      modifies this`invitations
      ensures Valid()
      ensures invitations == Unexpired(old(invitations), now)
      ensures count == |old(invitations)| - |invitations|
    {
      var kept := Unexpired(invitations, now);
      var p := (r: InvitationRow) => !Expired(r, now);
      FilterInjective(invitations, p, TokenOf);
      FilterInjective(invitations, p, UserOf);
      forall i | 0 <= i < |kept| ensures kept[i].user in accounts {
        assert kept[i] in kept;
      }
      count := |invitations| - |kept|;
      invitations := kept;
    }
  }

  /** The position of the row with that token, if any. */
  function IndexOfToken(rows: seq<InvitationRow>, token: string): (i: int)
    ensures -1 <= i < |rows|
    ensures i >= 0 ==> rows[i].token == token
    ensures i == -1 ==> forall r :: r in rows ==> r.token != token
  {
    if rows == [] then -1
    else if rows[|rows| - 1].token == token then |rows| - 1
    else IndexOfToken(rows[..|rows| - 1], token)
  }

  /** The position of the user's invitation (`$user->getInvitation()`), if any. */
  function IndexOfUser(rows: seq<InvitationRow>, user: UserId): (i: int)
    ensures -1 <= i < |rows|
    ensures i >= 0 ==> rows[i].user == user
    ensures i == -1 ==> forall r :: r in rows ==> r.user != user
  {
    if rows == [] then -1
    else if rows[|rows| - 1].user == user then |rows| - 1
    else IndexOfUser(rows[..|rows| - 1], user)
  }

  /** With unique tokens, a row found by token is the one at the token's position. */
  lemma FoundAtTokenIndex(rows: seq<InvitationRow>, token: string, now: Instant)
    requires Injective(rows, TokenOf)
    requires FindValidByToken(rows, token, now).Some?
    ensures IndexOfToken(rows, token) >= 0
    ensures rows[IndexOfToken(rows, token)] == FindValidByToken(rows, token, now).value
  {
    var found := FindValidByToken(rows, token, now).value;
    var j :| 0 <= j < |rows| && rows[j] == found;
    var i := IndexOfToken(rows, token);
    assert TokenOf(rows[j]) == TokenOf(rows[i]);
  }
}
