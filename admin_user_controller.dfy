/**
 * The administrators' user management
 * (src/Controller/AdminUserController.php): creating a user together with
 * an invitation, resending an invitation (the old row is deleted and a new
 * one stored), and deleting a user.  The whole controller requires
 * ROLE_ADMIN (`isAdmin`); a route's `{id}` that names no user is a 404
 * before the action runs.  The CSRF check, the form, the random bytes, the
 * password hash and the clock readings are parameters; the invitation mail
 * is the returned `sent`.
 */
module AdminUserController {
  import opened Wrappers
  import opened Collections
  import opened Domain
  import opened InvitationEntity
  import opened UserInvitationRepository

  datatype Outcome =
    | NotFound
    | AccessDenied
    | ShowForm
    | UserCreated(user: UserId, token: string)
    | NoPendingInvitation
    | AlreadyAccepted
    | InvitationResent(token: string)
    | UserDeleted
    | RedirectToIndex
    /** The unique token index refused the insert (the flush throws). */
    | StoreError

  /** Some stored invitation already carries `token`. */
  predicate TokenTaken(rows: seq<InvitationRow>, token: string)
  {
    exists r :: r in rows && r.token == token
  }

  /** The row a freshly built invitation is stored as. */
  function NewRow(id: int, user: UserId, randomBytes: seq<byte>, now: Instant, persistNow: Instant): InvitationRow
  {
    InvitationRow(id, user, Hex(randomBytes), now + ExpiryPeriod, persistNow, None)
  }

  /** Stores a new invitation built by the entity's constructor and pre-persist hook. */
  method BuildInvitation(user: UserId, id: int, randomBytes: seq<byte>, now: Instant, persistNow: Instant)
    returns (row: InvitationRow)
    requires |randomBytes| == TokenBytes
    ensures row == NewRow(id, user, randomBytes, now, persistNow)
    ensures |row.token| == 64
  {
    var invitation := new UserInvitation(randomBytes, now);
    invitation.SetUser(user);
    invitation.SetCreatedAtValue(persistNow);
    row := InvitationRow(id, user, invitation.token, invitation.expiresAt, persistNow, None);
  }

  /**
   * `new`: with a submitted, valid form (`form`, the user it filled in), a
   * verified user with a temporary password and an invitation for that user
   * are stored in one flush, and the invitation mail is sent.
   */
  method New(db: Database, isAdmin: bool, form: Option<User>, temporaryPasswordHash: string,
             randomBytes: seq<byte>, now: Instant, persistNow: Instant)
    returns (outcome: Outcome, sent: seq<Mail>)
    requires db.Valid() && |randomBytes| == TokenBytes
    modifies db
    ensures db.Valid()
    ensures !isAdmin ==> outcome == AccessDenied && sent == [] && unchanged(db)
    ensures isAdmin && form.None? ==> outcome == ShowForm && sent == [] && unchanged(db)
    ensures isAdmin && form.Some? && TokenTaken(old(db.invitations), Hex(randomBytes)) ==>
              outcome == StoreError && sent == [] && unchanged(db)
    ensures isAdmin && form.Some? && !TokenTaken(old(db.invitations), Hex(randomBytes)) ==>
              var id := old(db.nextUserId);
              var token := Hex(randomBytes);
              id !in old(db.accounts)
              && outcome == UserCreated(id, token)
              && db.accounts == old(db.accounts)[id := Account(form.value.(id := id), temporaryPasswordHash, true)]
              && db.invitations == old(db.invitations) + [NewRow(old(db.nextInvitationId), id, randomBytes, now, persistNow)]
              && sent == [UserInvitationMail(id, token)]
  {
    if !isAdmin {
      return AccessDenied, [];
    }
    if form.None? {
      return ShowForm, [];
    }
    var id := db.nextUserId;
    var account := Account(form.value.(id := id), temporaryPasswordHash, true);
    var row := BuildInvitation(id, db.nextInvitationId, randomBytes, now, persistNow);
    if IndexOfToken(db.invitations, row.token) >= 0 {
      return StoreError, [];
    }
    forall z | z in db.invitations ensures UserOf(z) != UserOf(row) {
      var j :| 0 <= j < |db.invitations| && db.invitations[j] == z;
    }
    InjectiveSnoc(db.invitations, row, TokenOf);
    InjectiveSnoc(db.invitations, row, UserOf);
    db.accounts := db.accounts[id := account];
    db.invitations := db.invitations + [row];
    db.nextUserId := id + 1;
    db.nextInvitationId := db.nextInvitationId + 1;
    outcome, sent := UserCreated(id, row.token), [UserInvitationMail(id, row.token)];
  }

  /**
   * `resendInvitation`.  The old invitation is deleted and flushed before
   * the new one is inserted, so if the insert fails the user is left with no
   * invitation.
   */
  method ResendInvitation(db: Database, isAdmin: bool, user: UserId, csrfValid: bool,
                          randomBytes: seq<byte>, now: Instant, persistNow: Instant)
    returns (outcome: Outcome, sent: seq<Mail>)
    requires db.Valid() && |randomBytes| == TokenBytes
    modifies db
    ensures db.Valid()
    ensures user !in old(db.accounts) ==> outcome == NotFound && sent == [] && unchanged(db)
    ensures user in old(db.accounts) && (!isAdmin || !csrfValid) ==> outcome == AccessDenied && sent == [] && unchanged(db)
    ensures user in old(db.accounts) && isAdmin && csrfValid && IndexOfUser(old(db.invitations), user) == -1 ==>
              outcome == NoPendingInvitation && sent == [] && unchanged(db)
    ensures user in old(db.accounts) && isAdmin && csrfValid && IndexOfUser(old(db.invitations), user) >= 0 ==>
              var i := IndexOfUser(old(db.invitations), user);
              var rest := old(db.invitations)[..i] + old(db.invitations)[i + 1..];
              var token := Hex(randomBytes);
              (old(db.invitations)[i].acceptedAt.Some? ==>
                 outcome == AlreadyAccepted && sent == [] && unchanged(db))
              && (old(db.invitations)[i].acceptedAt.None? && TokenTaken(rest, token) ==>
                 outcome == StoreError && sent == [] && db.invitations == rest && db.accounts == old(db.accounts))
              && (old(db.invitations)[i].acceptedAt.None? && !TokenTaken(rest, token) ==>
                 outcome == InvitationResent(token) && sent == [UserInvitationMail(user, token)]
                 && db.invitations == rest + [NewRow(old(db.nextInvitationId), user, randomBytes, now, persistNow)]
                 && db.accounts == old(db.accounts))
  {
    if user !in db.accounts {
      return NotFound, [];
    }
    if !isAdmin || !csrfValid {
      return AccessDenied, [];
    }
    var i := IndexOfUser(db.invitations, user);
    if i == -1 {
      return NoPendingInvitation, [];
    }
    if db.invitations[i].acceptedAt.Some? {
      return AlreadyAccepted, [];
    }
    InjectiveRemove(db.invitations, i, TokenOf);
    InjectiveRemove(db.invitations, i, UserOf);
    var rest := db.invitations[..i] + db.invitations[i + 1..];
    forall k | 0 <= k < |rest| ensures rest[k].user in db.accounts {
      assert rest[k] == db.invitations[if k < i then k else k + 1];
    }
    db.invitations := rest;
    var row := BuildInvitation(user, db.nextInvitationId, randomBytes, now, persistNow);
    if IndexOfToken(db.invitations, row.token) >= 0 {
      return StoreError, [];
    }
    InjectiveSnoc(db.invitations, row, TokenOf);
    InjectiveSnoc(db.invitations, row, UserOf);
    db.invitations := db.invitations + [row];
    db.nextInvitationId := db.nextInvitationId + 1;
    outcome, sent := InvitationResent(row.token), [UserInvitationMail(user, row.token)];
  }

  /**
   * `delete`: with a valid CSRF token the user is removed, and with them
   * their invitation (the ORM removes the inverse side of the one-to-one
   * link along with the user); either way the answer is a redirect.
   */
  method Delete(db: Database, isAdmin: bool, user: UserId, csrfValid: bool) returns (outcome: Outcome)
    requires db.Valid()
    modifies db`accounts, db`invitations
    ensures db.Valid()
    ensures user !in old(db.accounts) ==> outcome == NotFound && unchanged(db)
    ensures user in old(db.accounts) && !isAdmin ==> outcome == AccessDenied && unchanged(db)
    ensures user in old(db.accounts) && isAdmin && !csrfValid ==> outcome == RedirectToIndex && unchanged(db)
    ensures user in old(db.accounts) && isAdmin && csrfValid ==>
              outcome == UserDeleted
              && db.accounts == old(db.accounts) - {user}
              && db.invitations == Filter(old(db.invitations), (r: InvitationRow) => r.user != user)
  {
    if user !in db.accounts {
      return NotFound;
    }
    if !isAdmin {
      return AccessDenied;
    }
    if !csrfValid {
      return RedirectToIndex;
    }
    var p := (r: InvitationRow) => r.user != user;
    var kept := Filter(db.invitations, p);
    FilterInjective(db.invitations, p, TokenOf);
    FilterInjective(db.invitations, p, UserOf);
    forall k | 0 <= k < |kept| ensures kept[k].user in db.accounts - {user} {
      FilterMembership(db.invitations, p, kept[k]);
    }
    db.accounts := db.accounts - {user};
    db.invitations := kept;
    outcome := UserDeleted;
  }

  /** The invitation `new` stores is the only one of its user, and it is valid until it expires. */
  lemma NewInvitationIsTheUsers(rows: seq<InvitationRow>, row: InvitationRow, at: Instant)
    requires Injective(rows + [row], UserOf)
    requires row.acceptedAt.None? && at <= row.expiresAt
    ensures forall r :: r in rows + [row] && r.user == row.user ==> r == row
    ensures InvitationValid(row.expiresAt, row.acceptedAt, at)
  {
    var all := rows + [row];
    forall r | r in all && r.user == row.user ensures r == row {
      var j :| 0 <= j < |all| && all[j] == r;
      assert UserOf(all[j]) == UserOf(all[|rows|]);
    }
  }
}
