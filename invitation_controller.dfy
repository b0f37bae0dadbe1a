/**
 * Accepting an invitation (`accept` in src/Controller/InvitationController.php):
 * a valid token and a submitted, valid password form set the invited user's
 * password and mark the invitation accepted.  The password arrives already
 * hashed (`submittedPasswordHash`, None when no valid form was submitted);
 * logging the user in is the `LoggedIn` outcome.
 */
module InvitationController {
  import opened Wrappers
  import opened Collections
  import opened Domain
  import opened UserInvitationRepository

  datatype AcceptOutcome =
    | RedirectToLogin
    | ShowForm(invitation: InvitationRow)
    | LoggedIn(user: UserId)

  /** Once the row with a token is accepted, no query finds that token valid again, at any time. */
  lemma AcceptedTokenNeverFound(rows: seq<InvitationRow>, i: nat, token: string)
    requires Injective(rows, TokenOf)
    requires i < |rows| && rows[i].token == token && rows[i].acceptedAt.Some?
    ensures forall t :: FindValidByToken(rows, token, t).None?
  {
    forall t ensures FindValidByToken(rows, token, t).None? {
      forall r | r in rows ensures !Findable(r, token, t) {
        var j :| 0 <= j < |rows| && rows[j] == r;
        if r.token == token {
          assert TokenOf(rows[j]) == TokenOf(rows[i]);
        }
      }
    }
  }

  /**
   * `accept`.  `now` is the clock reading of the lookup, `acceptedNow` the
   * one stored as the acceptance time.
   */
  method Accept(db: Database, token: string, submittedPasswordHash: Option<string>, now: Instant, acceptedNow: Instant)
    returns (outcome: AcceptOutcome)
    requires db.Valid()
    modifies db`accounts, db`invitations
    ensures db.Valid()
    ensures FindValidByToken(old(db.invitations), token, now).None? ==>
              outcome == RedirectToLogin
              && db.accounts == old(db.accounts) && db.invitations == old(db.invitations)
    ensures FindValidByToken(old(db.invitations), token, now).Some? && submittedPasswordHash.None? ==>
              outcome == ShowForm(FindValidByToken(old(db.invitations), token, now).value)
              && db.accounts == old(db.accounts) && db.invitations == old(db.invitations)
    ensures FindValidByToken(old(db.invitations), token, now).Some? && submittedPasswordHash.Some? ==>
              var invitation := FindValidByToken(old(db.invitations), token, now).value;
              var account := old(db.accounts)[invitation.user];
              outcome == LoggedIn(invitation.user)
              && db.accounts == old(db.accounts)[invitation.user := account.(passwordHash := submittedPasswordHash.value)]
              && db.invitations == old(db.invitations)[IndexOfToken(old(db.invitations), token) := invitation.(acceptedAt := Some(acceptedNow))]
              && forall t :: FindValidByToken(db.invitations, token, t).None?
  {
    var invitation := FindValidByToken(db.invitations, token, now);
    if invitation.None? {
      return RedirectToLogin;
    }
    var found := invitation.value;
    if submittedPasswordHash.None? {
      return ShowForm(found);
    }
    FoundAtTokenIndex(db.invitations, token, now);
    var i := IndexOfToken(db.invitations, token);
    var user := found.user;
    assert db.invitations[i] in db.invitations;
    db.accounts := db.accounts[user := db.accounts[user].(passwordHash := submittedPasswordHash.value)];
    var accepted := found.(acceptedAt := Some(acceptedNow));
    db.invitations := db.invitations[i := accepted];
    InjectiveUpdate(old(db.invitations), i, accepted, TokenOf);
    InjectiveUpdate(old(db.invitations), i, accepted, UserOf);
    AcceptedTokenNeverFound(db.invitations, i, token);
    outcome := LoggedIn(user);
  }
}
