// The invite-based authentication service
// (modules/auth/services/AuthService.ts): invite codes issued per tenant,
// registration that consumes a code, and password login.
//
// The `auth.invite_codes` and `auth.users` tables are fields of the
// service. bcrypt, JWT signing, the random source and the clock are inputs:
// `hash`/`passwordMatches`, `sign`, the base-36 digits of the random draw,
// and `now` (milliseconds) with its ISO text `nowIso`. Whether each remote
// call returns an error is an input as well.

module AuthService {
  import opened Common

  /** A row of `auth.invite_codes`. `expiresAt` is `None` when its text is not a date (an Invalid Date). */
  datatype InviteRow = InviteRow(code: string, tenantId: string, createdBy: string, email: string,
                                 expiresAt: Option<int>, usedAt: Option<string>)

  /** A row of `auth.users`. */
  datatype UserRow = UserRow(id: string, email: string, passwordHash: string, tenantId: string, name: string,
                             lastLoginAt: Option<string>)

  datatype Claims = Claims(userId: string, tenantId: string)

  datatype Validation = Valid(tenantId: string) | Invalid(message: string)

  datatype AuthResult = AuthSuccess(user: UserRow, token: string) | AuthFailure(message: string)

  datatype InviteResult = InviteCreated(code: string) | InviteFailed(message: string)

  const InvalidInviteMessage := "Invalid invite code"
  const UsedInviteMessage := "Invite code expired or already used"
  const UserExistsMessage := "User already exists"
  const CreateUserFailedMessage := "Failed to create user"
  const InvalidCredentialsMessage := "Invalid credentials"
  const CreateInviteFailedMessage := "Failed to create invite code"

  const SevenDaysMs := 7 * 24 * 60 * 60 * 1000

  // ---------------------------------------------------------------------
  // `.eq(column, value).single()`: a row only when exactly one matches

  function InvitesWithCode(rows: seq<InviteRow>, code: string): (r: seq<InviteRow>)
    ensures forall x :: x in r <==> x in rows && x.code == code
    ensures IsFilter(r, rows, (x: InviteRow) => x.code == code)
  {
    if |rows| == 0 then []
    else
      var init := InvitesWithCode(rows[..|rows| - 1], code);
      FilterSnoc((x: InviteRow) => x.code == code, rows, init);
      if rows[|rows| - 1].code == code then init + [rows[|rows| - 1]] else init
  }

  function UsersWithEmail(rows: seq<UserRow>, email: string): (r: seq<UserRow>)
    ensures forall x :: x in r <==> x in rows && x.email == email
    ensures IsFilter(r, rows, (x: UserRow) => x.email == email)
  {
    if |rows| == 0 then []
    else
      var init := UsersWithEmail(rows[..|rows| - 1], email);
      FilterSnoc((x: UserRow) => x.email == email, rows, init);
      if rows[|rows| - 1].email == email then init + [rows[|rows| - 1]] else init
  }

  function Single<T>(matches: seq<T>): (r: Option<T>)
    ensures r.Some? <==> |matches| == 1
    ensures r.Some? ==> r.value == matches[0]
  {
    if |matches| == 1 then Some(matches[0]) else None
  }

  // ---------------------------------------------------------------------
  // Invite codes

  /**
   * `validateInviteCode`: a failed lookup, or anything but exactly one row
   * with the code, is an invalid code; a row past its expiry or already
   * used is rejected; otherwise the code is valid for the row's tenant.
   * An expiry that is not a date never compares as past.
   */
  function ValidateInviteCode(invites: seq<InviteRow>, code: string, now: int, lookupFails: bool): (v: Validation)
    ensures lookupFails || |InvitesWithCode(invites, code)| != 1 ==> v == Invalid(InvalidInviteMessage)
    ensures !lookupFails && |InvitesWithCode(invites, code)| == 1 ==>
      var row := InvitesWithCode(invites, code)[0];
      && ((row.expiresAt.Some? && row.expiresAt.value < now) || (row.usedAt.Some? && row.usedAt.value != "")
          <==> v == Invalid(UsedInviteMessage))
      && (v.Valid? ==> v.tenantId == row.tenantId)
    ensures v.Valid? ==> exists row :: row in invites && row.code == code && row.tenantId == v.tenantId
  {
    match Single(InvitesWithCode(invites, code))
    case None => Invalid(InvalidInviteMessage)
    case Some(row) =>
      if lookupFails then Invalid(InvalidInviteMessage)
      else if (row.expiresAt.Some? && row.expiresAt.value < now) || (row.usedAt.Some? && row.usedAt.value != "") then
        Invalid(UsedInviteMessage)
      else Valid(row.tenantId)
  }

  /** `update({used_at}).eq('code', code)`: every row with the code is marked used. */
  function MarkUsed(invites: seq<InviteRow>, code: string, usedAt: string): (r: seq<InviteRow>)
    ensures |r| == |invites|
    ensures forall k :: 0 <= k < |invites| ==>
      r[k] == if invites[k].code == code then invites[k].(usedAt := Some(usedAt)) else invites[k]
  {
    seq(|invites|, k requires 0 <= k < |invites| =>
      if invites[k].code == code then invites[k].(usedAt := Some(usedAt)) else invites[k])
  }

  lemma {:induction false} InvitesWithCodeAfterMark(invites: seq<InviteRow>, code: string, usedAt: string)
    ensures |InvitesWithCode(MarkUsed(invites, code, usedAt), code)| == |InvitesWithCode(invites, code)|
    ensures forall x :: x in InvitesWithCode(MarkUsed(invites, code, usedAt), code) ==> x.usedAt == Some(usedAt)
  {
    if |invites| > 0 {
      var init := invites[..|invites| - 1];
      InvitesWithCodeAfterMark(init, code, usedAt);
      assert MarkUsed(invites, code, usedAt)[..|invites| - 1] == MarkUsed(init, code, usedAt);
    }
  }

  /** A code consumed by a registration is refused from then on. */
  lemma UsedCodeIsRefused(invites: seq<InviteRow>, code: string, usedAt: string, now: int)
    requires usedAt != ""
    ensures ValidateInviteCode(MarkUsed(invites, code, usedAt), code, now, false).Invalid?
  {
    InvitesWithCodeAfterMark(invites, code, usedAt);
    var matches := InvitesWithCode(MarkUsed(invites, code, usedAt), code);
    if |matches| == 1 {
      assert matches[0] in matches;
    }
  }

  /**
   * `generateInviteCode`: `Math.random().toString(36).substring(2, 10)`
   * upper-cased, for the random value whose base-36 fraction digits are
   * `digits`. There are eight characters only when the fraction has at
   * least eight digits.
   */
  function GenerateInviteCode(digits: seq<nat>): (code: string)
    requires forall k :: 0 <= k < |digits| ==> digits[k] < 36
    ensures |code| == Min(8, |digits|)
    ensures forall k :: 0 <= k < |code| ==> ('0' <= code[k] <= '9' || 'A' <= code[k] <= 'Z')
  {
    var text := seq(Min(8, |digits|), k requires 0 <= k < Min(8, |digits|) => Base36Digit(digits[k]));
    Upper(text)
  }

  function Base36Digit(d: nat): (c: char)
    requires d < 36
    ensures '0' <= c <= '9' || 'a' <= c <= 'z'
  {
    if d < 10 then ('0' as int + d) as char else ('a' as int + d - 10) as char
  }

  /** `jwt.verify` failing in any way gives `null`. */
  function VerifyToken(token: string, verify: string -> Result<Claims, string>): (r: Option<Claims>)
    ensures r.None? <==> verify(token).Err?
    ensures r.Some? ==> r.value == verify(token).value
  {
    match verify(token)
    case Ok(claims) => Some(claims)
    case Err(_) => None
  }

  /** `update({last_login_at}).eq('id', id)`. */
  function StampLogin(users: seq<UserRow>, id: string, at: string): (r: seq<UserRow>)
    ensures |r| == |users|
    ensures forall k :: 0 <= k < |users| ==>
      r[k] == if users[k].id == id then users[k].(lastLoginAt := Some(at)) else users[k]
  {
    seq(|users|, k requires 0 <= k < |users| => if users[k].id == id then users[k].(lastLoginAt := Some(at)) else users[k])
  }

  class AuthServiceState {
    var invites: seq<InviteRow>
    var users: seq<UserRow>

    constructor (invites: seq<InviteRow>, users: seq<UserRow>)
      ensures this.invites == invites && this.users == users
    {
      this.invites := invites;
      this.users := users;
    }

    /**
     * `createInviteCode`: inserts a code valid for seven days. An insert
     * error fails with nothing written; a failing invite e-mail also fails,
     * but the row stays inserted.
     */
    method CreateInviteCode(tenantId: string, email: string, createdBy: string, digits: seq<nat>, now: int,
                            insertFails: bool, emailFails: bool) returns (result: InviteResult)
      requires forall k :: 0 <= k < |digits| ==> digits[k] < 36
      modifies this
      ensures var row := InviteRow(GenerateInviteCode(digits), tenantId, createdBy, email, Some(now + SevenDaysMs), None);
        invites == if insertFails then old(invites) else old(invites) + [row]
      ensures users == old(users)
      ensures result == if insertFails || emailFails then InviteFailed(CreateInviteFailedMessage)
                        else InviteCreated(GenerateInviteCode(digits))
    {
      var code := GenerateInviteCode(digits);
      var expiresAt := now + SevenDaysMs;
      if insertFails {
        return InviteFailed(CreateInviteFailedMessage);
      }
      invites := invites + [InviteRow(code, tenantId, createdBy, email, Some(expiresAt), None)];
      if emailFails {
        return InviteFailed(CreateInviteFailedMessage);
      }
      result := InviteCreated(code);
    }

    /**
     * `registerUser`: an invalid invite or an existing e-mail fails with
     * nothing written. Otherwise the user is inserted under the invite's
     * tenant, the code is marked used and a token is signed. A failed
     * existence lookup reads as "no such user".
     */
    method RegisterUser(inviteCode: string, email: string, password: string, name: string,
                        now: int, nowIso: string, newUserId: string, hash: string -> string,
                        sign: Claims -> string, inviteLookupFails: bool, userLookupFails: bool,
                        insertFails: bool, markFails: bool) returns (result: AuthResult)
      modifies this
      ensures var validation := ValidateInviteCode(old(invites), inviteCode, now, inviteLookupFails);
        && (validation.Invalid? ==> result == AuthFailure(validation.message) && invites == old(invites) && users == old(users))
        && (validation.Valid? && !userLookupFails && |UsersWithEmail(old(users), email)| == 1 ==>
              result == AuthFailure(UserExistsMessage) && invites == old(invites) && users == old(users))
        && (result.AuthSuccess? ==>
              && validation.Valid?
              && result.user == UserRow(newUserId, email, hash(password), validation.tenantId, name, None)
              && users == old(users) + [result.user]
              && invites == (if markFails then old(invites) else MarkUsed(old(invites), inviteCode, nowIso))
              && result.token == sign(Claims(newUserId, validation.tenantId)))
        && (validation.Valid? && (userLookupFails || |UsersWithEmail(old(users), email)| != 1) ==>
              (result.AuthSuccess? <==> !insertFails)
              && (insertFails ==> result == AuthFailure(CreateUserFailedMessage)))
      ensures result.AuthFailure? ==> users == old(users) && invites == old(invites)
    {
      var validation := ValidateInviteCode(invites, inviteCode, now, inviteLookupFails);
      if validation.Invalid? {
        return AuthFailure(validation.message);
      }
      var existing := if userLookupFails then None else Single(UsersWithEmail(users, email));
      if existing.Some? {
        return AuthFailure(UserExistsMessage);
      }
      var passwordHash := hash(password);
      if insertFails {
        return AuthFailure(CreateUserFailedMessage);
      }
      var user := UserRow(newUserId, email, passwordHash, validation.tenantId, name, None);
      users := users + [user];
      if !markFails {
        invites := MarkUsed(invites, inviteCode, nowIso);
      }
      var token := sign(Claims(user.id, user.tenantId));
      result := AuthSuccess(user, token);
    }

    /**
     * `loginUser`: an unknown e-mail and a wrong password give the same
     * answer; only a successful login records the login time, and a failed
     * update of that time (`stampFails`) is ignored: the login still succeeds.
     */
    method LoginUser(email: string, password: string, nowIso: string, passwordMatches: (string, string) -> bool,
                     sign: Claims -> string, lookupFails: bool, stampFails: bool) returns (result: AuthResult)
      modifies this
      ensures var found := if lookupFails then None else Single(UsersWithEmail(old(users), email));
        && (found.None? || !passwordMatches(password, found.value.passwordHash) <==> result == AuthFailure(InvalidCredentialsMessage))
        && (result.AuthSuccess? ==>
              && result.user == found.value
              && users == (if stampFails then old(users) else StampLogin(old(users), found.value.id, nowIso))
              && result.token == sign(Claims(found.value.id, found.value.tenantId)))
      ensures result.AuthFailure? ==> users == old(users)
      ensures invites == old(invites)
    {
      var found := if lookupFails then None else Single(UsersWithEmail(users, email));
      if found.None? {
        return AuthFailure(InvalidCredentialsMessage);
      }
      var user := found.value;
      if !passwordMatches(password, user.passwordHash) {
        return AuthFailure(InvalidCredentialsMessage);
      }
      if !stampFails {
        users := StampLogin(users, user.id, nowIso);
      }
      result := AuthSuccess(user, sign(Claims(user.id, user.tenantId)));
    }
  }

  lemma {:induction false} UsersWithEmailAppend(users: seq<UserRow>, user: UserRow)
    ensures UsersWithEmail(users + [user], user.email) == UsersWithEmail(users, user.email) + [user]
  {
    assert (users + [user])[..|users|] == users;
  }

  /** Once an e-mail has exactly one account, registering it again is refused. */
  lemma SecondRegistrationRefused(users: seq<UserRow>, user: UserRow)
    requires |UsersWithEmail(users, user.email)| == 0
    ensures Single(UsersWithEmail(users + [user], user.email)) == Some(user)
  {
    UsersWithEmailAppend(users, user);
  }
}
