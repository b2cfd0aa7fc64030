/**
 * Sign-in by one-time password (`AuthController::sendOtp`, `resendOtp` and
 * `verifyOtp`). The code sent is derived from the mobile number; sending
 * retires every earlier pending code of that number; a verification needs a
 * pending, unexpired record matching number and code, consumes it, and signs
 * the user in, creating an unregistered user the first time.
 */
module Auth {
  import opened Wrappers
  import opened Tables
  import opened Records
  import opened Text
  import opened Store

  /** `expires_at = now()->addMinutes(5)`, in seconds. */
  const OtpLifetime: int := 300

  /** The rule `required|string|size:10|regex:/^[0-9]{10}$/`. */
  predicate ValidMobile(mobile: string)
  {
    |mobile| == 10 && AllDigits(mobile)
  }

  /** The rule `required|string|size:6|regex:/^[0-9]{6}$/`. */
  predicate ValidCode(code: string)
  {
    |code| == 6 && AllDigits(code)
  }

  /**
   * The code of a mobile number: six characters from position 4, left-padded
   * with zeros if fewer were there. For a valid number these are its last six
   * digits, the padding never happens, and the code passes the rule `verifyOtp`
   * puts on codes.
   */
  function DeriveOtp(mobile: string): (r: string)
    ensures |r| == 6
    ensures ValidMobile(mobile) ==> r == mobile[4..] && ValidCode(r)
  {
    var otp := Substr(mobile, 4, 6);
    if |otp| < 6 then PadLeft(otp, 6, '0') else otp
  }

  /** `isExpired()`: the expiry instant is already past. */
  predicate Expired(o: Otp, now: int)
  {
    o.expiresAt < now
  }

  /**
   * The mass update that retires earlier codes: every pending record of the
   * number becomes verified; nothing else changes.
   */
  function Invalidate(rows: seq<Row<Otp>>, mobile: string): (r: seq<Row<Otp>>)
    ensures |r| == |rows|
    ensures forall i :: 0 <= i < |r| ==> r[i].id == rows[i].id && r[i].val == rows[i].val.(verified := r[i].val.verified)
    ensures forall i :: 0 <= i < |r| ==> r[i].val.verified == (rows[i].val.verified || rows[i].val.mobile == mobile)
  {
    seq(|rows|, i requires 0 <= i < |rows| =>
      if rows[i].val.mobile == mobile && !rows[i].val.verified then Row(rows[i].id, rows[i].val.(verified := true)) else rows[i])
  }

  /** The OTP table after a code is sent at time `now`: earlier codes retired, one pending record added last. */
  function Sent(otps: Table<Otp>, mobile: string, now: int): Table<Otp>
  {
    Insert(Table(Invalidate(otps.rows, mobile), otps.nextId), Otp(mobile, DeriveOtp(mobile), false, now + OtpLifetime))
  }

  /** No mobile number has two pending codes. */
  ghost predicate OnePendingPerMobile(rows: seq<Row<Otp>>)
  {
    forall i, j :: 0 <= i < j < |rows| && rows[i].val.mobile == rows[j].val.mobile ==> rows[i].val.verified || rows[j].val.verified
  }

  /**
   * `sendOtp`. A number that is not ten digits is refused and nothing
   * changes; otherwise the code is returned and the table is `Sent`.
   */
  method SendOtp(db: Db, mobile: string, now: int) returns (r: Result<string, Error>)
    requires Tables.Valid(db.otps)
    modifies db`otps
    ensures Tables.Valid(db.otps)
    ensures r.Failure? <==> !ValidMobile(mobile)
    ensures r.Failure? ==> r.error == ValidationFailed && unchanged(db`otps)
    ensures r.Success? ==> r.value == DeriveOtp(mobile) && db.otps == Sent(old(db.otps), mobile, now)
  {
    if !ValidMobile(mobile) {
      return Failure(ValidationFailed);
    }
    var otp := DeriveOtp(mobile);
    db.otps := Sent(db.otps, mobile, now);
    r := Success(otp);
  }

  /** `resendOtp`: the same validation, then `sendOtp`, so the same outcome. */
  method ResendOtp(db: Db, mobile: string, now: int) returns (r: Result<string, Error>)
    requires Tables.Valid(db.otps)
    modifies db`otps
    ensures Tables.Valid(db.otps)
    ensures r.Failure? <==> !ValidMobile(mobile)
    ensures r.Failure? ==> r.error == ValidationFailed && unchanged(db`otps)
    ensures r.Success? ==> r.value == DeriveOtp(mobile) && db.otps == Sent(old(db.otps), mobile, now)
  {
    if !ValidMobile(mobile) {
      return Failure(ValidationFailed);
    }
    r := SendOtp(db, mobile, now);
  }

  /** After a send, the new record is the only pending code of that number, and other numbers' records are untouched. */
  lemma SentIsOnlyPending(otps: Table<Otp>, mobile: string, now: int)
    ensures var r := Sent(otps, mobile, now).rows;
      && |r| == |otps.rows| + 1
      && r[|otps.rows|] == Row(otps.nextId, Otp(mobile, DeriveOtp(mobile), false, now + OtpLifetime))
      && (forall i :: 0 <= i < |r| && r[i].val.mobile == mobile && !r[i].val.verified ==> i == |otps.rows|)
      && forall i :: 0 <= i < |otps.rows| && otps.rows[i].val.mobile != mobile ==> r[i] == otps.rows[i]
  {
    var r := Sent(otps, mobile, now).rows;
    assert r[..|otps.rows|] == Invalidate(otps.rows, mobile);
    forall i | 0 <= i < |otps.rows| && otps.rows[i].val.mobile != mobile ensures r[i] == otps.rows[i] {
      assert r[i] == Invalidate(otps.rows, mobile)[i];
    }
  }

  /** Sending keeps at most one pending code per number. */
  lemma SendKeepsOnePending(otps: Table<Otp>, mobile: string, now: int)
    requires OnePendingPerMobile(otps.rows)
    ensures OnePendingPerMobile(Sent(otps, mobile, now).rows)
  {
    var r := Sent(otps, mobile, now).rows;
    var n := |otps.rows|;
    SentIsOnlyPending(otps, mobile, now);
    forall i, j | 0 <= i < j < |r| && r[i].val.mobile == r[j].val.mobile ensures r[i].val.verified || r[j].val.verified {
      assert r[..n] == Invalidate(otps.rows, mobile);
      assert r[i] == Invalidate(otps.rows, mobile)[i];
      if j < n {
        assert r[j] == Invalidate(otps.rows, mobile)[j];
      }
    }
  }

  /** The record `where(mobile, otp, is_verified = false)` matches. */
  predicate Pending(o: Otp, mobile: string, code: string)
  {
    o.mobile == mobile && o.code == code && !o.verified
  }

  /** `latest()->first()` over the pending matches: the index of the last one, if any. */
  function LatestPending(rows: seq<Row<Otp>>, mobile: string, code: string): (r: Option<nat>)
    ensures r.Some? ==> r.value < |rows| && Pending(rows[r.value].val, mobile, code)
    ensures r.Some? ==> forall j :: r.value < j < |rows| ==> !Pending(rows[j].val, mobile, code)
    ensures r.None? ==> forall j :: 0 <= j < |rows| ==> !Pending(rows[j].val, mobile, code)
    decreases |rows|
  {
    if rows == [] then None
    else if Pending(rows[|rows| - 1].val, mobile, code) then Some(|rows| - 1)
    else LatestPending(rows[..|rows| - 1], mobile, code)
  }

  /** A code sent at `now` is the one a verification finds, and it is expired exactly when more than five minutes have passed. */
  lemma SentCodeVerifiesUntilExpiry(otps: Table<Otp>, mobile: string, now: int, at: int)
    ensures var r := Sent(otps, mobile, now).rows;
      && LatestPending(r, mobile, DeriveOtp(mobile)) == Some(|otps.rows|)
      && (Expired(r[|otps.rows|].val, at) <==> at > now + OtpLifetime)
  {
  }

  /** After a send, any other code for that number is refused. */
  lemma OnlySentCodeAccepted(otps: Table<Otp>, mobile: string, now: int, code: string)
    requires code != DeriveOtp(mobile)
    ensures LatestPending(Sent(otps, mobile, now).rows, mobile, code).None?
  {
    var r := Sent(otps, mobile, now).rows;
    SentIsOnlyPending(otps, mobile, now);
    forall j | 0 <= j < |r| ensures !Pending(r[j].val, mobile, code) {
    }
  }

  /** `markAsVerified()` on the record with that id. */
  function Consume(rows: seq<Row<Otp>>, k: nat): seq<Row<Otp>>
    requires k < |rows|
  {
    Replace(rows, rows[k].id, rows[k].val.(verified := true))
  }

  /** Consuming a code keeps at most one pending code per number. */
  lemma ConsumeKeepsOnePending(rows: seq<Row<Otp>>, k: nat)
    requires Ascending(rows) && k < |rows| && OnePendingPerMobile(rows)
    ensures OnePendingPerMobile(Consume(rows, k))
  {
    var r := Consume(rows, k);
    forall i, j | 0 <= i < j < |r| && r[i].val.mobile == r[j].val.mobile ensures r[i].val.verified || r[j].val.verified {
      assert r[i].val.mobile == rows[i].val.mobile && r[j].val.mobile == rows[j].val.mobile;
    }
  }

  /**
   * A code verifies once: with one pending code per number, consuming the
   * match leaves nothing for the same number and code to match.
   */
  lemma {:induction false} CodeIsSingleUse(rows: seq<Row<Otp>>, mobile: string, code: string)
    requires Ascending(rows) && OnePendingPerMobile(rows) && LatestPending(rows, mobile, code).Some?
    ensures LatestPending(Consume(rows, LatestPending(rows, mobile, code).value), mobile, code).None?
  {
    var k := LatestPending(rows, mobile, code).value;
    var r := Consume(rows, k);
    forall j | 0 <= j < |r| ensures !Pending(r[j].val, mobile, code) {
      if j != k {
        assert rows[j].id != rows[k].id by {
          if j < k { assert rows[j].id < rows[k].id; } else { assert rows[k].id < rows[j].id; }
        }
      }
    }
  }

  /** `User::where('mobile_number', ...)->first()`: the index of the first user with that number. */
  function FirstUser(rows: seq<Row<User>>, mobile: string): (r: Option<nat>)
    ensures r.Some? ==> r.value < |rows| && rows[r.value].val.mobile == mobile
    ensures r.Some? ==> forall j :: 0 <= j < r.value ==> rows[j].val.mobile != mobile
    ensures r.None? ==> forall j :: 0 <= j < |rows| ==> rows[j].val.mobile != mobile
  {
    if rows == [] then None
    else if rows[0].val.mobile == mobile then Some(0)
    else match FirstUser(rows[1..], mobile)
      case None => None
      case Some(k) => Some(k + 1)
  }

  /**
   * The user a verification signs in, and the users table after it: the
   * first user with that number, or a new one with registration incomplete
   * when there is none.
   */
  function SignIn(users: Table<User>, mobile: string): (r: (Table<User>, Row<User>))
    ensures r.1 in r.0.rows && r.1.val.mobile == mobile
    ensures FirstUser(users.rows, mobile).Some? ==> r.0 == users && r.1 == users.rows[FirstUser(users.rows, mobile).value]
    ensures FirstUser(users.rows, mobile).None? ==> r.0 == Insert(users, User(mobile, false)) && r.1 == Row(users.nextId, User(mobile, false))
  {
    match FirstUser(users.rows, mobile)
    case Some(k) => (users, users.rows[k])
    case None => (Insert(users, User(mobile, false)), Row(users.nextId, User(mobile, false)))
  }

  /** Signing in again with the same number finds the same user and creates nobody. */
  lemma SignInIdempotent(users: Table<User>, mobile: string)
    ensures SignIn(SignIn(users, mobile).0, mobile) == SignIn(users, mobile)
  {
    var (t, u) := SignIn(users, mobile);
    if FirstUser(users.rows, mobile).None? {
      assert t.rows[|users.rows|] == u;
      var f := FirstUser(t.rows, mobile);
      assert f == Some(|users.rows|) by {
        assert f.Some?;
        assert forall j :: 0 <= j < |users.rows| ==> t.rows[j] == users.rows[j];
      }
    }
  }

  /** What the token carries besides its expiry; its encoding is not modelled. */
  datatype TokenClaims = TokenClaims(userId: Id, mobile: string)

  /** The `data` of a successful verification. */
  datatype Session = Session(userId: Id, mobile: string, registrationComplete: bool, requiresRegistration: bool, token: Option<TokenClaims>)

  /** The response for a signed-in user: a token is issued exactly when registration is complete. */
  function SessionOf(user: Row<User>): (s: Session)
    ensures s.userId == user.id && s.mobile == user.val.mobile
    ensures s.token.Some? <==> user.val.registrationComplete
    ensures s.requiresRegistration <==> s.token.None?
    ensures s.token.Some? ==> s.token.value == TokenClaims(user.id, user.val.mobile)
  {
    Session(user.id, user.val.mobile, user.val.registrationComplete, !user.val.registrationComplete,
            if user.val.registrationComplete then Some(TokenClaims(user.id, user.val.mobile)) else None)
  }

  /** A user created by a verification has no token yet. */
  lemma FirstSignInHasNoToken(users: Table<User>, mobile: string)
    requires FirstUser(users.rows, mobile).None?
    ensures SessionOf(SignIn(users, mobile).1).token.None?
    ensures SessionOf(SignIn(users, mobile).1).requiresRegistration
  {
  }

  /**
   * `verifyOtp` at time `now`. Bad input is refused (422); no pending match,
   * or an expired one, is refused (401); in every refusal nothing changes.
   * Otherwise the match is consumed and the user signed in.
   */
  method VerifyOtp(db: Db, mobile: string, code: string, now: int) returns (r: Result<Session, Error>)
    requires Tables.Valid(db.otps) && Tables.Valid(db.users)
    modifies db`otps, db`users
    ensures Tables.Valid(db.otps) && Tables.Valid(db.users)
    ensures r.Failure? ==> unchanged(db`otps, db`users)
    ensures !ValidMobile(mobile) || !ValidCode(code) ==> r == Failure(ValidationFailed)
    ensures ValidMobile(mobile) && ValidCode(code) && LatestPending(old(db.otps.rows), mobile, code).None? ==> r == Failure(InvalidOtp)
    ensures ValidMobile(mobile) && ValidCode(code) && LatestPending(old(db.otps.rows), mobile, code).Some?
      ==> var k := LatestPending(old(db.otps.rows), mobile, code).value;
          if Expired(old(db.otps.rows)[k].val, now) then r == Failure(ExpiredOtp)
          else && db.otps == Table(Consume(old(db.otps.rows), k), old(db.otps.nextId))
               && db.users == SignIn(old(db.users), mobile).0
               && r == Success(SessionOf(SignIn(old(db.users), mobile).1))
  {
    if !ValidMobile(mobile) || !ValidCode(code) {
      return Failure(ValidationFailed);
    }
    var found := LatestPending(db.otps.rows, mobile, code);
    if found.None? {
      return Failure(InvalidOtp);
    }
    var k := found.value;
    if Expired(db.otps.rows[k].val, now) {
      return Failure(ExpiredOtp);
    }
    ReplaceValid(db.otps, db.otps.rows[k].id, db.otps.rows[k].val.(verified := true));
    db.otps := Table(Consume(db.otps.rows, k), db.otps.nextId);
    var signedIn := SignIn(db.users, mobile);
    db.users := signedIn.0;
    r := Success(SessionOf(signedIn.1));
  }
}
