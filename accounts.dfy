/** The backend's account service (`UserService`): registration with an
    encoded password, and the one-time-password protocol for resetting a
    password. The OTP store is the service's in-memory map from email to
    OTP; the user repository is a map from email to user; the password
    encoder and the random draw are parameters. */
module Accounts {
  import opened Wrappers
  import opened Text

  /** A user as the repository stores it. */
  datatype UserRecord = UserRecord(username: Option<string>, email: Option<string>, password: string)

  const OtpBase: nat := 100000
  /** `nextInt(900000)` draws from 0 to 899999. */
  const OtpSpan: nat := 900000

  /** `String.valueOf(100000 + draw)`: always six decimal digits. */
  function OtpFor(draw: nat): (otp: string)
    requires draw < OtpSpan
    ensures |otp| == 6 && forall i :: 0 <= i < |otp| ==> '0' <= otp[i] <= '9'
    ensures otp[0] != '0'
    ensures ParseDecimal(otp) == OtpBase + draw
    ensures 100000 <= ParseDecimal(otp) <= 999999
  {
    DecimalStringLength(OtpBase + draw, 5);
    ParseDecimalString(OtpBase + draw);
    DecimalString(OtpBase + draw)
  }

  /** Distinct draws give distinct OTPs. */
  lemma OtpForInjective(d1: nat, d2: nat)
    requires d1 < OtpSpan && d2 < OtpSpan && OtpFor(d1) == OtpFor(d2)
    ensures d1 == d2
  {
    assert ParseDecimal(OtpFor(d1)) == ParseDecimal(OtpFor(d2));
  }

  /** `generateOtp` as a value: the result and the new OTP store. */
  function Generate(otpStore: map<string, string>, users: map<string, UserRecord>, email: string, draw: nat)
    : (r: (Result<string, string>, map<string, string>))
    requires draw < OtpSpan
    ensures email !in users ==> r == (Err("Email not found"), otpStore)
    ensures email in users ==> r.0 == Ok(OtpFor(draw)) && r.1 == otpStore[email := OtpFor(draw)]
  {
    if email !in users then (Err("Email not found"), otpStore)
    else
      var otp := OtpFor(draw);
      (Ok(otp), otpStore[email := otp])
  }

  /** `resetPasswordWithOtp` as a value: the result (the user saved), the new
      OTP store and the new repository. */
  function Reset(otpStore: map<string, string>, users: map<string, UserRecord>, email: string,
                 otp: Option<string>, newPassword: string, encode: string -> string)
    : (r: (Result<UserRecord, string>, map<string, string>, map<string, UserRecord>))
  {
    if email !in otpStore || otp != Some(otpStore[email]) then (Err("Invalid OTP"), otpStore, users)
    else if email !in users then (Err("User not found"), otpStore, users)
    else
      var updated := users[email].(password := encode(newPassword));
      (Ok(updated), otpStore - {email}, users[email := updated])
  }

  /** A missing or different OTP fails and changes nothing. */
  lemma ResetRejectsWrongOtp(otpStore: map<string, string>, users: map<string, UserRecord>, email: string,
                             otp: Option<string>, newPassword: string, encode: string -> string)
    requires email !in otpStore || otp != Some(otpStore[email])
    ensures Reset(otpStore, users, email, otp, newPassword, encode) == (Err("Invalid OTP"), otpStore, users)
  {
  }

  /** A right OTP for an email without a user fails and keeps the OTP, so it
      can still be used once the user exists. */
  lemma ResetKeepsOtpForMissingUser(otpStore: map<string, string>, users: map<string, UserRecord>, email: string,
                                    newPassword: string, encode: string -> string)
    requires email in otpStore && email !in users
    ensures var r := Reset(otpStore, users, email, Some(otpStore[email]), newPassword, encode);
            r == (Err("User not found"), otpStore, users)
  {
  }

  /** A successful reset sets that user's encoded password, removes that
      email's OTP and no other entry, and the same OTP then fails. */
  lemma ResetIsSingleUse(otpStore: map<string, string>, users: map<string, UserRecord>, email: string,
                         otp: Option<string>, newPassword: string, again: string, encode: string -> string)
    requires Reset(otpStore, users, email, otp, newPassword, encode).0.Ok?
    ensures var (r, store, saved) := Reset(otpStore, users, email, otp, newPassword, encode);
            && email in users && r.value == users[email].(password := encode(newPassword))
            && saved == users[email := r.value]
            && email !in store && (forall e :: e in store <==> e in otpStore && e != email)
            && (forall e :: e in store ==> store[e] == otpStore[e])
            && Reset(store, saved, email, otp, again, encode) == (Err("Invalid OTP"), store, saved)
  {
  }

  /** The OTP just generated for a registered email resets that email's
      password. */
  lemma GeneratedOtpResets(otpStore: map<string, string>, users: map<string, UserRecord>, email: string,
                           draw: nat, newPassword: string, encode: string -> string)
    requires draw < OtpSpan && email in users
    ensures var (otp, store) := Generate(otpStore, users, email, draw);
            Reset(store, users, email, Some(otp.value), newPassword, encode).0
              == Ok(users[email].(password := encode(newPassword)))
  {
  }

  class UserService {
    var otpStore: map<string, string>
    /** The user repository, looked up by email. */
    var users: map<string, UserRecord>

    constructor (users: map<string, UserRecord>)
      ensures otpStore == map[] && this.users == users
    {
      otpStore := map[];
      this.users := users;
    }

    /** `registerUser`: a null user is refused; otherwise the password is
        replaced by its encoding and the user saved. */
    method RegisterUser(user: Option<UserRecord>, encode: string -> string) returns (r: Result<UserRecord, string>)
      modifies this`users
      ensures user.None? ==> r == Err("User cannot be null") && users == old(users)
      ensures user.Some? ==> r == Ok(user.value.(password := encode(user.value.password)))
      ensures user.Some? && user.value.email.Some? ==> users == old(users)[user.value.email.value := r.value]
      ensures user.Some? && user.value.email.None? ==> users == old(users)
    {
      if user.None? {
        return Err("User cannot be null");
      }
      var encoded := user.value.(password := encode(user.value.password));
      if encoded.email.Some? {
        users := users[encoded.email.value := encoded];
      }
      r := Ok(encoded);
    }

    /** `generateOtp`, with `draw` the random number drawn. */
    method GenerateOtp(email: string, draw: nat) returns (r: Result<string, string>)
      requires draw < OtpSpan
      modifies this`otpStore
      ensures (r, otpStore) == Generate(old(otpStore), old(users), email, draw)
    {
      if email !in users {
        return Err("Email not found");
      }
      var otp := OtpFor(draw);
      otpStore := otpStore[email := otp];
      r := Ok(otp);
    }

    /** `resetPasswordWithOtp`. The OTP is removed only after the user was
        found and saved. */
    method ResetPasswordWithOtp(email: string, otp: Option<string>, newPassword: string, encode: string -> string)
      returns (r: Result<UserRecord, string>)
      modifies this`otpStore, this`users
      ensures (r, otpStore, users) == Reset(old(otpStore), old(users), email, otp, newPassword, encode)
    {
      var storedOtp := if email in otpStore then Some(otpStore[email]) else None;
      if storedOtp.None? || storedOtp != otp {
        return Err("Invalid OTP");
      }
      if email !in users {
        return Err("User not found");
      }
      var user := users[email].(password := encode(newPassword));
      users := users[email := user];
      otpStore := otpStore - {email};
      r := Ok(user);
    }
  }
}
