/** The two-step password reset of the API: "forgot" issues a one-time password
    and e-mails it, "reset" consumes it and replaces the password hash. The user
    table is a map from e-mail to password hash, hashing is an uninterpreted
    function, and the outcomes of e-mail delivery and of saving to the database
    are parameters. */
module PasswordReset {
  import opened Text
  import opened Otp

  /** The HTTP results the two handlers produce. */
  datatype Response =
    | Ok(message: string)
    | BadRequestModelState          // `BadRequest(ModelState)`: the request body failed validation
    | BadRequest(error: string)
    | NotFound(error: string)
    | ServerError(error: string)    // `StatusCode(500, ...)`

  const GenericMessage: string := "If the email is registered, you will receive an OTP."
  const SendFailedError: string := "Failed to send OTP email"
  const InvalidOtpError: string := "Invalid or expired OTP"
  const UserNotFoundError: string := "User not found"
  const ResetDoneMessage: string := "Password reset successfully"
  const ResetFailedError: string := "An error occurred while resetting the password"

  /** An OTP e-mail handed to the e-mail service: recipient as given, and the code. */
  datatype Mail = Mail(recipient: string, otp: string)

  class PasswordResetController {
    const otpService: OtpService
    /** The user table: e-mail, exactly as stored, to password hash. */
    var users: map<string, string>
    /** Every OTP e-mail the controller asked the e-mail service to send. */
    var outbox: seq<Mail>
    /** The password hashing function (BCrypt in the source). */
    const hash: string -> string

    constructor(otpService: OtpService, users: map<string, string>, hash: string -> string)
      ensures this.otpService == otpService && this.users == users && this.hash == hash
      ensures outbox == []
    {
      this.otpService := otpService;
      this.users := users;
      this.hash := hash;
      outbox := [];
    }

    /** "Forgot password". An invalid request is refused before anything else. The
        user lookup uses the lower-cased e-mail; an unknown e-mail gets the generic
        acknowledgement with no OTP stored and no e-mail sent. For a known user a
        fresh code is stored under the e-mail and then sent to it; a failed send is
        reported as a server error, and the stored code stays. */
    method ForgotPassword(modelValid: bool, email: string, now: Time, emailSent: bool) returns (resp: Response)
      modifies this, otpService
      ensures users == old(users)
      ensures !modelValid ==>
        resp == BadRequestModelState &&
        otpService.store == old(otpService.store) && outbox == old(outbox)
      ensures modelValid && Lower(email) !in users ==>
        resp == Ok(GenericMessage) &&
        otpService.store == old(otpService.store) && outbox == old(outbox)
      ensures modelValid && Lower(email) in users ==>
        exists code ::
          (exists n :: OtpLow <= n < OtpHigh && code == NatToDecimal(n)) &&
          IsOtpCode(code) && code != "999999" &&
          otpService.store == Put(old(otpService.store), email, code, now) &&
          outbox == old(outbox) + [Mail(email, code)]
      ensures modelValid && Lower(email) in users ==>
        resp == if emailSent then Ok(GenericMessage) else ServerError(SendFailedError)
      // The answer never tells a registered e-mail from an unregistered one.
      ensures resp.Ok? ==> resp == Ok(GenericMessage)
    {
      if !modelValid {
        return BadRequestModelState;
      }
      if Lower(email) !in users {
        return Ok(GenericMessage);
      }
      var code := otpService.GenerateOtp();
      var _ := otpService.StoreOtp(email, code, now);
      outbox := outbox + [Mail(email, code)];
      if !emailSent {
        return ServerError(SendFailedError);
      }
      return Ok(GenericMessage);
    }

    /** "Reset password". An invalid request is refused first. A code that fails
        verification is refused with nothing changed. The user lookup uses the
        e-mail exactly as given (not lower-cased); a missing user is NotFound and
        the code stays. A failed save is a server error with nothing changed.
        Otherwise the user's hash becomes `hash(newPassword)`, other users are
        untouched, and the code is removed. */
    method ResetPassword(modelValid: bool, email: string, otp: string, newPassword: string,
                         now: Time, saveSucceeds: bool) returns (resp: Response)
      modifies this, otpService
      ensures outbox == old(outbox)
      ensures !modelValid ==>
        resp == BadRequestModelState &&
        users == old(users) && otpService.store == old(otpService.store)
      ensures modelValid && !Accepts(old(otpService.store), email, otp, now) ==>
        resp == BadRequest(InvalidOtpError) &&
        users == old(users) && otpService.store == old(otpService.store)
      ensures modelValid && Accepts(old(otpService.store), email, otp, now) && email !in old(users) ==>
        resp == NotFound(UserNotFoundError) &&
        users == old(users) && otpService.store == old(otpService.store)
      ensures modelValid && Accepts(old(otpService.store), email, otp, now) && email in old(users) && !saveSucceeds ==>
        resp == ServerError(ResetFailedError) &&
        users == old(users) && otpService.store == old(otpService.store)
      ensures modelValid && Accepts(old(otpService.store), email, otp, now) && email in old(users) && saveSucceeds ==>
        resp == Ok(ResetDoneMessage) &&
        users == old(users)[email := hash(newPassword)] &&
        otpService.store == Without(old(otpService.store), email)
    {
      if !modelValid {
        return BadRequestModelState;
      }
      var isValid := otpService.VerifyOtp(email, otp, now);
      if !isValid {
        return BadRequest(InvalidOtpError);
      }
      if email !in users {
        return NotFound(UserNotFoundError);
      }
      if !saveSucceeds {
        return ServerError(ResetFailedError);
      }
      users := users[email := hash(newPassword)];
      otpService.RemoveOtp(email);
      return Ok(ResetDoneMessage);
    }
  }

  /** A code issued for "b@x.com": a wrong code is refused, the right one resets
      the password, and the same code cannot be used a second time. */
  method ReuseScenario(hash: string -> string) returns (wrong: Response, right: Response, again: Response)
    ensures wrong == BadRequest(InvalidOtpError)
    ensures right == Ok(ResetDoneMessage)
    ensures again == BadRequest(InvalidOtpError)
  {
    var otps := new OtpService();
    var controller := new PasswordResetController(otps, map["b@x.com" := "old-hash"], hash);
    var _ := otps.StoreOtp("b@x.com", "123456", 0);
    wrong := controller.ResetPassword(true, "b@x.com", "654321", "newpass", 1, true);
    right := controller.ResetPassword(true, "b@x.com", "123456", "newpass", 2, true);
    assert controller.users["b@x.com"] == hash("newpass");
    again := controller.ResetPassword(true, "b@x.com", "123456", "newpass", 3, true);
  }

  /** The lookups disagree on case: "forgot" finds "bob@x.com" when asked for
      "Bob@x.com" and sends a code, which verifies, but "reset" with the same
      spelling finds no user; the all-lower-case spelling succeeds. */
  method MixedCaseScenario(hash: string -> string) returns (forgot: Response, mixed: Response, lower: Response)
    ensures forgot == Ok(GenericMessage)
    ensures mixed == NotFound(UserNotFoundError)
    ensures lower == Ok(ResetDoneMessage)
  {
    var otps := new OtpService();
    var controller := new PasswordResetController(otps, map["bob@x.com" := "old-hash"], hash);
    assert Lower("Bob@x.com") == "bob@x.com" == Lower("bob@x.com");
    forgot := controller.ForgotPassword(true, "Bob@x.com", 0, true);
    var code := controller.outbox[0].otp;
    assert Accepts(otps.store, "Bob@x.com", code, 1);
    mixed := controller.ResetPassword(true, "Bob@x.com", code, "newpass", 1, true);
    assert Accepts(otps.store, "bob@x.com", code, 2);
    lower := controller.ResetPassword(true, "bob@x.com", code, "newpass", 2, true);
  }
}
