/** The three-step password reset wizard: ask for an OTP by e-mail, check the
    entered OTP against the one the server returned, then set the new
    password. */
module ForgotPassword {
  import opened Common
  import opened Text

  /** The requests the wizard posts, in order. */
  datatype Request =
    | SendOtp(email: string)
    | UpdatePassword(email: string, password: string)

  /** The whole numbers a JavaScript double holds exactly: below 2^53. */
  type SafeWhole = n: nat | n < 0x20_0000_0000_0000

  /** The `otp.otp` field of the OTP response: missing, a non-negative whole
      number that a double holds exactly, or a string. */
  datatype OtpField = Missing | Number(n: SafeWhole) | Str(s: string)

  /** What `res.data.otp.otp.toString()` gives, or nothing when the field is
      missing and the read throws. */
  function OtpString(f: OtpField): (r: Option<string>)
    ensures r.None? <==> f.Missing?
    ensures f.Number? ==> r.value == NatToString(f.n) && AllDigits(r.value)
    ensures f.Str? ==> r.value == f.s
  {
    match f
    case Missing => None
    case Number(n) => Some(NatToString(n))
    case Str(s) => Some(s)
  }

  /** The OTP check compares strings exactly: an entry equals the server's
      OTP only if it is that number's own decimal digits, so an entry with a
      leading zero never passes for a non-zero OTP. */
  lemma OtpGateExact(otp: nat, entered: string)
    ensures entered == NatToString(otp) ==> AllDigits(entered) && DecimalValue(entered) == otp
    ensures |entered| > 0 && entered[0] == '0' && otp != 0 ==> entered != NatToString(otp)
  {
    NatToStringRoundTrip(otp);
  }

  /** The state of the wizard. `step` is 1 (e-mail), 2 (OTP) or 3 (new
      password); each handler is reachable only from the form of its step. */
  class PasswordWizard {
    var step: int
    var email: string
    var serverOtp: string
    var enteredOtp: string
    var password: string
    var retypePassword: string
    var snack: Option<Snack>
    var requests: seq<Request>
    /** The delayed navigation to the login page has been scheduled. */
    var loginScheduled: bool

    ghost predicate Valid()
      reads this`step
    {
      1 <= step <= 3
    }

    constructor ()
      ensures Valid() && step == 1
      ensures email == "" && serverOtp == "" && enteredOtp == ""
      ensures password == "" && retypePassword == ""
      ensures snack == None && requests == [] && !loginScheduled
    {
      step := 1;
      email, serverOtp, enteredOtp := "", "", "";
      password, retypePassword := "", "";
      snack, requests, loginScheduled := None, [], false;
    }

    method SetEmail(v: string)
      modifies this`email
      ensures email == v
    {
      email := v;
    }

    method SetEnteredOtp(v: string)
      modifies this`enteredOtp
      ensures enteredOtp == v
    {
      enteredOtp := v;
    }

    method SetPassword(v: string)
      modifies this`password
      ensures password == v
    {
      password := v;
    }

    method SetRetypePassword(v: string)
      modifies this`retypePassword
      ensures retypePassword == v
    {
      retypePassword := v;
    }

    /** Step 1: the e-mail is posted; the OTP that comes back is kept as a
        string and the wizard moves to step 2. A failure stays at step 1 with
        the server's message, or a generic one. A response without the OTP
        field throws after the success notice, and the catch replaces that
        notice with the generic error; the step stays 1. */
    method SubmitEmail(res: Fetch<OtpField>)
      requires Valid() && step == 1
      modifies this`step, this`serverOtp, this`snack, this`requests
      ensures Valid() && step >= old(step)
      ensures requests == old(requests) + [SendOtp(email)]
      ensures res.Ok? && !res.data.Missing? ==>
        step == 2 && Some(serverOtp) == OtpString(res.data) &&
        snack == Some(Snack("OTP sent successfully check your inbox ", Success))
      ensures res.Ok? && res.data.Missing? ==>
        step == 1 && serverOtp == old(serverOtp) &&
        snack == Some(Snack("Something went wrong", Error))
      ensures res.Err? ==>
        step == 1 && serverOtp == old(serverOtp) &&
        snack == Some(Snack(OrElse(res.message, "Something went wrong"), Error))
    {
      requests := requests + [SendOtp(email)];
      match res {
        case Ok(field) =>
          snack := Some(Snack("OTP sent successfully check your inbox ", Success));
          var otp := OtpString(field);
          if otp.None? {
            snack := Some(Snack("Something went wrong", Error));
            return;
          }
          serverOtp := otp.value;
          step := 2;
        case Err(m) =>
          snack := Some(Snack(OrElse(m, "Something went wrong"), Error));
      }
    }

    /** Step 2: the wizard moves to step 3 exactly when the entered OTP is the
        server's OTP, character for character. */
    method SubmitOtp()
      requires Valid() && step == 2
      modifies this`step, this`snack
      ensures Valid() && step >= old(step)
      ensures enteredOtp == serverOtp ==> step == 3 && snack == old(snack)
      ensures enteredOtp != serverOtp ==> step == 2 && snack == Some(Snack("Invalid OTP", Error))
    {
      if enteredOtp == serverOtp {
        step := 3;
      } else {
        snack := Some(Snack("Invalid OTP", Error));
      }
    }

    /** Step 3: differing passwords make no request; otherwise the new password
        is posted and, on success, the move to the login page is scheduled.
        The step stays 3. */
    method ResetPassword(res: Fetch<Option<string>>) returns (requested: bool)
      requires Valid() && step == 3
      modifies this`snack, this`requests, this`loginScheduled
      ensures Valid() && step == 3
      ensures requested <==> password == retypePassword
      ensures !requested ==>
        requests == old(requests) && loginScheduled == old(loginScheduled) &&
        snack == Some(Snack("Passwords do not match", Error))
      ensures requested ==> requests == old(requests) + [UpdatePassword(email, password)]
      ensures requested && res.Ok? ==>
        loginScheduled &&
        snack == Some(Snack(OrElse(res.data, "Password reset successfully"), Success))
      ensures requested && res.Err? ==>
        loginScheduled == old(loginScheduled) &&
        snack == Some(Snack(OrElse(res.message, "Something went wrong"), Error))
    {
      if password != retypePassword {
        snack := Some(Snack("Passwords do not match", Error));
        return false;
      }
      requested := true;
      requests := requests + [UpdatePassword(email, password)];
      match res {
        case Ok(m) =>
          snack := Some(Snack(OrElse(m, "Password reset successfully"), Success));
          loginScheduled := true;
        case Err(m) =>
          snack := Some(Snack(OrElse(m, "Something went wrong"), Error));
      }
    }
  }

  /** A full run: the right OTP leads to step 3, and matching passwords post
      the reset. */
  method WizardScenario(mail: string, otp: SafeWhole, pw: string)
  {
    var w := new PasswordWizard();
    w.SetEmail(mail);
    w.SubmitEmail(Ok(Number(otp)));
    assert w.step == 2;
    w.SetEnteredOtp(NatToString(otp));
    w.SubmitOtp();
    assert w.step == 3;
    w.SetPassword(pw);
    w.SetRetypePassword(pw);
    var requested := w.ResetPassword(Ok(None));
    assert requested && w.requests == [SendOtp(mail), UpdatePassword(mail, pw)];
  }
}
