/** The sign-in page (`pages/Login.jsx`): the e-mail shape check, the OTP
    input sanitiser and length gate, the normalised e-mail every request
    carries, the resend countdown, and the form shown for each state. The
    requests themselves are parameters: each handler receives what its
    request returned or threw. */
module Login {
  import opened Options
  import opened Text
  import opened Seqs

  // ---------------------------------------------------------------------------
  // The e-mail shape

  /** A character of the class `[^\s@]`. */
  predicate Plain(c: char) {
    !IsWhitespace(c) && c != '@'
  }

  predicate AllPlain(s: string) {
    forall i :: 0 <= i < |s| ==> Plain(s[i])
  }

  /** The pattern `^[^\s@]+@[^\s@]+\.[^\s@]+$` read structurally: s splits as
      local "@" host "." tail with three non-empty runs of plain characters. */
  ghost predicate MatchesEmailPattern(s: string) {
    exists k, j :: 0 < k && k + 1 < j < |s| - 1 && s[k] == '@' && s[j] == '.'
                   && AllPlain(s[..k]) && AllPlain(s[k + 1..j]) && AllPlain(s[j + 1..])
  }

  function IsAt(c: char): bool {
    c == '@'
  }

  /** The check as the page evaluates it: no whitespace, the first "@" not at
      the start, no second "@", and a "." strictly inside the domain. */
  predicate ValidEmail(s: string) {
    && NoWhitespace(s)
    && var k := FirstIndex(s, IsAt);
    && 0 < k
    && '@' !in s[k + 1..]
    && |s| - k - 1 >= 2 && '.' in s[k + 2..|s| - 1]
  }

  /** The check accepts exactly the strings the pattern matches. */
  lemma ValidEmailIff(s: string)
    ensures ValidEmail(s) <==> MatchesEmailPattern(s)
  {
    if ValidEmail(s) {
      ValidEmailMatches(s);
    }
    if MatchesEmailPattern(s) {
      var k, j :| 0 < k && k + 1 < j < |s| - 1 && s[k] == '@' && s[j] == '.'
                  && AllPlain(s[..k]) && AllPlain(s[k + 1..j]) && AllPlain(s[j + 1..]);
      MatchValid(s, k, j);
    }
  }

  lemma ValidEmailMatches(s: string)
    requires ValidEmail(s)
    ensures MatchesEmailPattern(s)
  {
    var k := FirstIndex(s, IsAt);
    var m :| 0 <= m < |s[k + 2..|s| - 1]| && s[k + 2..|s| - 1][m] == '.';
    var j := k + 2 + m;
    assert s[j] == '.';
    forall i | 0 <= i < |s| && i != k ensures Plain(s[i]) {
      if i > k {
        assert s[k + 1..][i - k - 1] == s[i];
      } else {
        assert !IsAt(s[i]);
      }
    }
    AllPlainRange(s, 0, k);
    AllPlainRange(s, k + 1, j);
    AllPlainRange(s, j + 1, |s|);
    assert s[..k] == s[0..k] && s[j + 1..] == s[j + 1..|s|];
  }

  lemma MatchValid(s: string, k: nat, j: nat)
    requires 0 < k && k + 1 < j < |s| - 1 && s[k] == '@' && s[j] == '.'
    requires AllPlain(s[..k]) && AllPlain(s[k + 1..j]) && AllPlain(s[j + 1..])
    ensures ValidEmail(s)
  {
    PlainSplit(s, k, j);
    FirstIndexIsUnique(s, IsAt, k);
    assert s[k + 2..|s| - 1][j - k - 2] == '.';
  }

  lemma AllPlainRange(s: string, lo: nat, hi: nat)
    requires lo <= hi <= |s| && forall i :: lo <= i < hi ==> Plain(s[i])
    ensures AllPlain(s[lo..hi])
  {
    assert forall i :: 0 <= i < hi - lo ==> s[lo..hi][i] == s[lo + i];
  }

  /** What a pattern match says character by character. */
  lemma PlainSplit(s: string, k: nat, j: nat)
    requires 0 < k && k + 1 < j < |s| - 1 && s[k] == '@' && s[j] == '.'
    requires AllPlain(s[..k]) && AllPlain(s[k + 1..j]) && AllPlain(s[j + 1..])
    ensures forall i :: 0 <= i < k ==> s[i] != '@'
    ensures '@' !in s[k + 1..]
    ensures NoWhitespace(s)
  {
    forall i | 0 <= i < |s| ensures !IsWhitespace(s[i]) && (i != k ==> s[i] != '@') {
      if i < k {
        assert s[..k][i] == s[i];
      } else if k < i < j {
        assert s[k + 1..j][i - k - 1] == s[i];
      } else if j < i {
        assert s[j + 1..][i - j - 1] == s[i];
      }
    }
  }

  /** An accepted address holds exactly one "@". */
  lemma ValidEmailOneAt(s: string)
    requires ValidEmail(s)
    ensures multiset(s)['@'] == 1
  {
    var k := FirstIndex(s, IsAt);
    assert s == s[..k] + [s[k]] + s[k + 1..];
    assert '@' !in s[..k] by {
      forall i | 0 <= i < k ensures s[..k][i] != '@' {
        assert !IsAt(s[i]);
      }
    }
    assert multiset(s) == multiset(s[..k]) + multiset([s[k]]) + multiset(s[k + 1..]);
  }

  /** The message `handleSendOtp` stops at before any request. */
  function EmailError(email: string): (r: Option<string>)
    ensures r == None <==> ValidEmail(email)
    ensures email == "" ==> r == Some("Please enter your email")
    ensures email != "" && !ValidEmail(email) ==> r == Some("Please enter a valid email address")
  {
    if email == "" then Some("Please enter your email")
    else if !ValidEmail(email) then Some("Please enter a valid email address")
    else None
  }

  // ---------------------------------------------------------------------------
  // The OTP field

  function IsDigitChar(c: char): bool {
    IsDigit(c)
  }

  /** The OTP input's `replace(/\D/g, "").slice(0, 6)`. */
  function SanitizeOtp(raw: string): string {
    var digits := Filter(raw, IsDigitChar);
    if |digits| <= 6 then digits else digits[..6]
  }

  /** The field holds the first six digits typed (all of them when fewer were
      typed), and sanitising what it holds changes nothing. */
  lemma SanitizeOtpSpec(raw: string)
    ensures |SanitizeOtp(raw)| <= 6
    ensures |SanitizeOtp(raw)| == if |Filter(raw, IsDigitChar)| <= 6 then |Filter(raw, IsDigitChar)| else 6
    ensures forall i :: 0 <= i < |SanitizeOtp(raw)| ==> IsDigit(SanitizeOtp(raw)[i])
    ensures SanitizeOtp(raw) == Filter(raw, IsDigitChar)[..|SanitizeOtp(raw)|]
    ensures SanitizeOtp(SanitizeOtp(raw)) == SanitizeOtp(raw)
  {
    var digits := Filter(raw, IsDigitChar);
    var r := SanitizeOtp(raw);
    assert r == if |digits| <= 6 then digits else digits[..6];
    FilterKeepsAll(r, IsDigitChar);
  }

  /** The message `handleVerifyOtp` stops at before any request. */
  function OtpError(otp: string): (r: Option<string>)
    ensures r == None <==> |otp| == 6
    ensures otp == "" ==> r == Some("Please enter the OTP")
    ensures otp != "" && |otp| != 6 ==> r == Some("OTP must be 6 digits")
  {
    if otp == "" then Some("Please enter the OTP")
    else if |otp| != 6 then Some("OTP must be 6 digits")
    else None
  }

  /** A field filled from six or more digits passes the gate. */
  lemma SanitizedOtpPasses(raw: string)
    requires |Filter(raw, IsDigitChar)| >= 6
    ensures OtpError(SanitizeOtp(raw)) == None
  {
  }

  // ---------------------------------------------------------------------------
  // The address every request carries

  /** `email.toLowerCase().trim()` */
  function NormalizeEmail(email: string): string {
    Trim(ToLower(email))
  }

  /** The address sent has no upper-case letter and no whitespace at either
      end, and normalising it again changes nothing. */
  lemma NormalizeEmailSpec(email: string)
    ensures |NormalizeEmail(email)| <= |email|
    ensures forall i :: 0 <= i < |NormalizeEmail(email)| ==> !IsUpper(NormalizeEmail(email)[i])
    ensures |NormalizeEmail(email)| > 0 ==>
              && !IsWhitespace(NormalizeEmail(email)[0])
              && !IsWhitespace(NormalizeEmail(email)[|NormalizeEmail(email)| - 1])
    ensures NormalizeEmail(NormalizeEmail(email)) == NormalizeEmail(email)
  {
    var lower := ToLower(email);
    var lo, hi := TrimBounds(lower);
    var n := NormalizeEmail(email);
    assert forall i :: 0 <= i < |n| ==> n[i] == lower[lo + i];
    assert ToLower(n) == n;
    TrimIdempotent(lower);
  }

  // ---------------------------------------------------------------------------
  // The page

  datatype Form = ResetForm | EmailForm | OtpForm | PasswordForm

  /** What a request to the auth server came back with: a reply whose
      `success`, `token`, `user` (as `JSON.stringify` writes it) and `message`
      the page reads, or an exception carrying the server's message, if any. */
  datatype Reply = Received(success: bool, token: Option<string>, user: string, message: Option<string>)
                 | Thrown(serverMessage: Option<string>)

  /** What `localStorage.setItem("token", token)` stores; a missing token
      becomes the text "undefined". */
  function StoredToken(token: Option<string>): string {
    if token.Some? then token.value else "undefined"
  }

  const ResendDelay := 60
  const ProfilePath := "/account/profile"

  class LoginScreen {
    var email: string
    var otp: string
    var password: string
    var error: string
    var success: string
    var forgotPassword: bool
    var forgotEmail: string
    var forgotError: string
    var forgotSuccess: string
    var otpSent: bool
    var otpVerified: bool
    var countdown: nat
    var isLoading: bool
    /** `localStorage` */
    var storage: map<string, string>
    /** Where the page navigates once the redirect delay has passed. */
    var redirect: Option<string>

    /** The countdown never exceeds the resend delay. */
    predicate Valid()
      reads this
    {
      countdown <= ResendDelay
    }

    /** Mounting the page clears any stored session. */
    constructor (stored: map<string, string>)
      ensures Valid()
      ensures storage == stored - {"token", "userData", "isLoggedIn"}
      ensures email == "" && otp == "" && password == "" && error == "" && success == ""
      ensures !forgotPassword && forgotEmail == "" && forgotError == "" && forgotSuccess == ""
      ensures !otpSent && !otpVerified && countdown == 0 && !isLoading && redirect == None
      ensures Screen() == EmailForm
    {
      email, otp, password, error, success := "", "", "", "", "";
      forgotPassword, forgotEmail, forgotError, forgotSuccess := false, "", "", "";
      otpSent, otpVerified, countdown, isLoading := false, false, 0, false;
      storage := stored - {"token", "userData", "isLoggedIn"};
      redirect := None;
    }

    /** The form the page renders. */
    function Screen(): (f: Form)
      reads this
      ensures f == ResetForm <==> forgotPassword
      ensures f == EmailForm <==> !forgotPassword && !otpSent
      ensures f == OtpForm <==> !forgotPassword && otpSent && !otpVerified
      ensures f == PasswordForm <==> !forgotPassword && otpSent && otpVerified
    {
      if forgotPassword then ResetForm
      else if !otpSent then EmailForm
      else if !otpVerified then OtpForm
      else PasswordForm
    }

    /** Typing into the OTP field. */
    method EnterOtp(raw: string)
      modifies this`otp
      ensures otp == SanitizeOtp(raw)
    {
      otp := SanitizeOtp(raw);
    }

    /** `handleSendOtp`; `sent` is the address posted to send-otp, if any. */
    method SendOtp(reply: Reply) returns (sent: Option<string>)
      requires Valid()
      modifies this`error, this`success, this`forgotError, this`forgotSuccess, this`isLoading
      modifies this`otpSent, this`countdown
      ensures Valid() && !isLoading && forgotError == "" && forgotSuccess == ""
      ensures sent.Some? <==> EmailError(email) == None
      ensures EmailError(email).Some? ==> error == EmailError(email).value && success == ""
      ensures sent.Some? ==> sent.value == NormalizeEmail(email)
      ensures sent.Some? && reply.Received? && reply.success ==>
                otpSent && countdown == ResendDelay && success == "OTP sent to your email successfully!" && error == ""
      ensures sent.Some? && reply.Thrown? ==>
                error == OrElse(reply.serverMessage, "Failed to send OTP. Please try again.") && success == ""
      ensures !(sent.Some? && reply.Received? && reply.success) ==>
                otpSent == old(otpSent) && countdown == old(countdown)
      ensures sent.Some? && reply.Received? && !reply.success ==> error == "" && success == ""
    {
      error, success, forgotError, forgotSuccess := "", "", "", "";  // clearMessages()
      isLoading := true;
      sent := EmailRequest();
      if sent.Some? {
        SendOtpReply(reply);
      } else {
        isLoading := false;
      }
    }

    /** The check `handleSendOtp` makes before its request: the message it
        shows, or the address it posts. */
    method EmailRequest() returns (address: Option<string>)
      modifies this`error
      ensures address.Some? <==> EmailError(email) == None
      ensures address.Some? ==> address.value == NormalizeEmail(email) && error == old(error)
      ensures address.None? ==> error == EmailError(email).value
    {
      var rejected := EmailError(email);
      if rejected.Some? {
        error := rejected.value;
        return None;
      }
      return Some(NormalizeEmail(email));
    }

    /** What `handleSendOtp` does with the reply to its request. */
    method SendOtpReply(reply: Reply)
      requires Valid()
      modifies this`error, this`success, this`isLoading, this`otpSent, this`countdown
      ensures Valid() && !isLoading
      ensures reply.Received? && reply.success ==>
                otpSent && countdown == ResendDelay && success == "OTP sent to your email successfully!"
                && error == old(error)
      ensures reply.Thrown? ==>
                error == OrElse(reply.serverMessage, "Failed to send OTP. Please try again.") && success == old(success)
      ensures !(reply.Received? && reply.success) ==> otpSent == old(otpSent) && countdown == old(countdown)
      ensures reply.Received? && !reply.success ==> error == old(error) && success == old(success)
    {
      match reply {
        case Received(ok, _, _, _) =>
          if ok {
            otpSent := true;
            success := "OTP sent to your email successfully!";
            countdown := ResendDelay;
          }
        case Thrown(message) =>
          error := OrElse(message, "Failed to send OTP. Please try again.");
      }
      isLoading := false;
    }

    /** A successful sign-in: the token, the user and the flag are stored and
        the profile page follows. */
    method StoreSession(token: string, user: string)
      modifies this`storage, this`success, this`redirect
      ensures storage == old(storage)["token" := token]["userData" := user]["isLoggedIn" := "true"]
      ensures success == "Login successful! Redirecting..." && redirect == Some(ProfilePath)
    {
      storage := storage["token" := token]["userData" := user]["isLoggedIn" := "true"];
      success := "Login successful! Redirecting...";
      redirect := Some(ProfilePath);
    }

    /** `handleVerifyOtp`; `sent` is the address and code posted to verify-otp. */
    method VerifyOtp(reply: Reply) returns (sent: Option<(string, string)>)
      modifies this`error, this`success, this`forgotError, this`forgotSuccess, this`isLoading
      modifies this`storage, this`redirect, this`otpVerified
      ensures !isLoading && forgotError == "" && forgotSuccess == ""
      ensures sent.Some? <==> OtpError(otp) == None
      ensures OtpError(otp).Some? ==> error == OtpError(otp).value && success == ""
      ensures sent.Some? ==> sent.value == (NormalizeEmail(email), Trim(otp))
      ensures sent.Some? && reply.Received? && reply.success && Filled(reply.token) ==>
                && storage == old(storage)["token" := reply.token.value]["userData" := reply.user]["isLoggedIn" := "true"]
                && success == "Login successful! Redirecting..." && redirect == Some(ProfilePath)
                && otpVerified == old(otpVerified) && error == ""
      ensures sent.Some? && reply.Received? && reply.success && !Filled(reply.token) ==>
                && storage == old(storage) && otpVerified && error == ""
                && success == "OTP verified successfully! Please set your password." && redirect == old(redirect)
      ensures sent.Some? && reply.Thrown? ==>
                error == OrElse(reply.serverMessage, "Failed to verify OTP. Please try again.") && success == ""
      ensures !(sent.Some? && reply.Received? && reply.success) ==>
                storage == old(storage) && otpVerified == old(otpVerified) && redirect == old(redirect)
      ensures sent.Some? && reply.Received? && !reply.success ==> error == "" && success == ""
    {
      error, success, forgotError, forgotSuccess := "", "", "", "";  // clearMessages()
      isLoading := true;
      sent := None;
      var rejected := OtpError(otp);
      if rejected.Some? {
        error := rejected.value;
        isLoading := false;
        return;
      }
      sent := Some((NormalizeEmail(email), Trim(otp)));
      VerifyOtpReply(reply);
    }

    /** What `handleVerifyOtp` does with the reply to its request. */
    method VerifyOtpReply(reply: Reply)
      modifies this`error, this`success, this`isLoading, this`storage, this`redirect, this`otpVerified
      ensures !isLoading
      ensures reply.Received? && reply.success && Filled(reply.token) ==>
                && storage == old(storage)["token" := reply.token.value]["userData" := reply.user]["isLoggedIn" := "true"]
                && success == "Login successful! Redirecting..." && redirect == Some(ProfilePath)
                && otpVerified == old(otpVerified) && error == old(error)
      ensures reply.Received? && reply.success && !Filled(reply.token) ==>
                && storage == old(storage) && otpVerified && error == old(error)
                && success == "OTP verified successfully! Please set your password." && redirect == old(redirect)
      ensures reply.Thrown? ==>
                error == OrElse(reply.serverMessage, "Failed to verify OTP. Please try again.") && success == old(success)
      ensures !(reply.Received? && reply.success) ==>
                storage == old(storage) && otpVerified == old(otpVerified) && redirect == old(redirect)
      ensures reply.Received? && !reply.success ==> error == old(error) && success == old(success)
    {
      match reply {
        case Received(ok, token, user, _) =>
          if ok {
            if Filled(token) {
              StoreSession(token.value, user);
            } else {
              otpVerified := true;
              success := "OTP verified successfully! Please set your password.";
            }
          }
        case Thrown(message) =>
          error := OrElse(message, "Failed to verify OTP. Please try again.");
      }
      isLoading := false;
    }

    /** `handleLoginSubmit`; `sent` is the address and password posted to login. */
    method LoginSubmit(reply: Reply) returns (sent: Option<(string, string)>)
      modifies this`error, this`success, this`forgotError, this`forgotSuccess, this`isLoading
      modifies this`storage, this`redirect
      ensures !isLoading && forgotError == "" && forgotSuccess == ""
      ensures sent.Some? <==> email != "" && password != ""
      ensures sent.None? ==> error == "Please enter both email and password" && success == ""
      ensures sent.Some? ==> sent.value == (NormalizeEmail(email), password)
      ensures sent.Some? && reply.Received? && reply.success ==>
                && storage == old(storage)["token" := StoredToken(reply.token)]["userData" := reply.user]["isLoggedIn" := "true"]
                && success == "Login successful! Redirecting..." && redirect == Some(ProfilePath) && error == ""
      ensures sent.Some? && reply.Thrown? ==>
                error == OrElse(reply.serverMessage, "Login failed. Please try again.") && success == ""
      ensures !(sent.Some? && reply.Received? && reply.success) ==> storage == old(storage) && redirect == old(redirect)
      ensures sent.Some? && reply.Received? && !reply.success ==> error == "" && success == ""
    {
      error, success, forgotError, forgotSuccess := "", "", "", "";  // clearMessages()
      isLoading := true;
      sent := None;
      if email == "" || password == "" {
        error := "Please enter both email and password";
        isLoading := false;
        return;
      }
      sent := Some((NormalizeEmail(email), password));
      match reply {
        case Received(ok, token, user, _) =>
          if ok {
            StoreSession(StoredToken(token), user);
          }
        case Thrown(message) =>
          error := OrElse(message, "Login failed. Please try again.");
      }
      isLoading := false;
    }

    /** `handleForgotPasswordSubmit`; `sent` is the address posted to forgot-password. */
    method ForgotSubmit(reply: Reply) returns (sent: Option<string>)
      modifies this`forgotError, this`forgotSuccess, this`isLoading
      ensures !isLoading
      ensures sent.Some? <==> forgotEmail != ""
      ensures sent.None? ==> forgotError == "Please enter your email" && forgotSuccess == ""
      ensures sent.Some? ==> sent.value == NormalizeEmail(forgotEmail)
      ensures sent.Some? && reply.Received? ==>
                forgotError == "" && forgotSuccess == if Filled(reply.message) then reply.message.value else ""
      ensures sent.Some? && reply.Thrown? ==>
                forgotSuccess == "" && forgotError == OrElse(reply.serverMessage, "Failed to send reset email")
    {
      forgotError := "";
      forgotSuccess := "";
      isLoading := true;
      sent := None;
      if forgotEmail == "" {
        forgotError := "Please enter your email";
        isLoading := false;
        return;
      }
      sent := Some(NormalizeEmail(forgotEmail));
      match reply {
        case Received(_, _, _, message) =>
          if Filled(message) {
            forgotSuccess := message.value;
          }
        case Thrown(message) =>
          forgotError := OrElse(message, "Failed to send reset email");
      }
      isLoading := false;
    }

    /** `handleResendOtp`: nothing at all happens while the countdown runs. */
    method ResendOtp(reply: Reply) returns (sent: Option<string>)
      requires Valid()
      modifies this`error, this`success, this`forgotError, this`forgotSuccess, this`isLoading, this`countdown
      ensures Valid()
      ensures sent.Some? <==> old(countdown) == 0
      ensures old(countdown) > 0 ==> unchanged(this)
      ensures sent.Some? ==> sent.value == NormalizeEmail(email) && !isLoading && forgotError == "" && forgotSuccess == ""
      ensures sent.Some? && reply.Received? && reply.success ==>
                countdown == ResendDelay && success == "New OTP sent to your email!" && error == ""
      ensures sent.Some? && reply.Thrown? ==> error == OrElse(reply.serverMessage, "Failed to resend OTP") && success == ""
      ensures !(sent.Some? && reply.Received? && reply.success) ==> countdown == old(countdown)
      ensures sent.Some? && reply.Received? && !reply.success ==> error == "" && success == ""
    {
      sent := None;
      if countdown > 0 {
        return;
      }
      error, success, forgotError, forgotSuccess := "", "", "", "";  // clearMessages()
      isLoading := true;
      sent := Some(NormalizeEmail(email));
      ResendOtpReply(reply);
    }

    /** What `handleResendOtp` does with the reply to its request. */
    method ResendOtpReply(reply: Reply)
      requires Valid()
      modifies this`error, this`success, this`isLoading, this`countdown
      ensures Valid() && !isLoading
      ensures reply.Received? && reply.success ==>
                countdown == ResendDelay && success == "New OTP sent to your email!" && error == old(error)
      ensures reply.Thrown? ==> error == OrElse(reply.serverMessage, "Failed to resend OTP") && success == old(success)
      ensures !(reply.Received? && reply.success) ==> countdown == old(countdown)
      ensures reply.Received? && !reply.success ==> error == old(error) && success == old(success)
    {
      match reply {
        case Received(ok, _, _, _) =>
          if ok {
            success := "New OTP sent to your email!";
            countdown := ResendDelay;
          }
        case Thrown(message) =>
          error := OrElse(message, "Failed to resend OTP");
      }
      isLoading := false;
    }

    /** One second of the countdown effect: it only runs while positive. */
    method Tick()
      requires Valid()
      modifies this`countdown
      ensures Valid()
      ensures countdown == if old(countdown) > 0 then old(countdown) - 1 else 0
    {
      if countdown > 0 {
        countdown := countdown - 1;
      }
    }

    /** The "Back to Email" link of the OTP form. */
    method BackToEmail()
      modifies this`otpSent, this`otp, this`error, this`success, this`forgotError, this`forgotSuccess
      ensures !otpSent && otp == ""
      ensures error == "" && success == "" && forgotError == "" && forgotSuccess == ""
      ensures !forgotPassword ==> Screen() == EmailForm
    {
      otpSent := false;
      otp := "";
      error, success, forgotError, forgotSuccess := "", "", "", "";  // clearMessages()
    }

    /** The "Forgot Password?" links. */
    method ShowForgotPassword()
      modifies this`forgotPassword
      ensures forgotPassword && Screen() == ResetForm
    {
      forgotPassword := true;
    }

    /** The "Back to Login" link of the reset form: the page returns to the
        form the OTP state selects. */
    method BackToLogin()
      modifies this`forgotPassword, this`error, this`success, this`forgotError, this`forgotSuccess
      ensures !forgotPassword
      ensures error == "" && success == "" && forgotError == "" && forgotSuccess == ""
      ensures Screen() == if !otpSent then EmailForm else if !otpVerified then OtpForm else PasswordForm
    {
      forgotPassword := false;
      error, success, forgotError, forgotSuccess := "", "", "", "";  // clearMessages()
    }
  }
}
