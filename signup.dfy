/**
 * The sign-up page (Frontend/src/components/Logins/SignUp/signup.jsx): the
 * role derived from the institutional e-mail domain, and the page state the
 * sign-up and code-verification submissions leave behind. The server's answer
 * to each request is a parameter.
 */
module Signup {
  import opened Wrappers
  import JsString
  import Auth
  import UserModel
  import Http

  /** The roles the page can derive; "hod" is one the server's schema does not accept. */
  datatype ClientRole = StudentRole | FacultyRole | HodRole

  function ClientRoleName(r: ClientRole): string {
    match r
    case StudentRole => "student"
    case FacultyRole => "faculty"
    case HodRole => "hod"
  }

  /** `email.split("@")[1]`: the second "@"-separated piece, undefined without an "@". */
  function Domain(email: string): (r: Option<string>)
    ensures r.None? <==> '@' !in email
    ensures r.Some? ==> '@' !in r.value
  {
    var pieces := JsString.Split(email, "@");
    JsString.SplitPiecesFree(email, '@');
    if |pieces| >= 2 then
      assert pieces[1] in pieces;
      assert '@' in email by {
        if '@' !in email {
          JsString.SplitWithoutSeparator(email, '@');
        }
      }
      Some(pieces[1])
    else
      assert '@' !in email by {
        if '@' in email {
          JsString.SplitAtSeparator(email, '@');
        }
      }
      None
  }

  /** An address `local@domain` with one "@" has exactly that domain. */
  lemma DomainOfAddress(local: string, domain: string)
    requires '@' !in local && '@' !in domain
    ensures Domain(local + "@" + domain) == Some(domain)
  {
    JsString.SplitAfterPiece(local, '@', domain);
    JsString.SplitWithoutSeparator(domain, '@');
  }

  /** `email.substring(0, 3).toLowerCase()`. */
  function Prefix(email: string): (r: string)
    ensures |r| == if |email| < 3 then |email| else 3
  {
    JsString.ToLower(if |email| < 3 then email else email[..3])
  }

  const StudentDomain: string := "pvpsit.ac.in"
  const StaffDomain: string := "pvpsiddhartha.ac.in"

  /** getRoleFromEmail: student for the student domain, hod or faculty for the staff domain, else none. */
  function RoleFromEmail(email: string): (r: Option<ClientRole>)
    ensures Domain(email) == Some(StudentDomain) ==> r == Some(StudentRole)
    ensures Domain(email) == Some(StaffDomain) && Prefix(email) == "hod" ==> r == Some(HodRole)
    ensures Domain(email) == Some(StaffDomain) && Prefix(email) != "hod" ==> r == Some(FacultyRole)
    ensures r.None? <==> Domain(email) != Some(StudentDomain) && Domain(email) != Some(StaffDomain)
  {
    var domain := Domain(email);
    if domain == Some(StudentDomain) then Some(StudentRole)
    else if domain == Some(StaffDomain) then Some(if Prefix(email) == "hod" then HodRole else FacultyRole)
    else None
  }

  /** The domain comparison is exact: an upper-case student domain gets no role. */
  lemma DomainIsCaseSensitive(local: string)
    requires '@' !in local
    ensures RoleFromEmail(local + "@" + "PVPSIT.AC.IN") == None
    ensures RoleFromEmail(local + "@" + StudentDomain) == Some(StudentRole)
  {
    DomainOfAddress(local, "PVPSIT.AC.IN");
    assert "PVPSIT.AC.IN"[0] != StudentDomain[0];
    assert "PVPSIT.AC.IN" != StaffDomain by { assert |StaffDomain| == 19; }
    DomainOfAddress(local, StudentDomain);
  }

  /** The head-of-department prefix is compared after lower-casing: "HOD" counts too. */
  lemma HodPrefixIgnoresCase(rest: string)
    requires '@' !in rest
    ensures RoleFromEmail("HOD" + rest + "@" + StaffDomain) == Some(HodRole)
    ensures RoleFromEmail("hod" + rest + "@" + StaffDomain) == Some(HodRole)
  {
    DomainOfAddress("HOD" + rest, StaffDomain);
    DomainOfAddress("hod" + rest, StaffDomain);
    assert ("HOD" + rest + "@" + StaffDomain)[..3] == "HOD";
    assert ("hod" + rest + "@" + StaffDomain)[..3] == "hod";
  }

  /** The register body the page sends: exactly the derived role, or nothing without one. */
  function SignupRequest(name: string, email: string, password: string): (r: Option<Auth.RegisterRequest>)
    ensures r.None? <==> RoleFromEmail(email).None?
    ensures r.Some? ==> r.value == Auth.RegisterRequest(email, password, name, ClientRoleName(RoleFromEmail(email).value))
  {
    match RoleFromEmail(email)
    case None => None
    case Some(role) => Some(Auth.RegisterRequest(email, password, name, ClientRoleName(role)))
  }

  /**
   * A head of department can never register: the role the page sends is not in
   * the server's enum, so a complete, fresh request ends in 500 and stores nothing.
   */
  lemma HodNeverRegisters(users: Auth.Store, newId: UserModel.UserId, name: string, email: string,
                          password: string, now: int, roll: nat, salt: nat)
    requires newId !in users && roll < 900000
    requires RoleFromEmail(email) == Some(HodRole)
    requires name != "" && password != "" && !Auth.EmailTaken(users, email)
    ensures var out := Auth.RegisterOutcome(users, newId, SignupRequest(name, email, password).value, now, roll, salt);
            out.0 == Err(Http.InternalError("Internal Server Error")) && out.1 == users
  {
    assert email != "" by {
      assert Domain(email).Some?;
    }
  }

  /** The server's JSON answer as the page sees it, or a failed `fetch`. */
  datatype Reply = Replied(success: bool, message: string) | ConnectionFailed

  const DomainError: string := "Invalid email domain. Please use a valid institutional email."
  const ConnectionError: string := "Failed to connect to the server. Please try again later."

  /** The page's state. */
  class SignupForm {
    var otpSent: bool
    /** null until a code has been checked, then the outcome of the last check. */
    var otpVerified: Option<bool>
    var errorMessage: string
    var loading: bool

    constructor ()
      ensures !otpSent && otpVerified == None && errorMessage == "" && !loading
    {
      otpSent := false;
      otpVerified := None;
      errorMessage := "";
      loading := false;
    }

    /**
     * handleSignup: without a derivable role, report it and send nothing;
     * otherwise send the request and record the answer.
     */
    method HandleSignup(name: string, email: string, password: string, reply: Reply)
      returns (sent: Option<Auth.RegisterRequest>)
      modifies this
      ensures sent == SignupRequest(name, email, password)
      ensures sent.None? ==> errorMessage == DomainError && otpSent == old(otpSent)
                             && loading == old(loading) && otpVerified == old(otpVerified)
      ensures sent.Some? ==> !loading && otpVerified == old(otpVerified)
      ensures sent.Some? ==> otpSent == (old(otpSent) || (reply.Replied? && reply.success))
      ensures sent.Some? && reply.Replied? && !reply.success ==> errorMessage == reply.message
      ensures sent.Some? && reply.Replied? && reply.success ==> errorMessage == ""
      ensures sent.Some? && reply.ConnectionFailed? ==> errorMessage == ConnectionError
    {
      var role := RoleFromEmail(email);
      if role.None? {
        errorMessage := DomainError;
        return None;
      }
      loading := true;
      errorMessage := "";
      sent := Some(Auth.RegisterRequest(email, password, name, ClientRoleName(role.value)));
      match reply
      case ConnectionFailed =>
        loading := false;
        errorMessage := ConnectionError;
      case Replied(success, message) =>
        loading := false;
        if success {
          otpSent := true;
        } else {
          errorMessage := message;
        }
    }

    /** handleOtpVerification: send the code and record whether the server accepted it. */
    method HandleOtpVerification(otp: string, reply: Reply) returns (code: string)
      modifies this
      ensures code == otp && !loading && otpSent == old(otpSent)
      ensures reply.Replied? ==> otpVerified == Some(reply.success)
      ensures reply.Replied? && reply.success ==> errorMessage == ""
      ensures reply.Replied? && !reply.success ==> errorMessage == reply.message
      ensures reply.ConnectionFailed? ==> otpVerified == old(otpVerified) && errorMessage == ConnectionError
    {
      loading := true;
      errorMessage := "";
      code := otp;
      match reply
      case ConnectionFailed =>
        loading := false;
        errorMessage := ConnectionError;
      case Replied(success, message) =>
        loading := false;
        if success {
          otpVerified := Some(true);
        } else {
          otpVerified := Some(false);
          errorMessage := message;
        }
    }
  }
}
