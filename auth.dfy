/**
 * The authentication and authorisation handlers (Backend/controllers/Auth.js)
 * over the `users` collection, modelled as a map from `_id` to document.
 *
 * Each state-changing handler is given twice: as a function from the old
 * collection to the reply and the new collection (its properties are proved
 * about the function), and as a method of `UserStore` that reads the document,
 * checks, assigns the fields one at a time and saves, proved equal to the
 * function. The read-only handlers are methods that change nothing.
 *
 * Left to the caller as parameters: the clock (`now`, in milliseconds), the
 * draw of `Math.random` (`roll`, the integer part of `random * 900000`) and the
 * bcrypt salt. Session tokens and e-mail delivery are outside the model.
 */
module Auth {
  import opened Wrappers
  import opened UserModel
  import JsString
  import opened Http

  type Store = map<UserId, User>

  /** Twenty-four hours in milliseconds: how long a verification code stays valid. */
  const CodeLifetimeMs: int := 24 * 60 * 60 * 1000

  // ------------------------------------------------------------------ invariants

  /** The unique index on `email`: no two documents share an address. */
  predicate EmailsUnique(users: Store) {
    forall a, b :: a in users && b in users && users[a].email == users[b].email ==> a == b
  }

  /**
   * What every stored document satisfies: the required fields are set, a
   * verification code and its expiry are present together, and the three
   * faculty-verification fields agree, the verifier being a faculty member.
   */
  predicate UserConsistent(users: Store, u: User) {
    && HasRequiredFields(u)
    && (u.verificationToken.Some? <==> u.verificationTokenExpiresAt.Some?)
    && u.canAddEvent == u.isFacultyVerified
    && (u.isFacultyVerified <==> u.verifiedBy.Some?)
    && (u.verifiedBy.Some? ==> u.verifiedBy.value in users && users[u.verifiedBy.value].role == Faculty)
  }

  predicate StoreInvariant(users: Store) {
    EmailsUnique(users) && forall id :: id in users ==> UserConsistent(users, users[id])
  }

  /** The acting user exists and is a faculty member: the gate of the faculty-only handlers. */
  predicate IsFaculty(users: Store, id: UserId) {
    id in users && users[id].role == Faculty
  }

  // ------------------------------------------------------------------ register

  datatype RegisterRequest = RegisterRequest(email: string, password: string, name: string, role: string)

  /** A field of the body is absent or empty (both are falsy). */
  predicate MissingField(req: RegisterRequest) {
    req.email == "" || req.password == "" || req.name == "" || req.role == ""
  }

  predicate EmailTaken(users: Store, email: string) {
    exists id :: id in users && users[id].email == email
  }

  /** `Math.floor(100000 + random * 900000).toString()`: always six decimal digits. */
  function VerificationCode(roll: nat): (code: string)
    requires roll < 900000
    ensures |code| == 6
    ensures JsString.IsCanonicalIndex(code)
    ensures 100000 <= JsString.DigitsValue(code) <= 999999
  {
    JsString.DigitsLength(100000 + roll, 5);
    JsString.IndexRoundTrip(100000 + roll);
    JsString.DecimalDigits(100000 + roll)
  }

  /** Register: the reply and the collection afterwards, the new document getting id `newId`. */
  function RegisterOutcome(users: Store, newId: UserId, req: RegisterRequest, now: int, roll: nat, salt: nat)
    : (r: (Result<(UserId, User), Failure>, Store))
    requires newId !in users && roll < 900000
    ensures MissingField(req) ==> r == (Err(BadRequest("All fields are required")), users)
    ensures !MissingField(req) && EmailTaken(users, req.email) ==>
              r == (Err(BadRequest("User Already Exists. Please Login")), users)
    ensures r.0.Ok? <==> !MissingField(req) && !EmailTaken(users, req.email) && ParseRole(req.role).Some?
    ensures r.0.Err? ==> r.1 == users
    ensures r.0.Ok? ==>
              var (id, u) := r.0.value;
              && id == newId && r.1 == users[newId := u]
              && u.email == req.email && u.name == req.name && RoleName(u.role) == req.role
              && u.password == HashPassword(req.password, salt)
              && !u.isVerified && !u.isFacultyVerified && !u.canAddEvent && u.verifiedBy == None
              && u.verificationToken == Some(VerificationCode(roll))
              && 100000 <= JsString.DigitsValue(u.verificationToken.value) <= 999999
              && u.verificationTokenExpiresAt == Some(now + CodeLifetimeMs)
    ensures !MissingField(req) && !EmailTaken(users, req.email) && ParseRole(req.role).None? ==>
              r == (Err(InternalError("Internal Server Error")), users)
    ensures StoreInvariant(users) ==> StoreInvariant(r.1)
  {
    if MissingField(req) then (Err(BadRequest("All fields are required")), users)
    else if EmailTaken(users, req.email) then (Err(BadRequest("User Already Exists. Please Login")), users)
    else match ParseRole(req.role)
      // the enum validator rejects the document on save; the handler's catch answers 500
      case None => (Err(InternalError("Internal Server Error")), users)
      case Some(role) =>
        var u := NewUser(req.email, req.name, HashPassword(req.password, salt), role,
                         VerificationCode(roll), now + CodeLifetimeMs);
        RegisterKeepsInvariant(users, newId, u);
        (Ok((newId, u)), users[newId := u])
  }

  lemma RegisterKeepsInvariant(users: Store, newId: UserId, u: User)
    requires newId !in users && !EmailTaken(users, u.email)
    requires HasRequiredFields(u) && u.verificationToken.Some? && u.verificationTokenExpiresAt.Some?
    requires !u.isFacultyVerified && !u.canAddEvent && u.verifiedBy == None
    ensures StoreInvariant(users) ==> StoreInvariant(users[newId := u])
  {
    var after := users[newId := u];
    if StoreInvariant(users) {
      forall id | id in after ensures UserConsistent(after, after[id]) {
        if id != newId {
          assert UserConsistent(users, users[id]);
        }
      }
    }
  }

  // ------------------------------------------------------------------ verify e-mail

  /** The query of VerifyEmail: this document holds `code` and it has not yet expired. */
  predicate Redeemable(u: User, code: string, now: int) {
    u.verificationToken == Some(code)
    && u.verificationTokenExpiresAt.Some? && u.verificationTokenExpiresAt.value > now
  }

  /** The documents VerifyEmail may pick. */
  function Pending(users: Store, code: string, now: int): set<UserId> {
    set id | id in users && Redeemable(users[id], code, now)
  }

  /** The reply of VerifyEmail: one generic failure whatever the reason no document matched. */
  function VerifyEmailReply(users: Store, code: string, now: int): (r: Result<(), Failure>)
    ensures r.Ok? <==> exists id :: id in users && Redeemable(users[id], code, now)
    ensures r.Err? ==> r.error == BadRequest("Invalid or Expired Code")
  {
    if Pending(users, code, now) == {} then
      assert forall id :: id in users && Redeemable(users[id], code, now) ==> id in Pending(users, code, now);
      Err(BadRequest("Invalid or Expired Code"))
    else
      var id :| id in Pending(users, code, now);
      Ok(())
  }

  /** The picked document after a successful VerifyEmail. */
  function Redeemed(u: User): (v: User)
    ensures v.isVerified && v.verificationToken == None && v.verificationTokenExpiresAt == None
    ensures v.(isVerified := u.isVerified, verificationToken := u.verificationToken,
               verificationTokenExpiresAt := u.verificationTokenExpiresAt) == u
  {
    u.(isVerified := true, verificationToken := None, verificationTokenExpiresAt := None)
  }

  /** Redeeming keeps the collection's invariant. */
  lemma RedeemKeepsInvariant(users: Store, id: UserId)
    requires StoreInvariant(users) && id in users
    ensures StoreInvariant(users[id := Redeemed(users[id])])
  {
    var after := users[id := Redeemed(users[id])];
    forall j | j in after ensures UserConsistent(after, after[j]) {
      assert UserConsistent(users, users[j]);
    }
  }

  /**
   * A code is one-shot: once the document holding it has been verified, no
   * document matches that code again, at any later time.
   */
  lemma CodeIsOneShot(users: Store, id: UserId, code: string, now: int, later: int)
    requires Pending(users, code, now) == {id}
    requires forall j :: j in users && j != id ==> users[j].verificationToken != Some(code)
    ensures VerifyEmailReply(users[id := Redeemed(users[id])], code, later)
              == Err(BadRequest("Invalid or Expired Code"))
  {
    var after := users[id := Redeemed(users[id])];
    assert id in Pending(users, code, now);
    forall j | j in after ensures !Redeemable(after[j], code, later) {
      if j != id {
        assert users[j].verificationToken != Some(code);
      }
    }
  }

  /** A code presented at or after its expiry instant is refused like an unknown one. */
  lemma ExpiredCodeRefused(users: Store, code: string, now: int)
    requires forall id :: id in users && users[id].verificationToken == Some(code) ==>
               users[id].verificationTokenExpiresAt.Some? && users[id].verificationTokenExpiresAt.value <= now
    ensures VerifyEmailReply(users, code, now) == Err(BadRequest("Invalid or Expired Code"))
  {
  }

  // ------------------------------------------------------------------ sign in

  /** The `$or` query of Signin and of the identifier lookup: the e-mail or the name equals it. */
  predicate Identifies(u: User, identifier: string) {
    u.email == identifier || u.name == identifier
  }

  /** The profile fields of the sign-in reply (the session token is outside the model). */
  datatype SigninReply = SigninReply(email: string, role: Role, name: string, isHOD: Option<bool>)

  /** `isHOD` is read from a document whose schema has no such field: always absent. */
  function SigninReplyOf(u: User): (r: SigninReply)
    ensures r.email == u.email && r.name == u.name && r.role == u.role && r.isHOD == None
  {
    SigninReply(u.email, u.role, u.name, None)
  }

  // ------------------------------------------------------------------ current user

  /** The reply of `getUser`: the document without its password. */
  datatype UserProfile = UserProfile(
    name: string, email: string, role: Role, isVerified: bool,
    isFacultyVerified: bool, verifiedBy: Option<UserId>, canAddEvent: bool)

  function ProfileOf(u: User): UserProfile {
    UserProfile(u.name, u.email, u.role, u.isVerified, u.isFacultyVerified, u.verifiedBy, u.canAddEvent)
  }

  /** `getUser`: 404 when the authenticated id names no document, else its profile. */
  function GetUserReply(users: Store, id: UserId): (r: Result<UserProfile, Failure>)
    ensures r.Err? <==> id !in users
    ensures r.Err? ==> r.error == NotFound("User not found")
    ensures r.Ok? ==> r.value.name == users[id].name && r.value.email == users[id].email
                      && r.value.role == users[id].role && r.value.isVerified == users[id].isVerified
                      && r.value.isFacultyVerified == users[id].isFacultyVerified
                      && r.value.verifiedBy == users[id].verifiedBy
                      && r.value.canAddEvent == users[id].canAddEvent
  {
    if id in users then Ok(ProfileOf(users[id])) else Err(NotFound("User not found"))
  }

  // ------------------------------------------------------------------ faculty verification

  /** A document with its three faculty-verification fields cleared: what verify and unverify leave alone. */
  function WithoutFacultyVerification(u: User): User {
    u.(isFacultyVerified := false, verifiedBy := None, canAddEvent := false)
  }

  /** verifyStudent: the reply and the collection afterwards. */
  function VerifyStudentOutcome(users: Store, facultyId: UserId, studentId: UserId)
    : (r: (Result<(), Failure>, Store))
    ensures !IsFaculty(users, facultyId) ==> r == (Err(Forbidden("Only faculty can verify students")), users)
    ensures IsFaculty(users, facultyId) && studentId !in users ==>
              r == (Err(NotFound("Student not found")), users)
    ensures r.0.Ok? <==> IsFaculty(users, facultyId) && studentId in users
    ensures r.0.Ok? ==>
              && r.1.Keys == users.Keys
              && r.1[studentId].isFacultyVerified && r.1[studentId].canAddEvent
              && r.1[studentId].verifiedBy == Some(facultyId)
              && WithoutFacultyVerification(r.1[studentId]) == WithoutFacultyVerification(users[studentId])
              && forall id :: id in users && id != studentId ==> r.1[id] == users[id]
    ensures StoreInvariant(users) ==> StoreInvariant(r.1)
  {
    if !IsFaculty(users, facultyId) then (Err(Forbidden("Only faculty can verify students")), users)
    else if studentId !in users then (Err(NotFound("Student not found")), users)
    else
      var s := users[studentId].(isFacultyVerified := true, verifiedBy := Some(facultyId), canAddEvent := true);
      FacultyVerificationKeepsInvariant(users, studentId, s);
      (Ok(()), users[studentId := s])
  }

  /** unverifyStudent: the reply and the collection afterwards. */
  function UnverifyStudentOutcome(users: Store, facultyId: UserId, studentId: UserId)
    : (r: (Result<(), Failure>, Store))
    ensures !IsFaculty(users, facultyId) ==> r == (Err(Forbidden("Only faculty can unverify students")), users)
    ensures IsFaculty(users, facultyId) && studentId !in users ==>
              r == (Err(NotFound("Student not found")), users)
    ensures r.0.Ok? <==> IsFaculty(users, facultyId) && studentId in users
    ensures r.0.Ok? ==>
              && r.1.Keys == users.Keys
              && !r.1[studentId].isFacultyVerified && !r.1[studentId].canAddEvent
              && r.1[studentId].verifiedBy == None
              && WithoutFacultyVerification(r.1[studentId]) == WithoutFacultyVerification(users[studentId])
              && forall id :: id in users && id != studentId ==> r.1[id] == users[id]
    ensures StoreInvariant(users) ==> StoreInvariant(r.1)
  {
    if !IsFaculty(users, facultyId) then (Err(Forbidden("Only faculty can unverify students")), users)
    else if studentId !in users then (Err(NotFound("Student not found")), users)
    else
      var s := WithoutFacultyVerification(users[studentId]);
      FacultyVerificationKeepsInvariant(users, studentId, s);
      (Ok(()), users[studentId := s])
  }

  /**
   * Replacing one document by a copy that differs only in the three
   * faculty-verification fields, set coherently, keeps the invariant.
   */
  lemma FacultyVerificationKeepsInvariant(users: Store, studentId: UserId, s: User)
    requires studentId in users
    requires WithoutFacultyVerification(s) == WithoutFacultyVerification(users[studentId])
    requires s.canAddEvent == s.isFacultyVerified && (s.isFacultyVerified <==> s.verifiedBy.Some?)
    requires s.verifiedBy.Some? ==> IsFaculty(users, s.verifiedBy.value)
    ensures StoreInvariant(users) ==> StoreInvariant(users[studentId := s])
  {
    var after := users[studentId := s];
    if StoreInvariant(users) {
      assert s.email == users[studentId].email && s.role == users[studentId].role;
      forall id | id in after ensures UserConsistent(after, after[id]) {
        assert UserConsistent(users, users[id]);
      }
      forall a, b | a in after && b in after && after[a].email == after[b].email ensures a == b {
        assert after[a].email == users[a].email && after[b].email == users[b].email;
      }
    }
  }

  /** Verifying twice leaves the same reply and the same collection as verifying once. */
  lemma VerifyStudentIdempotent(users: Store, facultyId: UserId, studentId: UserId)
    ensures var once := VerifyStudentOutcome(users, facultyId, studentId);
            VerifyStudentOutcome(once.1, facultyId, studentId) == once
  {
    var once := VerifyStudentOutcome(users, facultyId, studentId);
    if once.0.Ok? {
      var s := once.1[studentId];
      assert once.1[facultyId].role == Faculty;
      assert s.(isFacultyVerified := true, verifiedBy := Some(facultyId), canAddEvent := true) == s;
      assert once.1[studentId := s] == once.1;
    }
  }

  /** Unverifying twice leaves the same reply and the same collection as unverifying once. */
  lemma UnverifyStudentIdempotent(users: Store, facultyId: UserId, studentId: UserId)
    ensures var once := UnverifyStudentOutcome(users, facultyId, studentId);
            UnverifyStudentOutcome(once.1, facultyId, studentId) == once
  {
    var once := UnverifyStudentOutcome(users, facultyId, studentId);
    if once.0.Ok? {
      var s := once.1[studentId];
      assert once.1[facultyId].role == Faculty;
      assert WithoutFacultyVerification(s) == s;
      assert once.1[studentId := s] == once.1;
    }
  }

  /** Unverifying after verifying ends where unverifying alone ends. */
  lemma UnverifyUndoesVerify(users: Store, facultyId: UserId, studentId: UserId)
    ensures UnverifyStudentOutcome(VerifyStudentOutcome(users, facultyId, studentId).1, facultyId, studentId)
            == UnverifyStudentOutcome(users, facultyId, studentId)
  {
    var once := VerifyStudentOutcome(users, facultyId, studentId);
    if once.0.Ok? {
      assert once.1[facultyId].role == Faculty;
      var cleared := WithoutFacultyVerification(users[studentId]);
      assert WithoutFacultyVerification(once.1[studentId]) == cleared;
      assert once.1[studentId := cleared] == users[studentId := cleared];
    }
  }

  // ------------------------------------------------------------------ student listing

  /** A student listed by `getStudents`. */
  predicate ListedStudent(u: User) {
    u.role == Student && u.isFacultyVerified
  }

  /** `populate("verifiedBy", "name email")`: the verifier's id, name and e-mail. */
  datatype VerifierRef = VerifierRef(id: UserId, name: string, email: string)

  /** A listed student: the document without its password, with `verifiedBy` populated. */
  datatype StudentListing = StudentListing(
    id: UserId, email: string, name: string, role: Role, isVerified: bool,
    isFacultyVerified: bool, verifiedBy: Option<VerifierRef>, canAddEvent: bool,
    verificationToken: Option<string>, verificationTokenExpiresAt: Option<int>)

  /** The populated reference: null when the referenced document is gone. */
  function Populate(users: Store, ref: Option<UserId>): (r: Option<VerifierRef>)
    ensures r.Some? <==> ref.Some? && ref.value in users
    ensures r.Some? ==> r.value.id == ref.value && r.value.name == users[ref.value].name
                        && r.value.email == users[ref.value].email
  {
    if ref.Some? && ref.value in users then
      Some(VerifierRef(ref.value, users[ref.value].name, users[ref.value].email))
    else None
  }

  function ListingOf(users: Store, id: UserId): StudentListing
    requires id in users
  {
    var u := users[id];
    StudentListing(id, u.email, u.name, u.role, u.isVerified, u.isFacultyVerified,
                   Populate(users, u.verifiedBy), u.canAddEvent,
                   u.verificationToken, u.verificationTokenExpiresAt)
  }

  // ------------------------------------------------------------------ the store

  /** The `users` collection and the handlers acting on it. */
  class UserStore {
    var users: Store
    /** The id the next saved document receives. */
    var nextId: UserId

    ghost predicate Valid()
      reads this
    {
      StoreInvariant(users) && forall id :: id in users ==> id < nextId
    }

    constructor ()
      ensures Valid() && users == map[]
    {
      users := map[];
      nextId := 0;
    }

    /** POST /auth/register. */
    method Register(req: RegisterRequest, now: int, roll: nat, salt: nat)
      returns (r: Result<(UserId, User), Failure>)
      requires Valid() && roll < 900000
      modifies this
      ensures Valid()
      ensures (r, users) == RegisterOutcome(old(users), old(nextId), req, now, roll, salt)
    {
      if req.email == "" || req.password == "" || req.name == "" || req.role == "" {
        return Err(BadRequest("All fields are required"));
      }
      if exists id :: id in users && users[id].email == req.email {
        return Err(BadRequest("User Already Exists. Please Login"));
      }
      var hashed := HashPassword(req.password, salt);
      var token := VerificationCode(roll);
      var role := ParseRole(req.role);
      if role.None? {
        return Err(InternalError("Internal Server Error"));
      }
      var user := NewUser(req.email, req.name, hashed, role.value, token, now + CodeLifetimeMs);
      var id := nextId;
      users := users[id := user];
      nextId := nextId + 1;
      r := Ok((id, user));
    }

    /** POST /auth/verifyEmail: findOne picks any document holding the live code. */
    method VerifyEmail(code: string, now: int) returns (r: Result<(), Failure>)
      requires Valid()
      modifies this
      ensures Valid() && nextId == old(nextId)
      ensures r == VerifyEmailReply(old(users), code, now)
      ensures r.Err? ==> users == old(users)
      ensures r.Ok? ==> exists id :: id in Pending(old(users), code, now)
                                     && users == old(users)[id := Redeemed(old(users)[id])]
    {
      if exists id :: id in users && Redeemable(users[id], code, now) {
        var id :| id in users && Redeemable(users[id], code, now);
        assert id in Pending(users, code, now);
        var user := users[id];
        user := user.(isVerified := true);
        user := user.(verificationToken := None);
        user := user.(verificationTokenExpiresAt := None);
        RedeemKeepsInvariant(users, id);
        users := users[id := user];
        r := Ok(());
      } else {
        r := Err(BadRequest("Invalid or Expired Code"));
      }
    }

    /**
     * POST /auth/signin: findOne picks any document whose e-mail or name is the
     * identifier; verification of the e-mail address is not required. An absent
     * password (`None`) makes the password comparison throw once a document is found.
     */
    method Signin(identifier: string, password: Option<string>) returns (r: Result<SigninReply, Failure>)
      ensures r.Err? ==> r.error in {BadRequest("User not found"), BadRequest("Invalid credentials"),
                                     InternalError("Internal Server Error")}
      ensures r == Err(BadRequest("User not found")) <==>
                !exists id :: id in users && Identifies(users[id], identifier)
      ensures r == Err(InternalError("Internal Server Error")) <==>
                password.None? && exists id :: id in users && Identifies(users[id], identifier)
      ensures r.Ok? ==> password.Some?
                        && (exists id :: id in users && Identifies(users[id], identifier)
                                         && PasswordMatches(password.value, users[id].password)
                                         && r.value == SigninReplyOf(users[id]))
      ensures r == Err(BadRequest("Invalid credentials")) ==>
                password.Some?
                && (exists id :: id in users && Identifies(users[id], identifier)
                                 && !PasswordMatches(password.value, users[id].password))
      ensures password.Some? && (exists id :: id in users && Identifies(users[id], identifier))
              && (forall id :: id in users && Identifies(users[id], identifier) ==>
                                PasswordMatches(password.value, users[id].password))
              ==> r.Ok?
    {
      if !exists id :: id in users && Identifies(users[id], identifier) {
        return Err(BadRequest("User not found"));
      }
      var id :| id in users && Identifies(users[id], identifier);
      var user := users[id];
      if password.None? {
        // bcrypt's compare rejects an undefined password; the handler's catch answers 500
        return Err(InternalError("Internal Server Error"));
      }
      if !PasswordMatches(password.value, user.password) {
        return Err(BadRequest("Invalid credentials"));
      }
      r := Ok(SigninReplyOf(user));
    }

    /** GET /auth/user for the authenticated id. */
    method GetUser(userId: UserId) returns (r: Result<UserProfile, Failure>)
      ensures r == GetUserReply(users, userId)
      ensures r.Ok? ==> r.value == ProfileOf(users[userId])
    {
      if userId !in users {
        return Err(NotFound("User not found"));
      }
      r := Ok(ProfileOf(users[userId]));
    }

    /** PUT /auth/verify-student/:id, for the authenticated `facultyId`. */
    method VerifyStudent(facultyId: UserId, studentId: UserId) returns (r: Result<(), Failure>)
      requires Valid()
      modifies this
      ensures Valid() && nextId == old(nextId)
      ensures (r, users) == VerifyStudentOutcome(old(users), facultyId, studentId)
    {
      if facultyId !in users || users[facultyId].role != Faculty {
        return Err(Forbidden("Only faculty can verify students"));
      }
      if studentId !in users {
        return Err(NotFound("Student not found"));
      }
      var student := users[studentId];
      student := student.(isFacultyVerified := true);
      student := student.(verifiedBy := Some(facultyId));
      student := student.(canAddEvent := true);
      users := users[studentId := student];
      r := Ok(());
    }

    /** PUT /auth/unverify-student/:id, for the authenticated `facultyId`. */
    method UnverifyStudent(facultyId: UserId, studentId: UserId) returns (r: Result<(), Failure>)
      requires Valid()
      modifies this
      ensures Valid() && nextId == old(nextId)
      ensures (r, users) == UnverifyStudentOutcome(old(users), facultyId, studentId)
    {
      if facultyId !in users || users[facultyId].role != Faculty {
        return Err(Forbidden("Only faculty can unverify students"));
      }
      if studentId !in users {
        return Err(NotFound("Student not found"));
      }
      var student := users[studentId];
      student := student.(isFacultyVerified := false);
      student := student.(verifiedBy := None);
      student := student.(canAddEvent := false);
      users := users[studentId := student];
      r := Ok(());
    }

    /**
     * GET /auth/students: for a faculty member, every student verified by
     * faculty, once each, without password and with the verifier populated.
     */
    method GetStudents(facultyId: UserId) returns (r: Result<seq<StudentListing>, Failure>)
      ensures r.Err? <==> !IsFaculty(users, facultyId)
      ensures r.Err? ==> r.error == Forbidden("Only faculty can view students")
      ensures r.Ok? ==> forall i :: 0 <= i < |r.value| ==>
                          r.value[i].id in users && ListedStudent(users[r.value[i].id])
                          && r.value[i] == ListingOf(users, r.value[i].id)
      ensures r.Ok? ==> forall id :: id in users && ListedStudent(users[id]) ==>
                          exists i :: 0 <= i < |r.value| && r.value[i].id == id
      ensures r.Ok? ==> forall i, j :: 0 <= i < j < |r.value| ==> r.value[i].id != r.value[j].id
    {
      if facultyId !in users || users[facultyId].role != Faculty {
        return Err(Forbidden("Only faculty can view students"));
      }
      var todo := users.Keys;
      var found: seq<StudentListing> := [];
      while todo != {}
        invariant todo <= users.Keys
        invariant forall i :: 0 <= i < |found| ==>
                    found[i].id in users && found[i].id !in todo && ListedStudent(users[found[i].id])
                    && found[i] == ListingOf(users, found[i].id)
        invariant forall id :: id in users && id !in todo && ListedStudent(users[id]) ==>
                    exists i :: 0 <= i < |found| && found[i].id == id
        invariant forall i, j :: 0 <= i < j < |found| ==> found[i].id != found[j].id
        decreases todo
      {
        var id :| id in todo;
        ghost var before := found;
        if ListedStudent(users[id]) {
          found := found + [ListingOf(users, id)];
          assert found[|found| - 1].id == id;
        }
        assert forall i :: 0 <= i < |before| ==> found[i] == before[i];
        todo := todo - {id};
      }
      r := Ok(found);
    }

    /** GET /auth/student/email/:email: the student-role document with that address (unique). */
    method GetStudentByEmail(email: string) returns (r: Result<(UserId, User), Failure>)
      requires Valid()
      ensures r.Err? <==> !exists id :: id in users && users[id].email == email && users[id].role == Student
      ensures r.Err? ==> r.error == NotFound("Student not found")
      ensures r.Ok? ==> r.value.0 in users && users[r.value.0] == r.value.1
                        && r.value.1.email == email && r.value.1.role == Student
      ensures r.Ok? ==> forall id :: id in users && users[id].email == email ==> id == r.value.0
    {
      if !exists id :: id in users && users[id].email == email && users[id].role == Student {
        return Err(NotFound("Student not found"));
      }
      var id :| id in users && users[id].email == email && users[id].role == Student;
      r := Ok((id, users[id]));
    }

    /** GET /auth/student/:identifier: some student-role document whose e-mail or name is the identifier. */
    method GetStudentByIdentifier(identifier: string) returns (r: Result<(UserId, User), Failure>)
      ensures r.Err? <==> !exists id :: id in users && users[id].role == Student && Identifies(users[id], identifier)
      ensures r.Err? ==> r.error == NotFound("Student not found")
      ensures r.Ok? ==> r.value.0 in users && users[r.value.0] == r.value.1
                        && r.value.1.role == Student && Identifies(r.value.1, identifier)
    {
      if !exists id :: id in users && users[id].role == Student && Identifies(users[id], identifier) {
        return Err(NotFound("Student not found"));
      }
      var id :| id in users && users[id].role == Student && Identifies(users[id], identifier);
      r := Ok((id, users[id]));
    }
  }
}
