/**
 * The `users` collection's document shape (Backend/models/User.js): its
 * fields, their defaults and the `role` enum.
 */
module UserModel {
  import opened Wrappers

  /** A document's `_id`, assigned by the store when the document is first saved. */
  type UserId = nat

  /** The schema's `role` enum: there is no separate value for a head of department. */
  datatype Role = Student | Faculty

  function RoleName(r: Role): string {
    match r
    case Student => "student"
    case Faculty => "faculty"
  }

  /** The enum validator run on save: only the two declared names are accepted. */
  function ParseRole(s: string): (r: Option<Role>)
    ensures r.Some? <==> s == "student" || s == "faculty"
    ensures r.Some? ==> RoleName(r.value) == s
  {
    if s == "student" then Some(Student)
    else if s == "faculty" then Some(Faculty)
    else None
  }

  /** The value the schema gives `role` when a document is created without one. */
  const DefaultRole: Role := Student

  /**
   * A bcrypt digest. It is modelled as an ideal one-way function: the stored
   * value records the salt and is matched only by the password it was made from.
   */
  datatype PasswordHash = Bcrypt(salt: nat, secret: string)

  function HashPassword(raw: string, salt: nat): PasswordHash {
    Bcrypt(salt, raw)
  }

  /** `bcrypt.compare(raw, hash)`. */
  predicate PasswordMatches(raw: string, h: PasswordHash) {
    h.secret == raw
  }

  /** A hash made from one password is matched by that password and by no other. */
  lemma HashMatchesOnlyItsPassword(raw: string, other: string, salt: nat)
    ensures PasswordMatches(raw, HashPassword(raw, salt))
    ensures other != raw ==> !PasswordMatches(other, HashPassword(raw, salt))
  {
  }

  /**
   * A user document. The schema declares no `isHOD` field, so Mongoose's strict
   * mode drops one given at creation; the record has none.
   */
  datatype User = User(
    email: string,
    name: string,
    password: PasswordHash,
    role: Role,
    isVerified: bool,
    isFacultyVerified: bool,
    verifiedBy: Option<UserId>,
    canAddEvent: bool,
    resetPasswordToken: Option<string>,
    resetPasswordExpiresAt: Option<int>,
    verificationToken: Option<string>,
    verificationTokenExpiresAt: Option<int>)

  /** The schema's `required` string fields hold a value (Mongoose rejects the empty string). */
  predicate HasRequiredFields(u: User) {
    u.email != "" && u.name != ""
  }

  /**
   * A document created with the given fields; every field not given takes its
   * schema default: the three flags false, no verifier, no reset token.
   */
  function NewUser(email: string, name: string, password: PasswordHash, role: Role,
                   token: string, expiresAt: int): (u: User)
    ensures u.email == email && u.name == name && u.password == password && u.role == role
    ensures !u.isVerified && !u.isFacultyVerified && !u.canAddEvent && u.verifiedBy == None
    ensures u.resetPasswordToken == None && u.resetPasswordExpiresAt == None
    ensures u.verificationToken == Some(token) && u.verificationTokenExpiresAt == Some(expiresAt)
  {
    User(email, name, password, role, false, false, None, false, None, None, Some(token), Some(expiresAt))
  }
}
