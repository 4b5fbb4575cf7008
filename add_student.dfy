/**
 * The student management page (Frontend/src/components/AddStudent/AddStudent.jsx):
 * verifying a student by name or e-mail (a lookup, then the faculty-only
 * verify), unverifying one, and the list tab's search filter and cells. The
 * server is the `UserStore` of the authorisation model, acting for the
 * signed-in faculty member `actor`.
 */
module AddStudent {
  import opened Wrappers
  import JsString
  import Auth
  import UserModel

  // ------------------------------------------------------------------ the list tab

  /** A row of the students list as the page reads it from the JSON reply. */
  datatype StudentRow = StudentRow(id: UserModel.UserId, name: Option<string>, email: string,
                                   verifierName: Option<string>, isFacultyVerified: bool)

  /** The JSON the list endpoint sends for a listed student. */
  function RowOf(s: Auth.StudentListing): (row: StudentRow)
    ensures row.id == s.id && row.email == s.email && row.name == Some(s.name)
    ensures row.isFacultyVerified == s.isFacultyVerified
    ensures row.verifierName.Some? <==> s.verifiedBy.Some?
  {
    StudentRow(s.id, Some(s.name), s.email,
               if s.verifiedBy.Some? then Some(s.verifiedBy.value.name) else None,
               s.isFacultyVerified)
  }

  /** The search: the lower-cased name (a missing one read as "") or e-mail contains the lower-cased query. */
  predicate StudentMatches(row: StudentRow, q: string) {
    JsString.Includes(JsString.ToLower(row.name.GetOr("")), JsString.ToLower(q))
    || JsString.Includes(JsString.ToLower(row.email), JsString.ToLower(q))
  }

  /** The rows the list tab shows for the query, in their order. */
  function SearchStudents(rows: seq<StudentRow>, q: string): (r: seq<StudentRow>)
    ensures |r| <= |rows|
    ensures forall row :: row in r <==> row in rows && StudentMatches(row, q)
  {
    if |rows| == 0 then []
    else
      var rest := SearchStudents(rows[1..], q);
      assert forall row :: row in rows <==> row == rows[0] || row in rows[1..];
      if StudentMatches(rows[0], q) then [rows[0]] + rest else rest
  }

  /** Searching a list in two parts is searching each part: order and repeats are kept. */
  lemma {:induction false} SearchStudentsAppend(a: seq<StudentRow>, b: seq<StudentRow>, q: string)
    ensures SearchStudents(a + b, q) == SearchStudents(a, q) + SearchStudents(b, q)
    decreases |a|
  {
    if |a| > 0 {
      assert (a + b)[1..] == a[1..] + b;
      SearchStudentsAppend(a[1..], b, q);
    } else {
      assert a + b == b;
    }
  }

  /** A single row is kept exactly when it matches the query. */
  lemma SearchStudentsOne(row: StudentRow, q: string)
    ensures SearchStudents([row], q) == if StudentMatches(row, q) then [row] else []
  {
    assert [row][1..] == [];
  }

  /** Every row is found by its own e-mail address, in any letter case. */
  lemma FoundByOwnEmail(rows: seq<StudentRow>, row: StudentRow)
    requires row in rows
    ensures row in SearchStudents(rows, row.email)
  {
    assert JsString.ToLower(row.email) <= JsString.ToLower(row.email);
  }

  /** The empty search keeps every row. */
  lemma {:induction false} EmptySearchKeepsAll(rows: seq<StudentRow>)
    ensures SearchStudents(rows, "") == rows
    decreases |rows|
  {
    if |rows| > 0 {
      assert JsString.ToLower("") <= JsString.ToLower(rows[0].email);
      EmptySearchKeepsAll(rows[1..]);
    }
  }

  /** `name || "N/A"`. */
  function NameCell(row: StudentRow): (cell: string)
    ensures row.name.Some? && row.name.value != "" ==> cell == row.name.value
    ensures row.name.None? || row.name.value == "" ==> cell == "N/A"
  {
    JsString.OrElse(row.name, "N/A")
  }

  /** `verifiedBy?.name || "Not Verified"`. */
  function VerifierCell(row: StudentRow): (cell: string)
    ensures row.verifierName.Some? && row.verifierName.value != "" ==> cell == row.verifierName.value
    ensures row.verifierName.None? || row.verifierName.value == "" ==> cell == "Not Verified"
  {
    JsString.OrElse(row.verifierName, "Not Verified")
  }

  /** The status column follows `isFacultyVerified`. */
  function StatusCell(row: StudentRow): (cell: string)
    ensures cell == "Verified" <==> row.isFacultyVerified
    ensures cell == "Not Verified" <==> !row.isFacultyVerified
  {
    if row.isFacultyVerified then "Verified" else "Not Verified"
  }

  /**
   * In a consistent collection every listed student shows as "Verified" with
   * its verifier's real name: the "N/A" and "Not Verified" fallbacks never show.
   */
  lemma ListedRowsShowVerifier(users: Auth.Store, id: UserModel.UserId)
    requires Auth.StoreInvariant(users)
    requires id in users && Auth.ListedStudent(users[id])
    ensures var row := RowOf(Auth.ListingOf(users, id));
            && StatusCell(row) == "Verified"
            && NameCell(row) == users[id].name
            && VerifierCell(row) == users[users[id].verifiedBy.value].name
  {
    assert Auth.UserConsistent(users, users[id]);
    var v := users[id].verifiedBy.value;
    assert Auth.UserConsistent(users, users[v]);
  }

  // ------------------------------------------------------------------ the page

  /** The page state. */
  class AddStudentPage {
    var identifier: string
    var activeTab: string
    var students: seq<Auth.StudentListing>
    /** The last alert shown. */
    var alert: Option<string>

    constructor ()
      ensures identifier == "" && activeTab == "form" && students == [] && alert == None
    {
      identifier := "";
      activeTab := "form";
      students := [];
      alert := None;
    }

    /**
     * handleAddStudent: an empty identifier is refused before any request; a
     * failed lookup stops there; otherwise the looked-up student, and no one
     * else, is verified, the field is cleared and the list is fetched again.
     */
    method HandleAddStudent(store: Auth.UserStore, actor: UserModel.UserId) returns (verified: Option<UserModel.UserId>)
      requires store.Valid()
      modifies this, store
      ensures store.Valid() && store.nextId == old(store.nextId)
      ensures old(identifier) == "" ==>
                verified.None? && store.users == old(store.users)
                && alert == Some("Please enter a student name or email.")
                && identifier == old(identifier) && activeTab == old(activeTab) && students == old(students)
      ensures old(identifier) != "" && !(exists id :: id in old(store.users) && old(store.users)[id].role == UserModel.Student
                                                      && Auth.Identifies(old(store.users)[id], old(identifier))) ==>
                verified.None? && store.users == old(store.users) && alert == Some("Student not found.")
                && identifier == old(identifier) && activeTab == old(activeTab) && students == old(students)
      ensures verified.Some? ==>
                && verified.value in old(store.users)
                && old(store.users)[verified.value].role == UserModel.Student
                && Auth.Identifies(old(store.users)[verified.value], old(identifier))
                && store.users == Auth.VerifyStudentOutcome(old(store.users), actor, verified.value).1
      ensures verified.Some? && Auth.IsFaculty(old(store.users), actor) ==>
                alert == Some("Student verified successfully! (ID: " + JsString.DecimalDigits(verified.value) + ")")
                && identifier == "" && activeTab == "list"
                && exists i :: 0 <= i < |students| && students[i].id == verified.value
      ensures verified.Some? && !Auth.IsFaculty(old(store.users), actor) ==>
                store.users == old(store.users) && alert == Some("Failed to verify student.")
                && identifier == old(identifier) && activeTab == old(activeTab) && students == old(students)
    {
      if identifier == "" {
        alert := Some("Please enter a student name or email.");
        return None;
      }
      var lookup := store.GetStudentByIdentifier(identifier);
      if lookup.Err? {
        alert := Some("Student not found.");
        return None;
      }
      var studentId := lookup.value.0;
      verified := Some(studentId);
      var result := store.VerifyStudent(actor, studentId);
      if result.Ok? {
        alert := Some("Student verified successfully! (ID: " + JsString.DecimalDigits(studentId) + ")");
        identifier := "";
        assert actor != studentId && Auth.IsFaculty(store.users, actor);
        assert Auth.ListedStudent(store.users[studentId]);
        var listed := store.GetStudents(actor);
        assert listed.Ok? && exists i :: 0 <= i < |listed.value| && listed.value[i].id == studentId;
        if listed.Ok? {
          students := listed.value;
        }
        activeTab := "list";
      } else {
        alert := Some("Failed to verify student.");
      }
    }

    /** handleUnverify: the faculty-only unverify of one student, then the list is fetched again. */
    method HandleUnverify(store: Auth.UserStore, actor: UserModel.UserId, studentId: UserModel.UserId)
      requires store.Valid()
      modifies this, store
      ensures store.Valid() && store.nextId == old(store.nextId)
      ensures store.users == Auth.UnverifyStudentOutcome(old(store.users), actor, studentId).1
      ensures identifier == old(identifier) && activeTab == old(activeTab)
      ensures Auth.UnverifyStudentOutcome(old(store.users), actor, studentId).0.Ok? ==>
                alert == Some("Student unverified successfully!")
                && forall i :: 0 <= i < |students| ==> students[i].id != studentId
      ensures Auth.UnverifyStudentOutcome(old(store.users), actor, studentId).0.Err? ==>
                alert == Some("Failed to unverify student.") && students == old(students)
    {
      var result := store.UnverifyStudent(actor, studentId);
      if result.Ok? {
        alert := Some("Student unverified successfully!");
        var listed := store.GetStudents(actor);
        if listed.Ok? {
          students := listed.value;
        }
      } else {
        alert := Some("Failed to unverify student.");
      }
    }
  }
}
