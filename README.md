# Campus events: a Dafny model

This project models the core of a college events portal. The backend is an
Express/Mongoose server with two collections:

- `users`, holding students and faculty. Registration uses an e-mailed six-digit code. Faculty members verify students, and a verified student may add events.
- `events`, holding each event with its main, QR and side images stored as bytes.

The frontend is a React application with these pieces:

- The shell (`App.jsx`) fetches, classifies, sorts and filters the event list, and decides which action buttons appear.
- The event card list (`Event.jsx`) and the single-event page (`EventPage.jsx`).
- The add and update forms (`AddEvent.jsx`, `UpdateEvent.jsx`).
- The student management page (`AddStudent.jsx`) and the sign-up page (`signup.jsx`).

Each collection is a Dafny `map` from id to document.

- A server handler that changes a collection is given as a pure outcome function, returning the reply and the new collection. Its properties are proved about that function.
- The same handler is also a method of a store class (`Auth.UserStore`, `EventRoutes.EventStore`). The method does the handler's read, check, assign and save steps, and is proved equal to the function.
- Read-only handlers are methods with no `modifies` clause.
- A React component's state is a class whose methods are its event handlers. The server's answer to a request is a parameter of the handler.

Modules:

| module | models |
|---|---|
| `Wrappers` | `Option` and `Result` |
| `Http` | the failure replies (400, 403, 404, 500) |
| `JsString` | the JavaScript string operations the code relies on: `trim`, `toLowerCase`, `includes`, `startsWith`, `split`, `join`, decimal printing and the array-index reading of a string |
| `UserModel` | `Backend/models/User.js` |
| `Auth` | `Backend/controllers/Auth.js` |
| `EventModel` | `Backend/models/Event.js` |
| `EventRoutes` | `Backend/routes/Event.routes.js` (the mounted event router) |
| `EventController` | `Backend/controllers/Event.js` (a second, unmounted router) |
| `Signup` | `Frontend/src/components/Logins/SignUp/signup.jsx` |
| `App` | `Frontend/src/App.jsx` |
| `EventCard` | `Frontend/src/components/EventComponent/Event.jsx` |
| `EventPage` | `Frontend/src/components/EventPage/EventPage.jsx` |
| `AddEvent` | `Frontend/src/components/AddEvent/AddEvent.jsx` |
| `UpdateEvent` | `Frontend/src/components/AddEvent/UpdateEvent.jsx` |
| `AddStudent` | `Frontend/src/components/AddStudent/AddStudent.jsx` |

Where the code contradicts its own user interface or schema, the model follows the code as written:

- A head of department cannot register. The sign-up page sends the role `"hod"`, but the `role` enum of `User.js` has no such value. The save therefore throws and the handler answers 500 (`Signup.HodNeverRegisters`).
- `isHOD` is not a field of the user schema. Mongoose's strict mode drops it, so the sign-in reply never carries it (`Auth.SigninReplyOf`).
- The event schema has no `verifiedBy`. The "N/A" or "Pending" value the create handlers compute is therefore never stored (`EventRoutes.CreateIgnoresUserRole`).
- The student lookups by e-mail and by identifier do not check that the caller is faculty. The model keeps them unchecked.
- The server never mounts the controller in `Backend/controllers/Event.js`; it is modelled on its own. Its "ongoing" filter matches only the instant of UTC midnight, while the client's "ongoing" is a whole local day (`App.OngoingIsWiderThanTheServerFilter`).

## Model

| member | source | states |
|---|---|---|
| `UserModel.ParseRole` | Backend/models/User.js:17-22 | the `role` enum accepts exactly "student" and "faculty", and the accepted value prints back to the same name |
| `UserModel.HashMatchesOnlyItsPassword` | Backend/controllers/Auth.js:27 | a stored hash is matched by the password it was made from and by no other |
| `UserModel.NewUser` | Backend/models/User.js:3-49 | a new document carries the given fields; all three verification flags are false, there is no verifier and no reset token, and the code and its expiry are set |
| `Auth.VerificationCode` | Backend/controllers/Auth.js:28 | the code is six decimal digits with value between 100000 and 999999 |
| `Auth.RegisterOutcome` | Backend/controllers/Auth.js:14-53 | results, in order: missing field gives 400; taken e-mail gives 400; a role outside the enum gives 500; otherwise success, and the new document holds the request's fields, the hashed password, the code `VerificationCode(roll)` (between 100000 and 999999) and an expiry 24 hours on; every failure leaves the collection unchanged; the collection invariant is preserved |
| `Auth.RegisterKeepsInvariant` | Backend/controllers/Auth.js:30-40 | adding a fresh document with an unused e-mail keeps e-mails unique and every document consistent |
| `Auth.VerifyEmailReply` | Backend/controllers/Auth.js:62-69 | success exactly when some document holds the code unexpired; otherwise the single reply "Invalid or Expired Code" |
| `Auth.Redeemed` | Backend/controllers/Auth.js:72-75 | verification sets `isVerified`, clears the code and its expiry, and changes nothing else |
| `Auth.RedeemKeepsInvariant` | Backend/controllers/Auth.js:72-75 | redeeming a code keeps the collection invariant |
| `Auth.CodeIsOneShot` | Backend/controllers/Auth.js:62-75 | when the redeemed document is the only one holding the code, the code is refused at any later time |
| `Auth.ExpiredCodeRefused` | Backend/controllers/Auth.js:62-69 | a code presented at or after its expiry is refused like an unknown one |
| `Auth.SigninReplyOf` | Backend/controllers/Auth.js:112-120 | the sign-in reply carries the document's e-mail, name and role, and `isHOD` is always absent |
| `Auth.GetUserReply` | Backend/controllers/Auth.js:142-162 | 404 "User not found" exactly for an unknown id; otherwise the profile with the document's name, e-mail, role, both verification flags, verifier and `canAddEvent` |
| `Auth.VerifyStudentOutcome` | Backend/controllers/Auth.js:169-194 | a non-faculty caller gets 403 and an unknown student 404, both with nothing changed; otherwise only that student changes: verified, allowed to add events, verifier set to the caller, every other field kept; the invariant is preserved |
| `Auth.UnverifyStudentOutcome` | Backend/controllers/Auth.js:221-247 | the same gates; on success the three verification fields of that student alone are cleared; the invariant is preserved |
| `Auth.FacultyVerificationKeepsInvariant` | Backend/controllers/Auth.js:184-187 | replacing a document by a copy that differs only in coherent verification fields keeps the invariant |
| `Auth.VerifyStudentIdempotent` | Backend/controllers/Auth.js:169-194 | verifying twice has the same reply and collection as verifying once |
| `Auth.UnverifyStudentIdempotent` | Backend/controllers/Auth.js:221-247 | unverifying twice has the same reply and collection as unverifying once |
| `Auth.UnverifyUndoesVerify` | Backend/controllers/Auth.js:169-247 | unverify after verify ends where unverify alone ends |
| `Auth.Populate` | Backend/controllers/Auth.js:205-207 | the populated verifier is present exactly when the referenced document exists, and then carries its id, name and e-mail |
| `Auth.UserStore.constructor` | Backend/models/User.js:3-49 | the collection starts empty |
| `Auth.UserStore.Register` | Backend/controllers/Auth.js:14-53 | the reply and the new collection are those of `RegisterOutcome` |
| `Auth.UserStore.VerifyEmail` | Backend/controllers/Auth.js:59-84 | the reply is `VerifyEmailReply`; on failure nothing changes; on success one redeemable document is redeemed |
| `Auth.UserStore.Signin` | Backend/controllers/Auth.js:90-126 | "User not found" exactly when no document has that e-mail or name; 500 exactly when such a document exists and the password is absent; a success comes from such a document whose hash matches the password; "Invalid credentials" only when a found document's hash did not match; when a password is sent and every found document matches it, success |
| `Auth.UserStore.GetUser` | Backend/controllers/Auth.js:142-162 | the reply is the profile of the authenticated document, or 404 |
| `Auth.UserStore.VerifyStudent` | Backend/controllers/Auth.js:169-194 | the reply and the new collection are those of `VerifyStudentOutcome` |
| `Auth.UserStore.UnverifyStudent` | Backend/controllers/Auth.js:221-247 | the reply and the new collection are those of `UnverifyStudentOutcome` |
| `Auth.UserStore.GetStudents` | Backend/controllers/Auth.js:196-214 | 403 exactly for a non-faculty caller; otherwise every faculty-verified student exactly once, with the verifier populated |
| `Auth.UserStore.GetStudentByEmail` | Backend/controllers/Auth.js:249-263 | 404 exactly when no student has that e-mail; otherwise that student's document, the only one with the address |
| `Auth.UserStore.GetStudentByIdentifier` | Backend/controllers/Auth.js:265-284 | 404 exactly when no student's e-mail or name is the identifier; otherwise such a student's document |
| `EventRoutes.SafeParseJSON` | Backend/routes/Event.routes.js:10-16 | the parsed list when parsing succeeds; the empty list when the value is absent or parsing throws |
| `EventRoutes.SplitOrganizers` | Backend/routes/Event.routes.js:43 | no organizers for a falsy field; otherwise the comma-separated pieces trimmed, each comma-free and already trimmed |
| `EventRoutes.SingleOrganizer` | Backend/routes/Event.routes.js:43 | a comma-free text gives exactly one organizer, its trim |
| `EventRoutes.VerifiedByFor` | Backend/routes/Event.routes.js:49 | "N/A" exactly for the role "faculty", "Pending" otherwise |
| `EventRoutes.ImageOf` | Backend/routes/Event.routes.js:52-71 | the stored image carries the upload's bytes and MIME type |
| `EventRoutes.CreatedEvent` | Backend/routes/Event.routes.js:35-71 | the saved document has every text field of the request, the parsed date and no editor; each image slot is filled exactly when a file was uploaded; it has the side images in order, the split organizers and the parsed lists |
| `EventRoutes.CreateOutcome` | Backend/routes/Event.routes.js:19-79 | a missing required field gives 400 with nothing changed; success exactly when the fields are present, the request is multipart and the date parses; any other failure gives 500 "Error creating event"; on success one new document is added; well-formedness is preserved |
| `EventRoutes.CreateIgnoresUserRole` | Backend/routes/Event.routes.js:49 | the role sent with a creation does not change what is stored |
| `EventRoutes.UpdatedByOrUnknown` | Backend/routes/Event.routes.js:118 | the sent `updatedBy` when truthy, else "Unknown", never empty |
| `EventRoutes.PatchOf` | Backend/routes/Event.routes.js:87-141 | the update document: each sent text field as sent, the date parsed when sent, the lists parsed, the organizers split, the editor or "Unknown", and an image slot exactly when a file was uploaded |
| `EventRoutes.Apply` | Backend/routes/Event.routes.js:143-147 | each field present in the update document replaces the stored one and absent ones stay; the lists and organizers are always replaced; `addedBy` is kept; `updatedBy` is always set |
| `EventRoutes.UpdateOutcome` | Backend/routes/Event.routes.js:81-166 | a non-multipart or invalid update gives 500, an unknown id 404, both with nothing changed; otherwise the document is the stored one with the update document of `PatchOf` applied, the parsed lists, the split organizers, the editor, and each image slot replaced exactly when a file was uploaded; well-formedness is preserved |
| `EventRoutes.UpdateWithoutFilesKeepsImages` | Backend/routes/Event.routes.js:122-141 | an update without files keeps the main, QR and side images |
| `EventRoutes.DeleteOutcome` | Backend/routes/Event.routes.js:212-223 | 404 with nothing changed for an unknown id; otherwise exactly that document is removed |
| `EventRoutes.DeleteTwice` | Backend/routes/Event.routes.js:212-223 | a second delete of the same id answers 404 and changes nothing |
| `EventRoutes.Slot` | Backend/routes/Event.routes.js:186-189 | "main" and "qr" pick those slots; "side" picks `images[n]` exactly when the index is a canonical array index within the list; any other kind picks nothing |
| `EventRoutes.ImageFor` | Backend/routes/Event.routes.js:180-199 | 404 for an unknown event or an empty slot; otherwise the slot's content type and bytes |
| `EventRoutes.SideImageAddress` | Backend/routes/Event.routes.js:186-189 | side image `n` is reached by the decimal spelling of `n` and by no other index text |
| `EventRoutes.EventStore.constructor` | Backend/models/Event.js:9-27 | the collection starts empty |
| `EventRoutes.EventStore.Create` | Backend/routes/Event.routes.js:19-79 | the reply and the new collection are those of `CreateOutcome` |
| `EventRoutes.EventStore.Update` | Backend/routes/Event.routes.js:81-166 | the reply and the new collection are those of `UpdateOutcome` |
| `EventRoutes.EventStore.AttachUploads` | Backend/routes/Event.routes.js:122-141 | each uploaded slot is set from its files; the others keep their value |
| `EventRoutes.EventStore.Delete` | Backend/routes/Event.routes.js:212-223 | the reply and the new collection are those of `DeleteOutcome` |
| `EventRoutes.EventStore.GetById` | Backend/routes/Event.routes.js:226-236 | the stored document exactly when the id exists, else 404 |
| `EventRoutes.EventStore.ListAll` | Backend/routes/Event.routes.js:170-177 | every stored event exactly once |
| `EventController.ToList` | Backend/controllers/Event.js:27-28 | a list is kept as it is; a single value becomes a one-element list |
| `EventController.ControllerCreateOutcome` | Backend/controllers/Event.js:10-47 | a missing required field gives 400; success exactly when the date also parses; other failures give 500; on success one new document is added holding every field of the request, the lists as lists, the parsed date and the author; well-formedness is preserved |
| `EventController.StartOfUtcDay` | Backend/controllers/Event.js:57-58 | the midnight UTC at or before `now`, less than a day earlier |
| `EventController.BuildFilters` | Backend/controllers/Event.js:53-74 | one constraint per truthy parameter, with its value; the date constraint matches the named event type against today's midnight; an unknown type adds none |
| `EventController.EventTypesPartition` | Backend/controllers/Event.js:65-71 | every date satisfies exactly one of the three date constraints |
| `EventController.Find` | Backend/controllers/Event.js:74 | every stored event that matches the filters, each once, and no other |
| `Signup.Domain` | Frontend/src/components/Logins/SignUp/signup.jsx:19 | no domain exactly when the address has no "@"; the domain itself has no "@" |
| `Signup.DomainOfAddress` | Frontend/src/components/Logins/SignUp/signup.jsx:19 | `local@domain` with one "@" has exactly that domain |
| `Signup.Prefix` | Frontend/src/components/Logins/SignUp/signup.jsx:20 | the lower-cased first three characters, or fewer for a short address |
| `Signup.RoleFromEmail` | Frontend/src/components/Logins/SignUp/signup.jsx:18-27 | the student domain gives student; the staff domain gives hod or faculty by prefix; any other domain gives no role |
| `Signup.DomainIsCaseSensitive` | Frontend/src/components/Logins/SignUp/signup.jsx:22 | the domain comparison is exact, so an upper-case domain gets no role |
| `Signup.HodPrefixIgnoresCase` | Frontend/src/components/Logins/SignUp/signup.jsx:20-24 | "HOD" and "hod" both give the hod role |
| `Signup.SignupRequest` | Frontend/src/components/Logins/SignUp/signup.jsx:31-47 | no request exactly when no role is derived; otherwise the request carries the derived role |
| `Signup.HodNeverRegisters` | Frontend/src/components/Logins/SignUp/signup.jsx:18-47 | a complete, fresh hod sign-up gets the 500 "Internal Server Error" and stores nothing |
| `Signup.SignupForm.constructor` | Frontend/src/components/Logins/SignUp/signup.jsx:11-14 | no code sent, none verified, no error, not loading |
| `Signup.SignupForm.HandleSignup` | Frontend/src/components/Logins/SignUp/signup.jsx:29-63 | the request sent is `SignupRequest`; without a role the domain error is shown; the code is marked sent only on a successful reply; the server's message or the connection error is shown |
| `Signup.SignupForm.HandleOtpVerification` | Frontend/src/components/Logins/SignUp/signup.jsx:65-94 | the code is sent as entered; a reply records whether it was accepted and shows its message; a connection failure shows the connection error |
| `App.ProtectedRoute` | Frontend/src/App.jsx:23-28 | loading exactly while unknown, the page exactly when signed in, a redirect exactly when signed out |
| `App.Session.constructor` | Frontend/src/App.jsx:31-32 | the session starts unknown, with no e-mail |
| `App.Session.CheckAuth` | Frontend/src/App.jsx:41-51 | signed in exactly when a non-empty token is stored, and then the stored e-mail or "" |
| `App.Param` | Frontend/src/App.jsx:87-91 | the value found belongs to a pair with that name; none means no pair has that name |
| `App.BuildQuery` | Frontend/src/App.jsx:87-91 | one parameter for each non-empty text filter, with its value; the event type is never sent |
| `App.LocalDayMonotone` | Frontend/src/App.jsx:98-104 | a later instant never falls on an earlier local day |
| `App.Classify` | Frontend/src/App.jsx:101-114 | past, ongoing or upcoming exactly when the local day is before, on or after today |
| `App.ClassifyMonotone` | Frontend/src/App.jsx:101-114 | a later date never gets an earlier type |
| `App.OngoingIsWiderThanTheServerFilter` | Frontend/src/App.jsx:101-114 | one millisecond after UTC midnight, with no offset, the client says ongoing and the controller's filter does not |
| `App.Classified` | Frontend/src/App.jsx:101-114 | each event gets the type of its date, in order |
| `App.ClassifyAll` | Frontend/src/App.jsx:101-114 | the array afterwards is the classified list |
| `App.SortNewestFirst` | Frontend/src/App.jsx:117 | the array is sorted newest first and is a permutation of the old one |
| `App.InsertIntoSorted` | Frontend/src/App.jsx:117 | one insertion step extends the sorted prefix by one and permutes the array |
| `App.Swap` | Frontend/src/App.jsx:117 | exactly two entries are exchanged |
| `App.NewestFirstGroupsTypes` | Frontend/src/App.jsx:101-117 | in a newest-first list the types run upcoming, then ongoing, then past |
| `App.OfType` | Frontend/src/App.jsx:119-123 | exactly the events of that type |
| `App.OfTypeAppend` | Frontend/src/App.jsx:119-123 | filtering a concatenation is concatenating the filters, so the kept events keep their order and repeats |
| `App.OfTypeOne` | Frontend/src/App.jsx:119-123 | a single event is kept exactly when it has the type |
| `App.OfTypeKeepsOrder` | Frontend/src/App.jsx:117-123 | filtering a newest-first list leaves it newest first |
| `App.SelectByType` | Frontend/src/App.jsx:119-123 | "all" keeps every event; another value keeps exactly the events of that type |
| `App.ShowEvents` | Frontend/src/App.jsx:85-127 | the shown list is newest first; for "all" it is the whole sorted list, otherwise it is `OfType` of the sorted list, so it holds exactly the classified events of the chosen type in order; each has the type of its date |
| `App.HideFilterBar` | Frontend/src/App.jsx:162 | hidden exactly on "/signin", "/signup" and "/team" |
| `App.Buttons` | Frontend/src/App.jsx:173-201 | no buttons where the bar is hidden; "Add Student" exactly for signed-in faculty; "Add Event" for signed-in faculty and for verified signed-in students |
| `App.StudentAddsEventsOnceVerified` | Frontend/src/App.jsx:194-201 | with the flags the server reports, a student sees "Add Event" exactly when a faculty member has verified them |
| `EventCard.SearchIgnoresCase` | Frontend/src/components/EventComponent/Event.jsx:28-33 | the title search keeps the same events for a query and for its lower-cased form |
| `EventCard.Kept` | Frontend/src/components/EventComponent/Event.jsx:15-44 | exactly the non-null entries that pass the filters, never more than the input |
| `EventCard.KeptAppend` | Frontend/src/components/EventComponent/Event.jsx:15-44 | filtering commutes with concatenation, so shown events keep their order |
| `EventCard.SplitTime` | Frontend/src/components/EventComponent/Event.jsx:19 | an empty time gives "N/A" twice; otherwise the first piece, and the second piece when there is one |
| `EventCard.TimeWithoutSeparator` | Frontend/src/components/EventComponent/Event.jsx:19 | a time without " - " is all start and no end |
| `EventCard.TimeRoundTrip` | Frontend/src/components/EventComponent/Event.jsx:19 | with one " - ", start + " - " + end gives the time back |
| `EventCard.Action` | Frontend/src/components/EventComponent/Event.jsx:46-48 | closed exactly when the event's instant is before now; otherwise a register link exactly when the form link is non-empty |
| `EventCard.CardOf` | Frontend/src/components/EventComponent/Event.jsx:15-81 | a card carries the event's id, title and action |
| `EventCard.CardsOf` | Frontend/src/components/EventComponent/Event.jsx:15-81 | one card per event, in order |
| `EventCard.Render` | Frontend/src/components/EventComponent/Event.jsx:9-16 | the notice exactly for an absent or empty list; otherwise the cards of the kept events |
| `EventCard.AllFilteredShowsNothing` | Frontend/src/components/EventComponent/Event.jsx:9-44 | a non-empty list whose entries are all filtered out shows neither cards nor the notice |
| `EventCard.NothingKept` | Frontend/src/components/EventComponent/Event.jsx:15-44 | when no entry passes, nothing is kept |
| `EventPage.NormalizeImages` | Frontend/src/components/EventPage/EventPage.jsx:23-25 | a non-array `images` becomes the empty list; an array is kept |
| `EventPage.Next` | Frontend/src/components/EventPage/EventPage.jsx:51-56 | within range, the successor modulo the image count |
| `EventPage.Prev` | Frontend/src/components/EventPage/EventPage.jsx:58-63 | within range, the predecessor modulo the image count |
| `EventPage.NextPrevInverse` | Frontend/src/components/EventPage/EventPage.jsx:51-63 | the two arrows undo each other |
| `EventPage.Advance` | Frontend/src/components/EventPage/EventPage.jsx:40-45 | repeated timer steps stay in range |
| `EventPage.AdvanceWithin` | Frontend/src/components/EventPage/EventPage.jsx:40-45 | before the end, `k` steps move the index by `k` |
| `EventPage.AdvanceWraps` | Frontend/src/components/EventPage/EventPage.jsx:40-45 | past the end, the index wraps around to the front once |
| `EventPage.FullLap` | Frontend/src/components/EventPage/EventPage.jsx:40-45 | after a full lap the gallery shows its starting image |
| `EventPage.AdvanceAdd` | Frontend/src/components/EventPage/EventPage.jsx:40-45 | `a` steps then `b` steps are `a + b` steps |
| `EventPage.Periodic` | Frontend/src/components/EventPage/EventPage.jsx:40-45 | the position is periodic in the number of steps, with period the image count |
| `EventPage.GalleryImage` | Frontend/src/components/EventPage/EventPage.jsx:133-151 | the side URL for index `i` serves exactly the event's `i`-th image, and nothing past the end |
| `EventPage.Buttons` | Frontend/src/components/EventPage/EventPage.jsx:184-212 | closed exactly for a past instant; otherwise each link button appears exactly when its trimmed text is non-empty, and it points at the link |
| `EventPage.PageAndCardAgreeOnClosing` | Frontend/src/components/EventPage/EventPage.jsx:86 | the page and the card agree on when registration is closed |
| `EventPage.BlankLinkDisagreement` | Frontend/src/components/EventPage/EventPage.jsx:190 | a one-space form link gets a register link on the card but no button on the page |
| `EventPage.GalleryState.constructor` | Frontend/src/components/EventPage/EventPage.jsx:23-25 | no images, index 0, no timer |
| `EventPage.GalleryState.Load` | Frontend/src/components/EventPage/EventPage.jsx:23-45 | the images get their default, and the timer runs exactly for more than one image |
| `EventPage.GalleryState.HandleNext` | Frontend/src/components/EventPage/EventPage.jsx:51-56 | the timer stops and the index moves to `Next`, staying in range |
| `EventPage.GalleryState.HandlePrev` | Frontend/src/components/EventPage/EventPage.jsx:58-63 | the timer stops and the index moves to `Prev`, staying in range |
| `EventPage.GalleryState.Tick` | Frontend/src/components/EventPage/EventPage.jsx:40-45 | while the timer runs the index moves to `Next`; otherwise it stays |
| `AddEvent.Values` | Frontend/src/components/AddEvent/AddEvent.jsx:143-150 | the chosen options' values, in order |
| `AddEvent.JsonStringList` | Frontend/src/components/AddEvent/AddEvent.jsx:143-150 | `JSON.stringify` of a list: the quoted values joined with "," inside brackets |
| `AddEvent.Quoted` | Frontend/src/components/AddEvent/AddEvent.jsx:143-150 | each value in double quotes |
| `AddEvent.InitialForm` | Frontend/src/components/AddEvent/AddEvent.jsx:37-53 | an empty form whose author and role fall back to "Unknown" and "student", never empty |
| `AddEvent.ResetForm` | Frontend/src/components/AddEvent/AddEvent.jsx:165-186 | every content field emptied; author, editor and role kept |
| `AddEvent.Validate` | Frontend/src/components/AddEvent/AddEvent.jsx:93-125 | in order: missing fields, duplicate title (trimmed, case-insensitive), non-image main, QR or side file; each refusal exactly under its condition |
| `AddEvent.ResetFormIsRefused` | Frontend/src/components/AddEvent/AddEvent.jsx:93-103 | a reset form is refused for missing fields |
| `AddEvent.RetypedTitleIsDuplicate` | Frontend/src/components/AddEvent/AddEvent.jsx:105-112 | a title equal to a listed one up to spaces and case is refused as a duplicate |
| `AddEvent.TextEntries` | Frontend/src/components/AddEvent/AddEvent.jsx:129-150 | the fifteen text fields: the thirteen named form fields with their text, then the department and category lists as JSON |
| `AddEvent.BuildFormData` | Frontend/src/components/AddEvent/AddEvent.jsx:129-155 | the text fields, then the main image, the QR image when chosen, and the side images in order |
| `AddEvent.RequestOf` | Frontend/src/components/AddEvent/AddEvent.jsx:129-150 | the server sees the form's title and organizers, and the option values as JSON lists |
| `AddEvent.UploadOf` | Frontend/src/components/AddEvent/AddEvent.jsx:151-155 | an upload carries the file's bytes and type |
| `AddEvent.UploadsOf` | Frontend/src/components/AddEvent/AddEvent.jsx:151-155 | one main upload, a QR upload when chosen, the side uploads in order |
| `AddEvent.AcceptedFormIsCreated` | Frontend/src/components/AddEvent/AddEvent.jsx:90-163 | a form the page accepts is created by the server with its title, lists, split organizers and images |
| `AddEvent.Endpoint` | Frontend/src/components/AddEvent/AddEvent.jsx:63-69 | faculty list from "/events/faculty", everyone else from "/events" |
| `AddEvent.SearchList` | Frontend/src/components/AddEvent/AddEvent.jsx:406-411 | exactly the events whose lower-cased title contains the lower-cased query, never more than the list |
| `AddEvent.SearchListAppend` | Frontend/src/components/AddEvent/AddEvent.jsx:406-411 | searching a concatenation is concatenating the searches, so the matches keep their order and multiplicity |
| `AddEvent.SearchListOne` | Frontend/src/components/AddEvent/AddEvent.jsx:406-411 | a single event is kept exactly when its title matches |
| `AddEvent.ListSearchIsCardSearch` | Frontend/src/components/AddEvent/AddEvent.jsx:406-411 | the list-tab search agrees with the card list's title search |
| `AddEvent.UpdatedByCell` | Frontend/src/components/AddEvent/AddEvent.jsx:419 | the editor when set, else the author, never empty for a well-formed event |
| `AddEvent.AddEventPage.constructor` | Frontend/src/components/AddEvent/AddEvent.jsx:32-53 | the initial form, no files, form tab, not submitting |
| `AddEvent.AddEventPage.HandleSubmit` | Frontend/src/components/AddEvent/AddEvent.jsx:90-196 | a refusal shows its message and sends nothing, with the form, files and tab unchanged; a body is sent exactly when validation passes, and it is the form data of the form and files; on "added" the form, files and tab are reset; otherwise they stay; the alert is the success message, the server's message or the fetch error; submitting ends; the event list is unchanged |
| `AddEvent.AddEventPage.Send` | Frontend/src/components/AddEvent/AddEvent.jsx:157-196 | the alert reports the reply; on "added" the form, files and tab are reset; otherwise they stay |
| `UpdateEvent.FindOption` | Frontend/src/components/AddEvent/UpdateEvent.jsx:49-54 | the option with that value, or none exactly when no option has it |
| `UpdateEvent.LoadOptions` | Frontend/src/components/AddEvent/UpdateEvent.jsx:49-54 | one lookup per stored value, in order |
| `UpdateEvent.LoadForm` | Frontend/src/components/AddEvent/UpdateEvent.jsx:41-56 | every form field holds the event's value, the looked-up options and the organizers joined with ", " |
| `UpdateEvent.OptionValues` | Frontend/src/components/AddEvent/UpdateEvent.jsx:117-124 | the values exactly when every option was found |
| `UpdateEvent.KnownSelectionsRoundTrip` | Frontend/src/components/AddEvent/UpdateEvent.jsx:49-54 | stored values that are all known options are sent back unchanged |
| `UpdateEvent.UnknownSelectionBlocksSubmit` | Frontend/src/components/AddEvent/UpdateEvent.jsx:117-124 | one unknown stored value makes the submission fail |
| `UpdateEvent.FirstBlankField` | Frontend/src/components/AddEvent/UpdateEvent.jsx:84-90 | none exactly when all required fields are filled; otherwise the first blank one in order |
| `UpdateEvent.RequiredFilledFields` | Frontend/src/components/AddEvent/UpdateEvent.jsx:84-90 | filled means title, description, date, time and venue each have non-blank text |
| `UpdateEvent.ImageProblem` | Frontend/src/components/AddEvent/UpdateEvent.jsx:92-100 | none exactly when each chosen replacement is an image; otherwise the main, then QR, then side-image message |
| `UpdateEvent.RequiredEntries` | Frontend/src/components/AddEvent/UpdateEvent.jsx:105-109 | title, description, date, time and venue, with title, description and venue trimmed |
| `UpdateEvent.OptionalEntries` | Frontend/src/components/AddEvent/UpdateEvent.jsx:110-114 | the trimmed organizers, then the four links or the empty string |
| `UpdateEvent.UpdateTextEntries` | Frontend/src/components/AddEvent/UpdateEvent.jsx:104-124 | thirteen fields: the required and optional entries in order, the editor defaulting to "Unknown", and the lists as JSON |
| `UpdateEvent.BuildFormData` | Frontend/src/components/AddEvent/UpdateEvent.jsx:104-130 | no body exactly when an option cannot be read; otherwise the text entries, then the main, QR and side files chosen |
| `UpdateEvent.RequestOf` | Frontend/src/components/AddEvent/UpdateEvent.jsx:104-124 | none exactly when an option cannot be read; otherwise every field the server sees: title, description, venue and organizers trimmed, the date, time and editor, the links or the empty string, and the option values as JSON lists |
| `UpdateEvent.UploadsOf` | Frontend/src/components/AddEvent/UpdateEvent.jsx:126-130 | one upload per chosen main and QR file, and one per side file in order |
| `UpdateEvent.AcceptedUpdateIsApplied` | Frontend/src/components/AddEvent/UpdateEvent.jsx:81-148 | a filled form for a stored event is accepted by the server and saved with the trimmed title, the editor and the organizers |
| `UpdateEvent.AcceptedUpdateKeepsImages` | Frontend/src/components/AddEvent/UpdateEvent.jsx:126-148 | an accepted update without replacement files keeps the main, QR and side images |
| `UpdateEvent.FilledFormPassesValidators` | Frontend/src/components/AddEvent/UpdateEvent.jsx:84-124 | a form the page finds filled is never refused by the server's validators |
| `UpdateEvent.Spaced` | Frontend/src/components/AddEvent/UpdateEvent.jsx:55 | each piece with a leading space |
| `UpdateEvent.JoinSpaced` | Frontend/src/components/AddEvent/UpdateEvent.jsx:55 | joining on ", " is joining the spaced pieces on "," with one space in front |
| `UpdateEvent.CommaSpaceJoin` | Frontend/src/components/AddEvent/UpdateEvent.jsx:55 | the ", " join is the first piece and the spaced others joined on "," |
| `UpdateEvent.JoinEnds` | Frontend/src/components/AddEvent/UpdateEvent.jsx:55 | a join of non-empty pieces starts and ends with those pieces' end characters |
| `UpdateEvent.JoinIsTrimmed` | Frontend/src/components/AddEvent/UpdateEvent.jsx:55 | clean names joined with ", " are already trimmed |
| `UpdateEvent.SpacedPiecesCommaFree` | Frontend/src/components/AddEvent/UpdateEvent.jsx:55 | the "," pieces of such a join hold no comma |
| `UpdateEvent.TrimSpacedPieces` | Frontend/src/components/AddEvent/UpdateEvent.jsx:55 | trimming those pieces gives the names |
| `UpdateEvent.OrganizersRoundTrip` | Frontend/src/components/AddEvent/UpdateEvent.jsx:55 | loading joins clean organizer names with ", "; saving trims, and the server splits on "," and trims, giving the stored list back |
| `UpdateEvent.UnchangedOrganizersSurvive` | Frontend/src/components/AddEvent/UpdateEvent.jsx:47-56 | for stored organizers that are non-empty, comma-free and trimmed, an edit that leaves them alone saves the same organizers |
| `UpdateEvent.BlankOrganizerIsStored` | Backend/routes/Event.routes.js:43 | a blank organizer text (" ") sent by the add form is stored as the single empty name |
| `UpdateEvent.BlankOrganizerIsDropped` | Frontend/src/components/AddEvent/UpdateEvent.jsx:55 | a stored single empty name loads as "", which the update route treats as absent, so an untouched edit saves no organizers |
| `UpdateEvent.UpdateEventPage.constructor` | Frontend/src/components/AddEvent/UpdateEvent.jsx:47-56 | the form is the loaded event; no files; not submitting |
| `UpdateEvent.UpdateEventPage.HandleSubmit` | Frontend/src/components/AddEvent/UpdateEvent.jsx:81-155 | a blank field is reported by name and nothing is sent; a bad file is reported with its message; a body is sent exactly when the form is filled, the files are images and every option is readable, and it is the form data of the form and files; the alert is the success message or the failure; the page is left exactly on success; submitting ends |
| `UpdateEvent.UpdateEventPage.Check` | Frontend/src/components/AddEvent/UpdateEvent.jsx:84-100 | passes exactly when the form is filled and the files are images; otherwise the alert names the first blank field or the bad file |
| `UpdateEvent.UpdateEventPage.Send` | Frontend/src/components/AddEvent/UpdateEvent.jsx:132-155 | no body, still submitting and nothing alerted when an option cannot be read (the list mapping throws before the request); otherwise the alert reports the reply, the page is left on success and submitting ends |
| `AddStudent.RowOf` | Frontend/src/components/AddStudent/AddStudent.jsx:17-31 | a row carries the listed student's id, e-mail, name, status and verifier |
| `AddStudent.SearchStudents` | Frontend/src/components/AddStudent/AddStudent.jsx:139-147 | exactly the rows whose lower-cased name or e-mail contains the lower-cased query, never more than the list |
| `AddStudent.SearchStudentsAppend` | Frontend/src/components/AddStudent/AddStudent.jsx:139-147 | searching a concatenation is concatenating the searches, so the matches keep their order and multiplicity |
| `AddStudent.SearchStudentsOne` | Frontend/src/components/AddStudent/AddStudent.jsx:139-147 | a single row is kept exactly when it matches |
| `AddStudent.FoundByOwnEmail` | Frontend/src/components/AddStudent/AddStudent.jsx:139-147 | every row is found by its own e-mail |
| `AddStudent.EmptySearchKeepsAll` | Frontend/src/components/AddStudent/AddStudent.jsx:139-147 | the empty search keeps every row in order |
| `AddStudent.NameCell` | Frontend/src/components/AddStudent/AddStudent.jsx:150-153 | the name, or "N/A" when it is missing or empty |
| `AddStudent.VerifierCell` | Frontend/src/components/AddStudent/AddStudent.jsx:150-153 | the verifier's name, or "Not Verified" when it is missing or empty |
| `AddStudent.StatusCell` | Frontend/src/components/AddStudent/AddStudent.jsx:150-153 | "Verified" exactly for a faculty-verified student |
| `AddStudent.ListedRowsShowVerifier` | Frontend/src/components/AddStudent/AddStudent.jsx:150-153 | in a consistent collection a listed student shows "Verified", their name and their verifier's name, never a fallback |
| `AddStudent.AddStudentPage.constructor` | Frontend/src/components/AddStudent/AddStudent.jsx:17-31 | empty identifier, form tab, no students, no alert |
| `AddStudent.AddStudentPage.HandleAddStudent` | Frontend/src/components/AddStudent/AddStudent.jsx:33-70 | an empty identifier is refused and an unknown one is not found, both with the collection, field, tab and list unchanged; otherwise the looked-up student alone is verified; for faculty the alert is "Student verified successfully! (ID: <id>)", the field is cleared, the tab is the list and the refreshed list contains the student; for anyone else "Failed to verify student." with nothing else changed |
| `AddStudent.AddStudentPage.HandleUnverify` | Frontend/src/components/AddStudent/AddStudent.jsx:72-88 | the collection is that of `UnverifyStudentOutcome`; on success the alert says so and the refreshed list no longer holds the student; on failure the failure alert and the list unchanged; the field and tab never change |
| `JsString.TrimStart` | Frontend/src/components/AddEvent/UpdateEvent.jsx:105 | leading white space removed, the rest a suffix of the input |
| `JsString.TrimEnd` | Frontend/src/components/AddEvent/UpdateEvent.jsx:105 | trailing white space removed, the rest a prefix of the input |
| `JsString.Trim` | Frontend/src/components/AddEvent/UpdateEvent.jsx:105 | the result neither starts nor ends with white space and is no longer than the input |
| `JsString.TrimIsSlice` | Frontend/src/components/AddEvent/UpdateEvent.jsx:105 | the trim is the slice of the input between a run of leading and a run of trailing white space |
| `JsString.TrimEmptyIffBlank` | Frontend/src/components/AddEvent/UpdateEvent.jsx:84-90 | the trim is empty exactly when the input is all white space |
| `JsString.TrimStartCut` | Frontend/src/components/AddEvent/UpdateEvent.jsx:105 | the leading trim drops exactly a prefix of white space |
| `JsString.TrimEndCut` | Frontend/src/components/AddEvent/UpdateEvent.jsx:105 | the trailing trim drops exactly a suffix of white space |
| `JsString.CutsCompose` | Frontend/src/components/AddEvent/UpdateEvent.jsx:105 | a prefix cut followed by a suffix cut is one slice between white-space ends |
| `JsString.TrimIdempotent` | Frontend/src/components/AddEvent/UpdateEvent.jsx:105 | trimming twice is trimming once |
| `JsString.TrimAfterSpaces` | Backend/routes/Event.routes.js:43 | leading spaces do not change a trim |
| `JsString.OrElse` | Frontend/src/components/AddEvent/AddEvent.jsx:50-52 | the value when present and non-empty, else the fallback |
| `JsString.ToLower` | Frontend/src/components/AddEvent/AddEvent.jsx:105-112 | the same length, with each character lower-cased in place |
| `JsString.JoinSplit` | Backend/routes/Event.routes.js:43 | joining the pieces of a split gives the string back |
| `JsString.SplitPiecesFree` | Backend/routes/Event.routes.js:43 | no piece of a split on a character holds that character |
| `JsString.SplitJoin` | Backend/routes/Event.routes.js:43 | splitting a join of separator-free pieces gives the pieces back |
| `JsString.DecimalDigits` | Frontend/src/components/EventPage/EventPage.jsx:141 | the decimal spelling of a number: at least one digit, digits only, no leading zero for a positive number |
| `JsString.ParseIndex` | Backend/routes/Event.routes.js:186-189 | a number exactly for a canonical index, with its value |
| `JsString.IndexRoundTrip` | Backend/routes/Event.routes.js:186-189 | reading the printed number back gives the number |
| `JsString.ParseIndexCanonical` | Backend/routes/Event.routes.js:186-189 | only the printed spelling of a number reads as that index |

## Left out

- bcrypt is an ideal one-way function (`Bcrypt(salt, secret)`); the salt is a parameter, and cost factors and collisions are not modelled.
- Session tokens, cookies and the authentication middleware are left out. The authenticated user's id is a parameter of each handler.
- The logout handler is left out because the router does not mount it.
- Sending e-mail (the code mail and the welcome mail) is a side effect outside the model.
- The event routes' request fields (`EventRoutes.Field`) and the sign-in password are `Option<string>`: an absent field is `None` and a sent empty string is `Some("")`. The other auth request fields are plain strings. In registration an absent field and an empty one are both falsy, so they behave alike. Mongoose's treatment of `undefined` values inside query filters is left out, which covers an absent verification code or sign-in identifier.
- `EventRoutes.Apply` assumes Mongoose 6 or later, where keys whose value is `undefined` are stripped from an update document, so an absent field leaves the stored value as it was. The Mongoose version is not stated in the repository's files that are part of this model.
- `EventController.Find`: the title filter is a parameter (`TitleMatcher`). A title that is not a valid regular expression makes the `RegExp` constructor at `Backend/controllers/Event.js:60` throw and the handler answer 500; the model does not capture that case.
- `JSON.parse`, the `Date` constructor and the case-insensitive title regular expression are parameters (`JsonParser`, `DateParser`, `TitleMatcher`). `JSON.stringify` escaping is not modelled, so `AddEvent.AcceptedFormIsCreated` assumes the parser reads the sent list back.
- The clock (`now`) and the random roll are parameters, and so is the local time zone's offset. The offset is fixed, with no daylight-saving changes.
- `JsString.ToLower` maps ASCII letters only. `JsString.IsSpace` covers ASCII white space, the no-break space, the byte-order mark and the line and paragraph separators, but not the other Unicode space characters `trim` removes.
- React rendering, effects, `localStorage`, navigation and `alert` are modelled only through the state each handler leaves behind. `fetch` is the reply parameter of each handler.
- `EventPage.GalleryState.Tick`: the interval timer is a step the environment may take; its scheduling is not modelled.
- Concurrency between requests is not modelled; each handler runs alone.
- multer's memory storage is a list of files per field; its `maxCount` limits and size limits are not modelled.
- `AddEvent.AddEventPage.HandleSubmit`: the list refetched after a successful add is not modelled, so the events list is left unchanged.
- The `deleteEvent` handler of `AddEvent.jsx` (198-220) is left out. It calls the delete endpoint modelled by `EventRoutes.EventStore.Delete` and then refetches.
- `App.SortNewestFirst` proves sortedness and permutation but not the stability of the browser's sort.
- Dates shown to users are not modelled, including the update form's date text (a parameter of `UpdateEvent.LoadForm`).
- MongoDB ObjectIds are natural numbers, and URL encoding of path parameters is not modelled. A malformed id makes `findById` throw a cast error, which the handlers answer with 500 (for example "Error fetching event" at `Backend/routes/Event.routes.js:228-235`); the model has no malformed ids, so it does not capture those replies.
- `EventController.ControllerCreateOutcome` models the controller's list fields as always present. A missing `department` or `categories` would become `[undefined]`, which is not modelled.
