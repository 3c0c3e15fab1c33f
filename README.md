# Auth and upload API: a verified model of the request decisions

This project models the request-decision layer of a small Flask backend for a
course-materials site (`app.py`): seeding of two default accounts, login,
signup, logout, "who am I", and the teacher-only PDF upload. The state is a
user store (a sequence of records with id, name, email, password hash and
role, plus the next identifier the store will assign) and the session slot
of one client, which holds an identity view (name, email, role, user id) and
never a password hash.

Modules:

- `Wrappers` — `Option`.
- `Credentials` — bcrypt kept abstract: a `Hasher` carries `hash(password, salt)`
  and `verify(password, hash)` as uninterpreted total functions; `Sound(h)`
  (a password verifies against its own hash, for every salt) is the only fact
  assumed of them, and it is a hypothesis of the lemmas that need it.
- `Users` — records, the identity view, `FindByEmail` (the store's `find_one`
  on the email field: the first match, exact and case-sensitive; the model
  takes the store's natural order as insertion order) and the store
  invariants.
- `UploadNames` — the pure parts of upload: the case-insensitive `.pdf`
  suffix test and the stored name `{subject}_{YYYYMMDD_HHMMSS}.pdf` with its
  zero-padded fields, and reading the stamp back out of it.
- `Api` — each handler as a function from a `State` value and the request to
  the new state and the response (`Step`), with the guard order and the
  outcomes in its contract; `WellFormed` (unique emails, fresh ids, the
  session is the view of a stored user); `Op`/`Run` for sequences of calls.
- `ApiProperties` — lemmas relating several calls.
- `Server` — class `App` with fields `users`, `nextId` and `session`; each
  handler is a method that updates those fields in place and is proved to
  end in exactly the response and state the `Api` function gives.

Abstract inputs: the hasher, whether the store connection was made (`db`,
i.e. `users_collection is not None`), one salt per hash (bcrypt draws it
afresh), a `fault` flag for an exception raised by the store or the hasher
inside a handler's `try` block, and the clock reading as a `Stamp`.

A duplicate email at signup gives 400 "User already exists", not a separate
conflict status. The success body of `/api/user` has no `message` key
(`Response.message` is `None` there). Nothing states that `verify` rejects
other passwords, since only bcrypt could promise that.

## Model

| member | source | states |
|---|---|---|
| `Credentials.VerifiesOwnHash` | app.py:37-45 | under `Sound`, a password verifies against the hash made from it with any salt |
| `Users.FindByEmail` | app.py:115 | the lookup returns the first index whose email equals the given one exactly, and None iff no stored user has that email |
| `Users.FindByEmailUnique` | app.py:115-117 | when emails are unique, the lookup finds precisely the user holding the email |
| `Users.FindAppended` | app.py:168-184 | after appending a user whose email was not taken, the lookup for that email finds the new user |
| `UploadNames.IsPdfNameByChars` | app.py:262 | `name.lower().endswith('.pdf')` holds iff the name has at least four characters ending in '.', p/P, d/D, f/F |
| `UploadNames.Digits` | app.py:263 | a zero-padded field has exactly the requested width and only decimal digits |
| `UploadNames.ValueOfDigits` | app.py:263 | reading a zero-padded field back as decimal gives the number written |
| `UploadNames.StampText` | app.py:263 | `%Y%m%d_%H%M%S` is eight digits, an underscore and six digits |
| `UploadNames.StampRoundTrip` | app.py:263 | parsing the stamp text gives back year, month, day, hour, minute and second |
| `UploadNames.StoredName` | app.py:263 | the stored name is the subject unchanged, '_', eight digits, '_', six digits and ".pdf" (20 characters beyond the subject) |
| `UploadNames.StoredNameStamp` | app.py:263 | the timestamp can be read back from its place in a stored name |
| `UploadNames.StoredNameInjective` | app.py:263 | two uploads of one subject at different seconds get different stored names |
| `UploadNames.StoredNameIsPdf` | app.py:262-263 | every generated name passes the handler's own `.pdf` test |
| `Api.Seed` | app.py:48-67 | the store changes iff the connection exists and the store is empty; then it holds exactly "Admin User"/admin@example.com/teacher and "Student User"/student@example.com/student; the session is untouched |
| `Api.Login` | app.py:95-143 | 500 without a connection before any field is read; 400 when email or password is missing or empty; 500 on a fault; the store never changes; success means 200 and the session (and response) is the view of a stored user with that email whose hash verifies the password; any failure leaves the state unchanged |
| `Api.Signup` | app.py:146-206 | 500 without a connection; 400 "All fields are required" when any of the four fields is missing; 500 on a fault; 400 "User already exists" when the email is stored; success iff none of these, and then exactly one student record named first + " " + last with the hashed password is appended and the session becomes its view; any failure leaves the state unchanged |
| `Api.Logout` | app.py:209-215 | always 200 success; the session becomes absent and the store is untouched |
| `Api.CurrentUser` | app.py:218-229 | success with the session identity iff a session is present, otherwise 401 "Not logged in" |
| `Api.Upload` | app.py:233-275 | no session gives 401 first, a non-teacher 403 next; for a teacher, a missing subject or file gives 400 "Subject name and file are required", then an empty filename 400 "No file selected", then a name without the `.pdf` suffix 400 "Only PDF files are allowed"; success iff all guards pass (subject and file present, non-empty filename, `.pdf` suffix), and then the file is saved as `StoredName(subject, now)` and the message names subject and file |
| `ApiProperties.SeedIdempotent` | app.py:48-67 | seeding twice equals seeding once |
| `ApiProperties.SeededAccountsLogIn` | app.py:48-67 | after seeding an empty store, admin@example.com/admin123 logs in as teacher and student@example.com/student123 as student |
| `ApiProperties.LoginSucceedsIff` | app.py:115-131 | with unique emails, login succeeds iff some stored user has exactly that email and the password verifies against its hash |
| `ApiProperties.InvalidCredentialsIndistinguishable` | app.py:117-136 | an unknown email and a wrong password give the identical outcome, 401 "Invalid credentials", with store and session unchanged |
| `ApiProperties.SignupThenLogin` | app.py:176-199 | after a successful signup, logging in with the same email and password succeeds and yields the same session identity |
| `ApiProperties.CurrentUserAfterLogin` | app.py:125-131 | after a successful login, `/api/user` returns the identity the login response returned |
| `ApiProperties.CurrentUserAfterSignup` | app.py:187-199 | after a successful signup, `/api/user` returns the identity the signup response returned |
| `ApiProperties.LogoutIdempotent` | app.py:209-229 | logging out twice equals logging out once, and afterwards `/api/user` gives 401 "Not logged in" |
| `ApiProperties.SignupKeepsEmailsUnique` | app.py:166-184 | if stored emails are unique before a signup they are unique after it |
| `ApiProperties.ApplyPreservesWellFormed` | app.py:48-275 | every operation keeps emails unique, ids fresh and the session equal to the view of a stored user |
| `ApiProperties.RunPreservesWellFormed` | app.py:48-275 | the invariant holds after any sequence of operations |
| `ApiProperties.RunOnlyAppends` | app.py:48-275 | no operation updates or deletes a stored user: the old store is a prefix of the new one |
| `ApiProperties.UnauthenticatedBeforeBadExtension` | app.py:235-239 | with no session, an upload of "notes.txt" gets 401, not 400 |
| `ApiProperties.StudentForbidden` | app.py:241-245 | a student's upload of a valid PDF gets 403 |
| `ApiProperties.TeacherNotesTxtRejected` | app.py:262-275 | a teacher's upload of "notes.txt" with a subject gets 400 "Only PDF files are allowed" |
| `ApiProperties.TeacherUploadsUpperCasePdf` | app.py:262-270 | a teacher's "chapter1.PDF" for subject "Math" succeeds and is stored as Math_ + 8 digits + _ + 6 digits + .pdf |
| `Server.App.constructor` | app.py:18-26 | the process starts over an existing collection and a client without a session |
| `Server.App.InitializeDefaultUsers` | app.py:48-67 | the new store is `Api.Seed` of the old; the session is untouched |
| `Server.App.Login` | app.py:95-143 | response and new session are those of `Api.Login`; the store is unchanged |
| `Server.App.Signup` | app.py:146-206 | response and new state are those of `Api.Signup`, and the store invariant is kept |
| `Server.App.Logout` | app.py:209-215 | response and new state are those of `Api.Logout`; the store is unchanged |
| `Server.App.CurrentUser` | app.py:218-229 | returns the session identity iff one is present, as `Api.CurrentUser` |
| `Server.App.Upload` | app.py:233-275 | response and saved name are those of `Api.Upload`; nothing changes; a saved name always ends in `.pdf` |

## Left out

- Flask routing and the page handlers `index`, `login`, `signup`, `courses_page` (app.py:74-92): presentation only.
- The MongoDB connection and driver (app.py:13-26): the store is a sequence of records; `find_one` is `FindByEmail`, `insert_one`/`insert_many` append; the connection outcome is the boolean `db`.
- Store identifiers: ObjectId generation is modelled as a counter `nextId`, and `user_id` is that number rather than its string form.
- `created_at` timestamps of stored users (`datetime.utcnow()`): never read by the core.
- bcrypt internals (app.py:37-45): hash and verify are uninterpreted; that `verify` rejects other passwords is not modelled, so the wrong-password half of the seeded-login scenario is not proved.
- The `except Exception` paths (app.py:138-143, app.py:201-206) are the explicit `fault` flag, taken to strike before any write; an exception after `insert_one` has stored the user (which would leave the user stored but no session) is not modelled.
- JSON and form parsing: fields are optional strings; non-string JSON values and a missing JSON body (which crashes at app.py:104) are not modelled.
- File presence at app.py:250 is the form part being present; werkzeug's file object is not part of this model. If its truthiness is that of its filename, a part with an empty filename already fails at app.py:250 with "Subject name and file are required", so the "No file selected" branch (app.py:256-260), which the model answers for such a part, is dead in the running program.
- Writing the file, creating the upload folder and the 16 MiB request limit (app.py:29-34, app.py:264-265): disk I/O and transport configuration; `Upload` returns the name the file would be saved under.
- The clock: `datetime.now()` is an input `Stamp`. `ValidStamp` limits the year to 1000..9999, so the padding of three-digit years by `%Y` is not modelled.
- `str.lower()` is modelled on ASCII letters only; for the `.pdf` suffix test this is exact, since no other character lowers to '.', 'p', 'd' or 'f'.
- Path sanitisation: there is none (`secure_filename` is imported but not used); `StoredName` keeps the subject unchanged, and the model claims nothing about path traversal.
- The race between the existence check and the insert at signup (app.py:168-184): concurrency, outside a sequential model.
- Sessions of several clients: the model has one session slot, that of the client issuing the requests; cookie signing and expiry belong to Flask.
